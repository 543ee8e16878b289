/** `acl_ttl_spec_t`: a range operator and an 8-bit TTL. */
module TtlSpecs {
  import opened AclTypes
  import opened Decimal

  /** The value of an `acl_ttl_spec_t`: what a copy of one holds. */
  datatype TtlSpecValue = TtlSpecValue(oper: RangeOperator, ttl: uint8)

  /** The default-constructed TTL specification. */
  const DefaultTtlSpec: TtlSpecValue := TtlSpecValue(RangeAny, 0)

  /** The convention stated beside the two-argument constructor: an ANY
      specification carries TTL 0. No operation checks or keeps it. */
  predicate AnyHasZeroTtl(v: TtlSpecValue) {
    v.oper == RangeAny ==> v.ttl == 0
  }

  /** `acl_ttl_spec_t::operator==`: same operator and same TTL. */
  function TtlSpecEquals(a: TtlSpecValue, b: TtlSpecValue): (r: bool)
    ensures r <==> a == b
  {
    a.oper == b.oper && a.ttl == b.ttl
  }

  /** `acl_ttl_spec_t::operator!=`. */
  function TtlSpecNotEquals(a: TtlSpecValue, b: TtlSpecValue): (r: bool)
    ensures r <==> a != b
  {
    !TtlSpecEquals(a, b)
  }

  /** `acl_ttl_spec_t` as an object whose operator and TTL are set in place. */
  class AclTtlSpec {
    var oper: RangeOperator
    var ttl: uint8

    /** The value a copy of this object holds. */
    function Value(): TtlSpecValue
      reads this
    {
      TtlSpecValue(oper, ttl)
    }

    /** `acl_ttl_spec_t()`: operator ANY with TTL 0, which keeps the convention. */
    constructor Default()
      ensures Value() == DefaultTtlSpec && AnyHasZeroTtl(Value())
    {
      oper := RangeAny;
      ttl := 0;
    }

    /** `acl_ttl_spec_t(oper, ttl)`: stores both as given; an ANY operator with a
        non-zero TTL is accepted. */
    constructor (oper: RangeOperator, ttl: uint8)
      ensures Value() == TtlSpecValue(oper, ttl)
    {
      this.oper := oper;
      this.ttl := ttl;
    }

    /** `oper_is`. */
    method OperIs(oper: RangeOperator)
      modifies this
      ensures Value() == old(Value()).(oper := oper)
    {
      this.oper := oper;
    }

    /** `ttl_is`. */
    method TtlIs(ttl: uint8)
      modifies this
      ensures Value() == old(Value()).(ttl := ttl)
    {
      this.ttl := ttl;
    }
  }

  /** The operator setter can break the ANY convention of a specification that kept it. */
  lemma OperIsCanBreakAnyConvention(ttl: uint8)
    requires ttl != 0
    ensures AnyHasZeroTtl(TtlSpecValue(RangeEq, ttl))
    ensures !AnyHasZeroTtl(TtlSpecValue(RangeEq, ttl).(oper := RangeAny))
  {
  }

  // ---------------------------------------------------------------------------
  // `to_string`
  // ---------------------------------------------------------------------------

  /** The text before the TTL. */
  function TtlSpecTextPrefix(oper: RangeOperator, operText: RangeOperator -> string): string {
    "acl_ttl_spec_t(oper=" + operText(oper) + ", ttl="
  }

  /** `acl_ttl_spec_t::to_string` as written: `ttl_` is a `uint8_t`, that is an
      `unsigned char`, and an output stream writes it as the one character
      with that code, not as a number. */
  function TtlSpecText(v: TtlSpecValue, operText: RangeOperator -> string): (s: string)
    ensures var p := TtlSpecTextPrefix(v.oper, operText);
            |s| == |p| + 2 && s[..|p|] == p && s[|p|] as int == v.ttl && s[|p| + 1] == ')'
  {
    TtlSpecTextPrefix(v.oper, operText) + [v.ttl as char] + ")"
  }

  /** `acl_ttl_spec_t::to_string` as evidently intended: the TTL in decimal,
      as the ports of a port specification are written. */
  function TtlSpecTextDecimal(v: TtlSpecValue, operText: RangeOperator -> string): (s: string)
    ensures var p := TtlSpecTextPrefix(v.oper, operText);
            |p| + 2 <= |s| && s[..|p|] == p && s[|s| - 1] == ')' &&
            AllDigits(s[|p|..|s| - 1])
  {
    var p := TtlSpecTextPrefix(v.oper, operText);
    var d := DecimalText(v.ttl);
    var s := p + d + ")";
    assert s[|p|..|s| - 1] == d;
    s
  }

  /** As written, a TTL of 64 comes out as `@` and the default TTL 0 as a NUL
      character, where the decimal form writes `64` and `0`. */
  lemma TtlSpecTextWritesCharacter(oper: RangeOperator, operText: RangeOperator -> string)
    ensures TtlSpecText(TtlSpecValue(oper, 64), operText)
            == TtlSpecTextPrefix(oper, operText) + "@)"
    ensures TtlSpecTextDecimal(TtlSpecValue(oper, 64), operText)
            == TtlSpecTextPrefix(oper, operText) + "64)"
    ensures TtlSpecText(TtlSpecValue(oper, 0), operText)
            == TtlSpecTextPrefix(oper, operText) + [0 as char] + ")"
    ensures TtlSpecText(TtlSpecValue(oper, 64), operText)
            != TtlSpecTextDecimal(TtlSpecValue(oper, 64), operText)
  {
    assert DecimalText(64) == DecimalText(6) + [DigitChar(4)];
    var p := TtlSpecTextPrefix(oper, operText);
    assert (p + "@)")[|p|] == '@';
    assert (p + "64)")[|p|] == '6';
  }

  /** The decimal form lets a reader recover the TTL: the digits between the
      prefix and the closing parenthesis denote it. */
  lemma TtlSpecTextDecimalRoundTrip(v: TtlSpecValue, operText: RangeOperator -> string)
    ensures var s := TtlSpecTextDecimal(v, operText);
            var p := TtlSpecTextPrefix(v.oper, operText);
            |p| < |s| && s[..|p|] == p && s[|s| - 1] == ')' &&
            AllDigits(s[|p|..|s| - 1]) && DecimalValue(s[|p|..|s| - 1]) == v.ttl
  {
    var p := TtlSpecTextPrefix(v.oper, operText);
    var d := DecimalText(v.ttl);
    var s := TtlSpecTextDecimal(v, operText);
    assert s == p + d + ")";
    assert s[|p|..|s| - 1] == d;
    DecimalRoundTrip(v.ttl);
  }
}
