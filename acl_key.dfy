/** `acl_key_t`: an ACL's name and type, with a comparator that orders by
    name alone and an equality that looks at both. */
module AclKeys {
  import opened AclTypes

  // ---------------------------------------------------------------------------
  // `std::string` ordering
  // ---------------------------------------------------------------------------

  /** `std::string`'s `<`: the first differing character decides, and a proper
      prefix is less than the longer string. */
  predicate LexLess(a: string, b: string)
    ensures a < b ==> LexLess(a, b)
    ensures LexLess(a, b) ==> b != [] && !(b <= a)
    decreases |a|
  {
    if b == [] then false
    else if a == [] then true
    else if a[0] != b[0] then a[0] < b[0]
    else LexLess(a[1..], b[1..])
  }

  lemma {:induction false} LexLessIrreflexive(a: string)
    ensures !LexLess(a, a)
  {
    if a != [] {
      LexLessIrreflexive(a[1..]);
    }
  }

  lemma {:induction false} LexLessTransitive(a: string, b: string, c: string)
    requires LexLess(a, b) && LexLess(b, c)
    ensures LexLess(a, c)
  {
    if a != [] && a[0] == b[0] && b[0] == c[0] {
      LexLessTransitive(a[1..], b[1..], c[1..]);
    }
  }

  /** Any two different strings are ordered one way or the other. */
  lemma {:induction false} LexLessTotal(a: string, b: string)
    requires a != b
    ensures LexLess(a, b) || LexLess(b, a)
  {
    if a != [] && b != [] && a[0] == b[0] {
      assert a == [a[0]] + a[1..] && b == [b[0]] + b[1..];
      LexLessTotal(a[1..], b[1..]);
    }
  }

  lemma LexLessAsymmetric(a: string, b: string)
    requires LexLess(a, b)
    ensures !LexLess(b, a)
  {
    if LexLess(b, a) {
      LexLessTransitive(a, b, a);
      LexLessIrreflexive(a);
    }
  }

  /** Strings with a common prefix agree on each of its positions. */
  lemma CommonPrefixAgrees(a: string, b: string, k: nat)
    requires k <= |a| && k <= |b| && a[..k] == b[..k]
    ensures forall i :: 0 <= i < k ==> a[i] == b[i]
  {
    forall i | 0 <= i < k
      ensures a[i] == b[i]
    {
      assert a[i] == a[..k][i];
    }
  }

  /** The reference definition of lexicographic order: `a` is a proper prefix of
      `b`, or the two agree on a common prefix and then `a` has the smaller
      character. Dafny's own `<` on sequences is only the first half. */
  ghost predicate LexLessRef(a: string, b: string) {
    a < b ||
    exists k :: 0 <= k < |a| && k < |b| && a[..k] == b[..k] && a[k] < b[k]
  }

  lemma {:induction false} LexLessMatchesReference(a: string, b: string)
    ensures LexLess(a, b) <==> LexLessRef(a, b)
  {
    if a == [] || b == [] {
    } else if a[0] != b[0] {
      if LexLess(a, b) {
        assert a[..0] == b[..0];
      }
      if LexLessRef(a, b) && !(a < b) {
        var k :| 0 <= k < |a| && k < |b| && a[..k] == b[..k] && a[k] < b[k];
        CommonPrefixAgrees(a, b, k);
      }
    } else {
      LexLessMatchesReference(a[1..], b[1..]);
      if LexLessRef(a[1..], b[1..]) {
        if a[1..] < b[1..] {
          assert a == [a[0]] + a[1..] && b == [b[0]] + b[1..];
        } else {
          var k :| 0 <= k < |a[1..]| && k < |b[1..]| && a[1..][..k] == b[1..][..k] && a[1..][k] < b[1..][k];
          assert a[..k + 1] == [a[0]] + a[1..][..k];
          assert b[..k + 1] == [b[0]] + b[1..][..k];
        }
      }
      if LexLessRef(a, b) {
        if a < b {
          assert a[1..] < b[1..];
        } else {
          var k :| 0 <= k < |a| && k < |b| && a[..k] == b[..k] && a[k] < b[k];
          assert k > 0;
          assert a[1..][..k - 1] == a[..k][1..];
          assert b[1..][..k - 1] == b[..k][1..];
          assert a[1..][k - 1] == a[k];
          assert LexLessRef(a[1..], b[1..]);
        }
      }
    }
  }

  // ---------------------------------------------------------------------------
  // The key
  // ---------------------------------------------------------------------------

  /** `acl_key_t`. The datatype constructor is `acl_key_t(acl_name, acl_type)`,
      and `DefaultAclKey` is the default-constructed key. */
  datatype AclKey = AclKey(aclName: string, aclType: AclType)

  /** `acl_key_t()`: empty name, `ACL_TYPE_NULL`. */
  const DefaultAclKey: AclKey := AclKey("", AclTypeNull)

  /** `acl_key_t::operator()(lhs, rhs)`, the comparator for ordered containers. */
  predicate KeyLess(lhs: AclKey, rhs: AclKey)
    ensures lhs.aclName == rhs.aclName ==> !KeyLess(lhs, rhs)
    ensures KeyLess(lhs, rhs) ==> !LexLess(rhs.aclName, lhs.aclName)
  {
    LexLessIrreflexive(lhs.aclName);
    if LexLess(lhs.aclName, rhs.aclName) then
      LexLessAsymmetric(lhs.aclName, rhs.aclName);
      true
    else false
  }

  /** `acl_key_t::operator==`: same name and same type. */
  function KeyEquals(a: AclKey, b: AclKey): (r: bool)
    ensures r <==> a == b
  {
    a.aclName == b.aclName && a.aclType == b.aclType
  }

  /** `acl_key_t::operator!=`. */
  function KeyNotEquals(a: AclKey, b: AclKey): (r: bool)
    ensures r <==> a != b
  {
    !KeyEquals(a, b)
  }

  /** The comparator never looks at the types. */
  lemma KeyLessIgnoresType(lhs: AclKey, rhs: AclKey, t: AclType, u: AclType)
    ensures KeyLess(lhs, rhs) == KeyLess(lhs.(aclType := t), rhs.(aclType := u))
  {
  }

  lemma KeyLessIrreflexive(k: AclKey)
    ensures !KeyLess(k, k)
  {
    LexLessIrreflexive(k.aclName);
  }

  lemma KeyLessTransitive(a: AclKey, b: AclKey, c: AclKey)
    requires KeyLess(a, b) && KeyLess(b, c)
    ensures KeyLess(a, c)
  {
    LexLessTransitive(a.aclName, b.aclName, c.aclName);
  }

  /** Two keys are unordered by the comparator exactly when their names are equal. */
  lemma KeyIncomparableIffSameName(a: AclKey, b: AclKey)
    ensures !KeyLess(a, b) && !KeyLess(b, a) <==> a.aclName == b.aclName
  {
    if a.aclName == b.aclName {
      LexLessIrreflexive(a.aclName);
    } else {
      LexLessTotal(a.aclName, b.aclName);
    }
  }

  /** The mismatch between the comparator and `==`: two keys with the same name
      and different types are each "not less" than the other, as if equivalent,
      yet `==` calls them different. */
  lemma KeyOrderDisagreesWithEquality(name: string, t: AclType, u: AclType)
    requires t != u
    ensures !KeyLess(AclKey(name, t), AclKey(name, u))
    ensures !KeyLess(AclKey(name, u), AclKey(name, t))
    ensures !KeyEquals(AclKey(name, t), AclKey(name, u))
  {
    LexLessIrreflexive(name);
  }
}
