# ACL match-specification values of the EOS SDK, modelled in Dafny

This project models the value layer behind the EOS SDK's ACL API, as
implemented inline in `eos/inline/types/acl.h`:

- `acl_port_spec_t`: a range operator and an ordered list of 16-bit ports.
  It has a copying constructor, `port_set` (prepend), `port_del` (remove every
  occurrence), `ports_is`, in-order equality, and `to_string`, which joins the
  ports with commas.
- the `get_acl_port_spec_*` builders, one per range operator;
- `acl_ttl_spec_t`: a range operator and an 8-bit TTL. One comment says that
  an ANY specification should carry TTL 0, but no code checks this.
- `acl_key_t`: an ACL's name and type. Its comparator orders by name only,
  while its `==` compares both the name and the type.
- the rule records `acl_rule_base_t`, `acl_rule_ip_t` and `acl_rule_eth_t`,
  with their defaults, their one-field setters and their field-by-field
  equality.

Each C++ class whose members are assigned in place is a Dafny `class` with the
same fields, whose setters carry `modifies this`. Its `Value()` function gives
the plain datatype value that a C++ copy of the object would hold
(`PortSpecValue`, `TtlSpecValue`, `RuleIpValue`, `RuleEthValue`). An IP rule
holds its TTL and port specifications as such values, because the C++ members
are held, passed and returned by value. The equality operators are functions
on those values; `a == b` in C++ is `XEquals(a.Value(), b.Value())` here.
`acl_key_t` has no setters, so it is a datatype: its two constructors
(eos/inline/types/acl.h:205-211) are the datatype constructor `AclKeys.AclKey`,
which stores a name and a type as given, and the constant `AclKeys.DefaultAclKey`,
the empty name with `ACL_TYPE_NULL`.

Files and modules:

- `acl_types.dfy` (`AclTypes`): the fixed-width integers, the enumerations and
  the address types.
- `decimal.dfy` (`Decimal`): the decimal numerals an output stream writes for
  unsigned integers, and reading them back.
- `port_spec.dfy` (`PortSpecs`): the port specification, remove-all, the comma
  join and its reader, and the builders.
- `ttl_spec.dfy` (`TtlSpecs`): the TTL specification and its text form.
- `acl_key.dfy` (`AclKeys`): lexicographic string order and the key.
- `acl_rules.dfy` (`AclRules`): the three rule records.

Modelling choices:

- `vlan_id_t`, `ip_addr_mask_t`, `eth_addr_t`, `acl_type_t`, `acl_action_t`,
  `acl_range_operator_t` and `ALL_ICMP` are declared in headers that are not
  part of this model.
  - `vlan_id_t` is its 16-bit value, and a default-constructed one is 0.
  - The two address types are uninterpreted values with equality and a default.
  - `acl_type_t` is the code of its enumerator, a natural number, and
    `ACL_TYPE_NULL` is taken to be code 0. The key only stores and compares it.
  - `ALL_ICMP` is given the value `0xFFFF`. No proof depends on that value.
- Streaming an enumeration is a foreign formatter. The two `to_string`s that
  use one take it as a parameter, `operText: RangeOperator -> string`.
- `std::string`'s `<` is written out as `LexLess`, which compares characters by
  their code. Dafny's own `<` on sequences only means "proper prefix".
- The getters (`oper()`, `ports()`, `vlan()`, `acl_name()`, ...) return a field
  of the object: here that is reading the field or the datatype member.

## Model

| member | source | states |
|---|---|---|
| `Decimal.DecimalText` | eos/inline/types/acl.h:131-138 | a port written to the stream is a non-empty run of digits with no comma, and has a leading zero only for 0 |
| `Decimal.DecimalRoundTrip` | eos/inline/types/acl.h:131-138 | reading back the numeral written for a number gives that number |
| `Decimal.DecimalTextInjective` | eos/inline/types/acl.h:131-138 | different port numbers are written differently |
| `PortSpecs.RemoveAll` | eos/inline/types/acl.h:108-111 | after removal the port is absent, and every other port keeps its number of occurrences |
| `PortSpecs.RemoveAllIsSubsequence` | eos/inline/types/acl.h:108-111 | the remaining ports form a subsequence of the old list: their relative order is kept |
| `PortSpecs.RemoveAllAbsent` | eos/inline/types/acl.h:108-111 | removing a port that is not in the list leaves the list unchanged |
| `PortSpecs.RemoveAllIdempotent` | eos/inline/types/acl.h:108-111 | a second `port_del` of the same port changes nothing |
| `PortSpecs.RemoveAllConcat` | eos/inline/types/acl.h:108-111 | removal from a concatenation is the concatenation of the removals, so order is kept across any split |
| `PortSpecs.PortDelUndoesPortSet` | eos/inline/types/acl.h:103-111 | `port_del(p)` after `port_set(p)` gives back the old list when `p` was not in it |
| `PortSpecs.PortSpecEquals` | eos/inline/types/acl.h:113-117 | `==` holds exactly when the operators are equal and the lists have the same length and the same port at every position |
| `PortSpecs.PortSpecNotEquals` | eos/inline/types/acl.h:119-122 | `!=` holds exactly when the two values differ |
| `PortSpecs.PortSpecEqualsIsOrderSensitive` | eos/inline/types/acl.h:113-117 | `[x,y]` and `[y,x]` with `x != y` are unequal, although they hold the same ports |
| `PortSpecs.JoinPorts` | eos/inline/types/acl.h:129-139 | the ports text is empty exactly when there are no ports |
| `PortSpecs.JoinPortsSnoc` | eos/inline/types/acl.h:130-138 | each further port adds its numeral, with a comma before it unless it is the first port |
| `PortSpecs.JoinPortsEdgesAreDigits` | eos/inline/types/acl.h:130-138 | a non-empty ports text starts and ends with a digit, so there is no leading or trailing comma |
| `PortSpecs.JoinPortsCommaCount` | eos/inline/types/acl.h:130-138 | `n` ports are written with exactly `n - 1` commas |
| `PortSpecs.JoinPortsRoundTrip` | eos/inline/types/acl.h:129-139 | splitting the ports text at its commas and reading each numeral gives back the port list, in order |
| `PortSpecs.JoinPortsInjective` | eos/inline/types/acl.h:129-139 | two port lists are written the same only when they are the same list |
| `PortSpecs.PortSpecText` | eos/inline/types/acl.h:124-142 | the text ends with `ports='<join>')`, and the comma-separated numerals between the quotes read back as exactly the port list |
| `PortSpecs.PortSpecTextEmpty` | eos/inline/types/acl.h:124-142 | an empty port list is written as `ports=''` |
| `PortSpecs.GetAclPortSpecEq` | eos/inline/types/acl.h:152-156 | gives operator EQ and the one-port list `[port]` |
| `PortSpecs.GetAclPortSpecEqList` | eos/inline/types/acl.h:159-162 | gives operator EQ and the list exactly as passed |
| `PortSpecs.GetAclPortSpecNeq` | eos/inline/types/acl.h:165-169 | gives operator NEQ and the one-port list `[port]` |
| `PortSpecs.GetAclPortSpecNeqList` | eos/inline/types/acl.h:172-175 | gives operator NEQ and the list exactly as passed |
| `PortSpecs.GetAclPortSpecBetween` | eos/inline/types/acl.h:178-182 | gives operator BETWEEN and `[low, high]` in that order |
| `PortSpecs.GetAclPortSpecGt` | eos/inline/types/acl.h:185-189 | gives operator GT and `[port]` |
| `PortSpecs.GetAclPortSpecLt` | eos/inline/types/acl.h:192-196 | gives operator LT and `[port]` |
| `PortSpecs.GetAclPortSpecAny` | eos/inline/types/acl.h:199-202 | gives the default specification: operator ANY and no ports |
| `PortSpecs.BetweenKeepsReversedBounds` | eos/inline/types/acl.h:178-182 | a BETWEEN with `low > high` is built as given; nothing checks `low <= high` |
| `PortSpecs.PortSetLeavesBuilderShape` | eos/inline/types/acl.h:103-106 | prepending to a GT or LT specification gives two ports, a shape no builder produces; the mutators do not keep the shapes |
| `PortSpecs.AclPortSpec.Default` | eos/inline/types/acl.h:69-71 | the default specification is operator ANY with no ports |
| `PortSpecs.AclPortSpec.constructor` | eos/inline/types/acl.h:73-81 | the copy loop stores the operator and a list equal to the input: same ports, same order |
| `PortSpecs.AclPortSpec.OperIs` | eos/inline/types/acl.h:88-91 | replaces the operator and keeps the list |
| `PortSpecs.AclPortSpec.PortsIs` | eos/inline/types/acl.h:98-101 | replaces the whole list and keeps the operator |
| `PortSpecs.AclPortSpec.PortSet` | eos/inline/types/acl.h:103-106 | the new list is `[port] + old list`, and the operator is unchanged |
| `PortSpecs.AclPortSpec.PortDel` | eos/inline/types/acl.h:108-111 | the port no longer occurs; other ports keep their counts and their relative order; the operator is unchanged |
| `PortSpecs.AclPortSpec.ToString` | eos/inline/types/acl.h:124-142 | the `first_ports` loop writes `acl_port_spec_t(oper=<oper>, ports='<ports joined by commas>')` |
| `TtlSpecs.TtlSpecEquals` | eos/inline/types/acl.h:40-44 | `==` holds exactly when the operator and the TTL are both equal |
| `TtlSpecs.TtlSpecNotEquals` | eos/inline/types/acl.h:46-49 | `!=` holds exactly when the two values differ |
| `TtlSpecs.AclTtlSpec.Default` | eos/inline/types/acl.h:10-12 | the default is `(ANY, 0)`, which keeps the ANY-means-TTL-0 convention |
| `TtlSpecs.AclTtlSpec.constructor` | eos/inline/types/acl.h:14-18 | stores operator and TTL as given, for every pair, including ANY with a non-zero TTL |
| `TtlSpecs.AclTtlSpec.OperIs` | eos/inline/types/acl.h:25-28 | replaces the operator and keeps the TTL |
| `TtlSpecs.AclTtlSpec.TtlIs` | eos/inline/types/acl.h:35-38 | replaces the TTL and keeps the operator |
| `TtlSpecs.OperIsCanBreakAnyConvention` | eos/inline/types/acl.h:14-28 | setting the operator to ANY on a specification with a non-zero TTL breaks the ANY convention; nothing enforces it |
| `TtlSpecs.TtlSpecText` | eos/inline/types/acl.h:51-59 | `to_string` as written: the prefix `acl_ttl_spec_t(oper=<oper>, ttl=`, then exactly one character whose code is the TTL, then `)` |
| `TtlSpecs.TtlSpecTextDecimal` | eos/inline/types/acl.h:51-59 | `to_string` with the TTL in decimal: the same prefix, then a non-empty run of digits, then `)` |
| `TtlSpecs.TtlSpecTextWritesCharacter` | eos/inline/types/acl.h:51-59 | as written, TTL 64 is written as `@` and TTL 0 as a NUL character, not in decimal |
| `TtlSpecs.TtlSpecTextDecimalRoundTrip` | eos/inline/types/acl.h:51-59 | with the TTL written in decimal, the text between `ttl=` and `)` reads back as the TTL |
| `AclKeys.LexLess` | eos/inline/types/acl.h:223-226 | `std::string`'s `<`, used on the names: a proper prefix is less than the longer string, and a string is never less than one of its own prefixes |
| `AclKeys.LexLessIrreflexive` | eos/inline/types/acl.h:223-226 | no name is less than itself under `std::string`'s `<` |
| `AclKeys.LexLessTransitive` | eos/inline/types/acl.h:223-226 | the name order is transitive |
| `AclKeys.LexLessTotal` | eos/inline/types/acl.h:223-226 | of two different names, one is less than the other |
| `AclKeys.LexLessAsymmetric` | eos/inline/types/acl.h:223-226 | two names are never each less than the other |
| `AclKeys.LexLessMatchesReference` | eos/inline/types/acl.h:223-226 | the recursive string order equals the reference definition: a proper prefix, or a smaller character after a common prefix |
| `AclKeys.KeyLess` | eos/inline/types/acl.h:223-226 | the comparator, `lhs.acl_name_ < rhs.acl_name_`: keys with the same name are never less, and when `lhs` is less `rhs` is not less in the name order |
| `AclKeys.KeyEquals` | eos/inline/types/acl.h:228-232 | key `==` holds exactly when both the name and the type are equal |
| `AclKeys.KeyNotEquals` | eos/inline/types/acl.h:234-237 | key `!=` holds exactly when the keys differ |
| `AclKeys.KeyLessIgnoresType` | eos/inline/types/acl.h:223-226 | replacing either key's type never changes the comparator's answer |
| `AclKeys.KeyLessIrreflexive` | eos/inline/types/acl.h:223-226 | the comparator is irreflexive |
| `AclKeys.KeyLessTransitive` | eos/inline/types/acl.h:223-226 | the comparator is transitive |
| `AclKeys.KeyIncomparableIffSameName` | eos/inline/types/acl.h:223-226 | two keys are unordered by the comparator exactly when their names are equal |
| `AclKeys.KeyOrderDisagreesWithEquality` | eos/inline/types/acl.h:223-232 | keys with the same name and different types are neither less than the other, yet they are not `==` |
| `AclRules.AclRuleBase.constructor` | eos/inline/types/acl.h:257-259 | a new rule base is `(PERMIT, log false, tracked false)` |
| `AclRules.AclRuleBase.ActionIs` | eos/inline/types/acl.h:266-269 | sets the action and keeps both flags |
| `AclRules.AclRuleBase.LogIs` | eos/inline/types/acl.h:276-279 | sets the log flag and keeps the other fields |
| `AclRules.AclRuleBase.TrackedIs` | eos/inline/types/acl.h:286-289 | sets the tracked flag and keeps the other fields |
| `AclRules.RuleIpEquals` | eos/inline/types/acl.h:498-518 | the field-by-field `==`, with the nested TTL and port-spec `==`, holds exactly when the two rules are identical: no field that the operator compares is left out |
| `AclRules.RuleIpNotEquals` | eos/inline/types/acl.h:520-523 | `!=` holds exactly when the rules differ |
| `AclRules.RuleIpEqualsSeesPortOrder` | eos/inline/types/acl.h:498-518 | two IP rules whose source ports list the same two ports in opposite orders are unequal |
| `AclRules.AclRuleIp.constructor` | eos/inline/types/acl.h:311-316 | VLAN and inner VLAN masks default to `0xFFF`; ICMP type and code default to `ALL_ICMP`; TTL and ports take their defaults; every other field is zero or false |
| `AclRules.AclRuleIp.VlanIs` | eos/inline/types/acl.h:323-326 | the rule becomes the old rule with only `vlan` replaced |
| `AclRules.AclRuleIp.VlanMaskIs` | eos/inline/types/acl.h:333-336 | the rule becomes the old rule with only `vlan_mask` replaced |
| `AclRules.AclRuleIp.InnerVlanIs` | eos/inline/types/acl.h:343-346 | the rule becomes the old rule with only `inner_vlan` replaced |
| `AclRules.AclRuleIp.InnerVlanMaskIs` | eos/inline/types/acl.h:353-356 | the rule becomes the old rule with only `inner_vlan_mask` replaced |
| `AclRules.AclRuleIp.IpProtocolIs` | eos/inline/types/acl.h:363-366 | the rule becomes the old rule with only `ip_protocol` replaced |
| `AclRules.AclRuleIp.TtlIs` | eos/inline/types/acl.h:373-376 | the rule becomes the old rule with only `ttl` replaced, by a copy of the given specification |
| `AclRules.AclRuleIp.SourceAddrIs` | eos/inline/types/acl.h:383-386 | the rule becomes the old rule with only `source_addr` replaced |
| `AclRules.AclRuleIp.DestinationAddrIs` | eos/inline/types/acl.h:393-396 | the rule becomes the old rule with only `destination_addr` replaced |
| `AclRules.AclRuleIp.SourcePortIs` | eos/inline/types/acl.h:403-406 | the rule becomes the old rule with only `source_port` replaced, by a copy of the given specification |
| `AclRules.AclRuleIp.DestinationPortIs` | eos/inline/types/acl.h:413-416 | the rule becomes the old rule with only `destination_port` replaced, by a copy |
| `AclRules.AclRuleIp.TcpFlagsIs` | eos/inline/types/acl.h:423-426 | the rule becomes the old rule with only `tcp_flags` replaced |
| `AclRules.AclRuleIp.EstablishedIs` | eos/inline/types/acl.h:433-436 | the rule becomes the old rule with only `established` replaced |
| `AclRules.AclRuleIp.IcmpTypeIs` | eos/inline/types/acl.h:443-446 | the rule becomes the old rule with only `icmp_type` replaced |
| `AclRules.AclRuleIp.IcmpCodeIs` | eos/inline/types/acl.h:453-456 | the rule becomes the old rule with only `icmp_code` replaced |
| `AclRules.AclRuleIp.PriorityValueIs` | eos/inline/types/acl.h:463-466 | the rule becomes the old rule with only `priority_value` replaced |
| `AclRules.AclRuleIp.PriorityMaskIs` | eos/inline/types/acl.h:473-476 | the rule becomes the old rule with only `priority_mask` replaced |
| `AclRules.AclRuleIp.MatchFragmentsIs` | eos/inline/types/acl.h:483-486 | the rule becomes the old rule with only `match_fragments` replaced |
| `AclRules.AclRuleIp.MatchIpPriorityIs` | eos/inline/types/acl.h:493-496 | the rule becomes the old rule with only `match_ip_priority` replaced |
| `AclRules.RuleEthEquals` | eos/inline/types/acl.h:644-654 | the field-by-field `==` holds exactly when the two rules are identical: no field that the operator compares is left out |
| `AclRules.RuleEthNotEquals` | eos/inline/types/acl.h:656-659 | `!=` holds exactly when the rules differ |
| `AclRules.AclRuleEth.constructor` | eos/inline/types/acl.h:559-562 | VLAN and inner VLAN masks default to `0xFFF`; VLANs, addresses and masks take their defaults |
| `AclRules.AclRuleEth.VlanIs` | eos/inline/types/acl.h:569-572 | the rule becomes the old rule with only `vlan` replaced |
| `AclRules.AclRuleEth.VlanMaskIs` | eos/inline/types/acl.h:579-582 | the rule becomes the old rule with only `vlan_mask` replaced |
| `AclRules.AclRuleEth.InnerVlanIs` | eos/inline/types/acl.h:589-592 | the rule becomes the old rule with only `inner_vlan` replaced |
| `AclRules.AclRuleEth.InnerVlanMaskIs` | eos/inline/types/acl.h:599-602 | the rule becomes the old rule with only `inner_vlan_mask` replaced |
| `AclRules.AclRuleEth.SourceAddrIs` | eos/inline/types/acl.h:609-612 | the rule becomes the old rule with only `source_addr` replaced |
| `AclRules.AclRuleEth.DestinationAddrIs` | eos/inline/types/acl.h:619-622 | the rule becomes the old rule with only `destination_addr` replaced |
| `AclRules.AclRuleEth.SourceMaskIs` | eos/inline/types/acl.h:629-632 | the rule becomes the old rule with only `source_mask` replaced |
| `AclRules.AclRuleEth.DestinationMaskIs` | eos/inline/types/acl.h:639-642 | the rule becomes the old rule with only `destination_mask` replaced |

## Left out

- The `operator<<` overloads (for example eos/inline/types/acl.h:61-65 and
  144-148) only pass `to_string` to a stream.
- `acl_key_t::to_string` and `acl_rule_base_t::to_string` are left out. The
  first writes the name verbatim between quotes, and the second writes `log_`
  and `tracked_` as `1` or `0`. Each also writes one field through the
  formatter of an enumeration (`acl_type_t`, `acl_action_t`) that is not part
  of this model.
- `to_string` of `acl_rule_ip_t` and `acl_rule_eth_t` is left out. It depends
  on the formatters of `vlan_id_t`, `ip_addr_mask_t` and `eth_addr_t`, and
  those are not part of this model. It writes the fields in their declared
  order, which is also the field order of `RuleIpValue` and `RuleEthValue`.
- Streaming of `acl_range_operator_t` is not modelled. It is the `operText`
  parameter of `PortSpecs.PortSpecText` and `TtlSpecs.TtlSpecText`.
- `ip_addr_mask_t`, `eth_addr_t` and their `==` and `to_string` are
  uninterpreted values with structural equality here.
- The declarations of these classes are not part of this model. If
  `acl_rule_ip_t` and `acl_rule_eth_t` derive from `acl_rule_base_t`, their
  `==` ignores the action and the two flags. `RuleIpValue` and `RuleEthValue`
  hold only the fields those `==` compare.
- `subintf_t` in eos/types/subintf.h is declared there; its constructors,
  `==`, `hash` and `to_string` are defined in eos/inline/types/subintf.h,
  which is not part of this model.
- Hashing, matching packets against these specifications and installing ACLs
  happen in the external agent, which is not part of this model.

## Findings

| source | as written | input that shows it | evidently intended | confidence | as-written member | corrected member |
|---|---|---|---|---|---|---|
| eos/inline/types/acl.h:56 | `ss << ", ttl=" << ttl_` streams a `uint8_t`, which is an `unsigned char`, so the TTL is written as the one character with that code (`TtlSpecs.TtlSpecTextWritesCharacter`) | TTL 64 gives `ttl=@)`; the default TTL 0 writes a NUL character. `acl_rule_ip_t::to_string` streams its `uint8_t` fields `ip_protocol_` (eos/inline/types/acl.h:533), `priority_value_` and `priority_mask_` (eos/inline/types/acl.h:543-544) the same way; that `to_string` is not part of this model | the TTL in decimal, as the ports of `acl_port_spec_t::to_string` are written; then the TTL can be read back from the text (`TtlSpecs.TtlSpecTextDecimalRoundTrip`) | medium, not executed | `TtlSpecs.TtlSpecText` | `TtlSpecs.TtlSpecTextDecimal` |
