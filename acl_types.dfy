/** Scalar types and enumerations that the ACL match specifications are built from.

    The C++ fixed-width integers are subset types of `int`, so that a value of
    one of them is an ordinary integer in proofs. The enumerations and the
    address types are declared in headers that are not part of this model:
    they appear here only with the values and the equality the ACL types use. */
module AclTypes {

  /** C++ `uint8_t`. */
  type uint8 = x: int | 0 <= x < 0x100

  /** C++ `uint16_t`. */
  type uint16 = x: int | 0 <= x < 0x1_0000

  /** `vlan_id_t`, taken to be its 16-bit value; a default-constructed one is 0. */
  type VlanId = uint16

  /** `acl_range_operator_t`: how a TTL or port specification compares. */
  datatype RangeOperator =
    | RangeAny
    | RangeEq
    | RangeNeq
    | RangeBetween
    | RangeGt
    | RangeLt

  /** `acl_type_t`, known by the code of its enumerator. */
  type AclType = nat

  /** `ACL_TYPE_NULL`, the type of a default-constructed key, taken as the first
      enumerator. */
  const AclTypeNull: AclType := 0

  /** `acl_action_t`. */
  datatype AclAction = Permit | Deny

  /** `ip_addr_mask_t`: an uninterpreted value with equality, known by its representation. */
  datatype IpAddrMask = IpAddrMask(repr: seq<bv8>)

  /** The default-constructed `ip_addr_mask_t`. */
  const DefaultIpAddrMask: IpAddrMask := IpAddrMask([])

  /** `eth_addr_t`: an uninterpreted value with equality, known by its representation. */
  datatype EthAddr = EthAddr(repr: seq<bv8>)

  /** The default-constructed `eth_addr_t`. */
  const DefaultEthAddr: EthAddr := EthAddr([])

  /** `ALL_ICMP`, the ICMP type and code that match every ICMP message. */
  const AllIcmp: uint16 := 0xFFFF

  /** The VLAN mask a rule starts with: all 12 VLAN bits take part in the match. */
  const FullVlanMask: VlanId := 0xFFF
}
