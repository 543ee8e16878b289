/** The rule records `acl_rule_base_t`, `acl_rule_ip_t` and `acl_rule_eth_t`:
    their defaults, their one-field setters and their field-by-field equality. */
module AclRules {
  import opened AclTypes
  import opened TtlSpecs
  import opened PortSpecs

  // ---------------------------------------------------------------------------
  // `acl_rule_base_t`
  // ---------------------------------------------------------------------------

  /** `acl_rule_base_t`: the action and the two flags every rule carries. */
  class AclRuleBase {
    var action: AclAction
    var log: bool
    var tracked: bool

    /** `acl_rule_base_t()`: permit, no logging, not tracked. */
    constructor ()
      ensures action == Permit && !log && !tracked
    {
      action := Permit;
      log := false;
      tracked := false;
    }

    /** `action_is`. */
    method ActionIs(action: AclAction)
      modifies this
      ensures this.action == action && log == old(log) && tracked == old(tracked)
    {
      this.action := action;
    }

    /** `log_is`. */
    method LogIs(log: bool)
      modifies this
      ensures this.log == log && action == old(action) && tracked == old(tracked)
    {
      this.log := log;
    }

    /** `tracked_is`. */
    method TrackedIs(tracked: bool)
      modifies this
      ensures this.tracked == tracked && action == old(action) && log == old(log)
    {
      this.tracked := tracked;
    }
  }

  // ---------------------------------------------------------------------------
  // `acl_rule_ip_t`
  // ---------------------------------------------------------------------------

  /** The value of an `acl_rule_ip_t`, its fields in declaration order. The TTL
      and port specifications are held by value, as the C++ members are. */
  datatype RuleIpValue = RuleIpValue(
    vlan: VlanId,
    vlanMask: VlanId,
    innerVlan: VlanId,
    innerVlanMask: VlanId,
    ipProtocol: uint8,
    ttl: TtlSpecValue,
    sourceAddr: IpAddrMask,
    destinationAddr: IpAddrMask,
    sourcePort: PortSpecValue,
    destinationPort: PortSpecValue,
    tcpFlags: uint16,
    established: bool,
    icmpType: uint16,
    icmpCode: uint16,
    priorityValue: uint8,
    priorityMask: uint8,
    matchFragments: bool,
    matchIpPriority: bool)

  /** `acl_rule_ip_t::operator==`: every field, the TTL and port
      specifications compared with their own `==`. Leaving any field out of the
      comparison would break the postcondition. */
  function RuleIpEquals(a: RuleIpValue, b: RuleIpValue): (r: bool)
    ensures r <==> a == b
  {
    a.vlan == b.vlan &&
    a.vlanMask == b.vlanMask &&
    a.innerVlan == b.innerVlan &&
    a.innerVlanMask == b.innerVlanMask &&
    a.ipProtocol == b.ipProtocol &&
    TtlSpecEquals(a.ttl, b.ttl) &&
    a.sourceAddr == b.sourceAddr &&
    a.destinationAddr == b.destinationAddr &&
    PortSpecEquals(a.sourcePort, b.sourcePort) &&
    PortSpecEquals(a.destinationPort, b.destinationPort) &&
    a.tcpFlags == b.tcpFlags &&
    a.established == b.established &&
    a.icmpType == b.icmpType &&
    a.icmpCode == b.icmpCode &&
    a.priorityValue == b.priorityValue &&
    a.priorityMask == b.priorityMask &&
    a.matchFragments == b.matchFragments &&
    a.matchIpPriority == b.matchIpPriority
  }

  /** `acl_rule_ip_t::operator!=`. */
  function RuleIpNotEquals(a: RuleIpValue, b: RuleIpValue): (r: bool)
    ensures r <==> a != b
  {
    !RuleIpEquals(a, b)
  }

  /** Two IP rules whose source ports list the same ports in different orders are unequal. */
  lemma RuleIpEqualsSeesPortOrder(r: RuleIpValue, x: uint16, y: uint16)
    requires x != y
    ensures !RuleIpEquals(r.(sourcePort := PortSpecValue(r.sourcePort.oper, [x, y])),
                          r.(sourcePort := PortSpecValue(r.sourcePort.oper, [y, x])))
  {
    PortSpecEqualsIsOrderSensitive(r.sourcePort.oper, x, y);
  }

  /** `acl_rule_ip_t`, the rule passed to the IP variants of `acl_add_rule()`. */
  class AclRuleIp {
    var vlan: VlanId
    var vlanMask: VlanId
    var innerVlan: VlanId
    var innerVlanMask: VlanId
    var ipProtocol: uint8
    var ttl: TtlSpecValue
    var sourceAddr: IpAddrMask
    var destinationAddr: IpAddrMask
    var sourcePort: PortSpecValue
    var destinationPort: PortSpecValue
    var tcpFlags: uint16
    var established: bool
    var icmpType: uint16
    var icmpCode: uint16
    var priorityValue: uint8
    var priorityMask: uint8
    var matchFragments: bool
    var matchIpPriority: bool

    /** The value a copy of this rule holds. */
    function Value(): RuleIpValue
      reads this
    {
      RuleIpValue(vlan, vlanMask, innerVlan, innerVlanMask, ipProtocol, ttl,
                  sourceAddr, destinationAddr, sourcePort, destinationPort,
                  tcpFlags, established, icmpType, icmpCode,
                  priorityValue, priorityMask, matchFragments, matchIpPriority)
    }

    /** `acl_rule_ip_t()`: both VLAN masks full, ICMP type and code `ALL_ICMP`,
        the TTL and port specifications at their defaults, everything else zero. */
    constructor ()
      ensures vlan == 0 && vlanMask == FullVlanMask
      ensures innerVlan == 0 && innerVlanMask == FullVlanMask
      ensures ipProtocol == 0 && ttl == DefaultTtlSpec
      ensures sourceAddr == DefaultIpAddrMask && destinationAddr == DefaultIpAddrMask
      ensures sourcePort == DefaultPortSpec && destinationPort == DefaultPortSpec
      ensures tcpFlags == 0 && !established
      ensures icmpType == AllIcmp && icmpCode == AllIcmp
      ensures priorityValue == 0 && priorityMask == 0
      ensures !matchFragments && !matchIpPriority
    {
      vlan := 0;
      vlanMask := FullVlanMask;
      innerVlan := 0;
      innerVlanMask := FullVlanMask;
      ipProtocol := 0;
      ttl := DefaultTtlSpec;
      sourceAddr := DefaultIpAddrMask;
      destinationAddr := DefaultIpAddrMask;
      sourcePort := DefaultPortSpec;
      destinationPort := DefaultPortSpec;
      tcpFlags := 0;
      established := false;
      icmpType := AllIcmp;
      icmpCode := AllIcmp;
      priorityValue := 0;
      priorityMask := 0;
      matchFragments := false;
      matchIpPriority := false;
    }

    /** `vlan_is`. */
    method VlanIs(vlan: VlanId)
      modifies this
      ensures Value() == old(Value()).(vlan := vlan)
    {
      this.vlan := vlan;
    }

    /** `vlan_mask_is`. */
    method VlanMaskIs(vlanMask: VlanId)
      modifies this
      ensures Value() == old(Value()).(vlanMask := vlanMask)
    {
      this.vlanMask := vlanMask;
    }

    /** `inner_vlan_is`. */
    method InnerVlanIs(innerVlan: VlanId)
      modifies this
      ensures Value() == old(Value()).(innerVlan := innerVlan)
    {
      this.innerVlan := innerVlan;
    }

    /** `inner_vlan_mask_is`. */
    method InnerVlanMaskIs(innerVlanMask: VlanId)
      modifies this
      ensures Value() == old(Value()).(innerVlanMask := innerVlanMask)
    {
      this.innerVlanMask := innerVlanMask;
    }

    /** `ip_protocol_is`. */
    method IpProtocolIs(ipProtocol: uint8)
      modifies this
      ensures Value() == old(Value()).(ipProtocol := ipProtocol)
    {
      this.ipProtocol := ipProtocol;
    }

    /** `ttl_is`: stores a copy of the TTL specification. */
    method TtlIs(ttl: TtlSpecValue)
      modifies this
      ensures Value() == old(Value()).(ttl := ttl)
    {
      this.ttl := ttl;
    }

    /** `source_addr_is`. */
    method SourceAddrIs(sourceAddr: IpAddrMask)
      modifies this
      ensures Value() == old(Value()).(sourceAddr := sourceAddr)
    {
      this.sourceAddr := sourceAddr;
    }

    /** `destination_addr_is`. */
    method DestinationAddrIs(destinationAddr: IpAddrMask)
      modifies this
      ensures Value() == old(Value()).(destinationAddr := destinationAddr)
    {
      this.destinationAddr := destinationAddr;
    }

    /** `source_port_is`: stores a copy of the port specification. */
    method SourcePortIs(sourcePort: PortSpecValue)
      modifies this
      ensures Value() == old(Value()).(sourcePort := sourcePort)
    {
      this.sourcePort := sourcePort;
    }

    /** `destination_port_is`: stores a copy of the port specification. */
    method DestinationPortIs(destinationPort: PortSpecValue)
      modifies this
      ensures Value() == old(Value()).(destinationPort := destinationPort)
    {
      this.destinationPort := destinationPort;
    }

    /** `tcp_flags_is`. */
    method TcpFlagsIs(tcpFlags: uint16)
      modifies this
      ensures Value() == old(Value()).(tcpFlags := tcpFlags)
    {
      this.tcpFlags := tcpFlags;
    }

    /** `established_is`. */
    method EstablishedIs(established: bool)
      modifies this
      ensures Value() == old(Value()).(established := established)
    {
      this.established := established;
    }

    /** `icmp_type_is`. */
    method IcmpTypeIs(icmpType: uint16)
      modifies this
      ensures Value() == old(Value()).(icmpType := icmpType)
    {
      this.icmpType := icmpType;
    }

    /** `icmp_code_is`. */
    method IcmpCodeIs(icmpCode: uint16)
      modifies this
      ensures Value() == old(Value()).(icmpCode := icmpCode)
    {
      this.icmpCode := icmpCode;
    }

    /** `priority_value_is`. */
    method PriorityValueIs(priorityValue: uint8)
      modifies this
      ensures Value() == old(Value()).(priorityValue := priorityValue)
    {
      this.priorityValue := priorityValue;
    }

    /** `priority_mask_is`. */
    method PriorityMaskIs(priorityMask: uint8)
      modifies this
      ensures Value() == old(Value()).(priorityMask := priorityMask)
    {
      this.priorityMask := priorityMask;
    }

    /** `match_fragments_is`. */
    method MatchFragmentsIs(matchFragments: bool)
      modifies this
      ensures Value() == old(Value()).(matchFragments := matchFragments)
    {
      this.matchFragments := matchFragments;
    }

    /** `match_ip_priority_is`. */
    method MatchIpPriorityIs(matchIpPriority: bool)
      modifies this
      ensures Value() == old(Value()).(matchIpPriority := matchIpPriority)
    {
      this.matchIpPriority := matchIpPriority;
    }
  }

  // ---------------------------------------------------------------------------
  // `acl_rule_eth_t`
  // ---------------------------------------------------------------------------

  /** The value of an `acl_rule_eth_t`, its fields in declaration order. */
  datatype RuleEthValue = RuleEthValue(
    vlan: VlanId,
    vlanMask: VlanId,
    innerVlan: VlanId,
    innerVlanMask: VlanId,
    sourceAddr: EthAddr,
    destinationAddr: EthAddr,
    sourceMask: EthAddr,
    destinationMask: EthAddr)

  /** `acl_rule_eth_t::operator==`: every field. */
  function RuleEthEquals(a: RuleEthValue, b: RuleEthValue): (r: bool)
    ensures r <==> a == b
  {
    a.vlan == b.vlan &&
    a.vlanMask == b.vlanMask &&
    a.innerVlan == b.innerVlan &&
    a.innerVlanMask == b.innerVlanMask &&
    a.sourceAddr == b.sourceAddr &&
    a.destinationAddr == b.destinationAddr &&
    a.sourceMask == b.sourceMask &&
    a.destinationMask == b.destinationMask
  }

  /** `acl_rule_eth_t::operator!=`. */
  function RuleEthNotEquals(a: RuleEthValue, b: RuleEthValue): (r: bool)
    ensures r <==> a != b
  {
    !RuleEthEquals(a, b)
  }

  /** `acl_rule_eth_t`, the rule passed to the Ethernet variants of `acl_add_rule()`. */
  class AclRuleEth {
    var vlan: VlanId
    var vlanMask: VlanId
    var innerVlan: VlanId
    var innerVlanMask: VlanId
    var sourceAddr: EthAddr
    var destinationAddr: EthAddr
    var sourceMask: EthAddr
    var destinationMask: EthAddr

    /** The value a copy of this rule holds. */
    function Value(): RuleEthValue
      reads this
    {
      RuleEthValue(vlan, vlanMask, innerVlan, innerVlanMask,
                   sourceAddr, destinationAddr, sourceMask, destinationMask)
    }

    /** `acl_rule_eth_t()`: both VLAN masks full, everything else at its default. */
    constructor ()
      ensures vlan == 0 && vlanMask == FullVlanMask
      ensures innerVlan == 0 && innerVlanMask == FullVlanMask
      ensures sourceAddr == DefaultEthAddr && destinationAddr == DefaultEthAddr
      ensures sourceMask == DefaultEthAddr && destinationMask == DefaultEthAddr
    {
      vlan := 0;
      vlanMask := FullVlanMask;
      innerVlan := 0;
      innerVlanMask := FullVlanMask;
      sourceAddr := DefaultEthAddr;
      destinationAddr := DefaultEthAddr;
      sourceMask := DefaultEthAddr;
      destinationMask := DefaultEthAddr;
    }

    /** `vlan_is`. */
    method VlanIs(vlan: VlanId)
      modifies this
      ensures Value() == old(Value()).(vlan := vlan)
    {
      this.vlan := vlan;
    }

    /** `vlan_mask_is`. */
    method VlanMaskIs(vlanMask: VlanId)
      modifies this
      ensures Value() == old(Value()).(vlanMask := vlanMask)
    {
      this.vlanMask := vlanMask;
    }

    /** `inner_vlan_is`. */
    method InnerVlanIs(innerVlan: VlanId)
      modifies this
      ensures Value() == old(Value()).(innerVlan := innerVlan)
    {
      this.innerVlan := innerVlan;
    }

    /** `inner_vlan_mask_is`. */
    method InnerVlanMaskIs(innerVlanMask: VlanId)
      modifies this
      ensures Value() == old(Value()).(innerVlanMask := innerVlanMask)
    {
      this.innerVlanMask := innerVlanMask;
    }

    /** `source_addr_is`. */
    method SourceAddrIs(sourceAddr: EthAddr)
      modifies this
      ensures Value() == old(Value()).(sourceAddr := sourceAddr)
    {
      this.sourceAddr := sourceAddr;
    }

    /** `destination_addr_is`. */
    method DestinationAddrIs(destinationAddr: EthAddr)
      modifies this
      ensures Value() == old(Value()).(destinationAddr := destinationAddr)
    {
      this.destinationAddr := destinationAddr;
    }

    /** `source_mask_is`. */
    method SourceMaskIs(sourceMask: EthAddr)
      modifies this
      ensures Value() == old(Value()).(sourceMask := sourceMask)
    {
      this.sourceMask := sourceMask;
    }

    /** `destination_mask_is`. */
    method DestinationMaskIs(destinationMask: EthAddr)
      modifies this
      ensures Value() == old(Value()).(destinationMask := destinationMask)
    {
      this.destinationMask := destinationMask;
    }
  }
}
