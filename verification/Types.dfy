/** Enumerations shared by the rows of the database. */
module Types {

  datatype Option<+T> = None | Some(value: T)

  datatype DeviceType =
    | BACKBONE_GATEWAY | POP | CORE_SITE | CORE_ROUTER | EDGE_ROUTER | AON_SWITCH | OLT
    | ONT | AON_CPE | SPLITTER | HOP | NVT | ODF | BUSINESS_ONT

  datatype Status = UP | DOWN | DEGRADED | BLOCKING

  datatype PortRole = ACCESS | UPLINK | PON | TRUNK

  /** Stored link kinds, then the semantic classes that graph builders also accept. */
  datatype LinkKind =
    | FIBER | P2P | MGMT
    | OpticalSegment | OpticalTermination | RoutedP2p | AccessEdge | AccessOpticalTerm

  datatype DeviceRole = ACTIVE | PASSIVE | ALWAYS_ONLINE

  function DeriveRole(t: DeviceType): DeviceRole {
    if t in {SPLITTER, HOP, NVT, ODF} then PASSIVE
    else if t in {BACKBONE_GATEWAY, POP, CORE_SITE} then ALWAYS_ONLINE
    else ACTIVE
  }

  predicate IsOntType(t: DeviceType) {
    t == ONT || t == BUSINESS_ONT
  }

  predicate IsPassiveType(t: DeviceType) {
    t == ODF || t == NVT || t == SPLITTER || t == HOP
  }

  /** Router-class devices, whose upstream check is the L3 trace itself. */
  predicate IsRouterType(t: DeviceType) {
    t == CORE_ROUTER || t == EDGE_ROUTER || t == BACKBONE_GATEWAY
  }

  lemma KindIsOneOf(k: DeviceType)
    ensures DeriveRole(k) == ALWAYS_ONLINE <==> k == BACKBONE_GATEWAY || k == POP || k == CORE_SITE
    ensures DeriveRole(k) == PASSIVE <==> k == SPLITTER || k == HOP || k == NVT || k == ODF
    ensures DeriveRole(k) == ACTIVE <==>
      k == CORE_ROUTER || k == EDGE_ROUTER || k == AON_SWITCH || k == OLT || k == ONT || k == AON_CPE ||
      k == BUSINESS_ONT
  {
  }
}
