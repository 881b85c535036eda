/** Small rows from which concrete topologies are put together. */
module Samples {
  import opened Types
  import opened Order
  import opened Topology

  /** A provisioned device without override. */
  function Row(kind: DeviceType, parent: Option<Id>): Device {
    Device(kind, UP, true, None, parent, None)
  }

  function Port(device: Id): Interface {
    Interface(device, "", None, None, true)
  }

  /** A fiber link whose status is UP. */
  function Wire(a: Id, b: Id, forced: Option<Status>): Link {
    Link(a, b, LinkKind.FIBER, UP, forced, true)
  }
}
