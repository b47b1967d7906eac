/** The part of a USB request block (URB) that its creator fills in and then leaves alone. */
module Urbs {
  // The address of the URB, which is also the handle user space sees, and the address of its device.
  type Handle = nat
  type Device = nat

  datatype Kind = Iso | Interrupt | Control | Bulk

  // The setup packet of a control transfer: bit 7 of bmRequestType, and wLength.
  datatype Setup = NoSetup | Setup(toHost: bool, wLength: nat)

  datatype Urb = Urb(handle: Handle, device: Device, kind: Kind, pipeIn: bool, setup: Setup,
                     hasBuffer: bool, length: nat, packets: nat, status: int)

  // The test made when an URB is enqueued.
  predicate Submittable(u: Urb) {
    u.hasBuffer || u.length == 0
  }

  // The test made when user space fetches an URB; an URB that fails it is rejected.
  predicate Acceptable(u: Urb) {
    if u.kind.Control? then
      && u.setup.Setup?
      && u.setup.wLength <= u.length
      && (if u.setup.toHost then u.setup.wLength != 0 && u.hasBuffer
          else u.setup.wLength == 0 || u.hasBuffer)
    else if u.pipeIn then
      u.length != 0 && u.hasBuffer
    else
      u.length == 0 || u.hasBuffer
  }

  // The direction of the data stage. Reads the setup packet, so a control URB must have one.
  predicate DirIn(u: Urb)
    requires u.kind.Control? ==> u.setup.Setup?
  {
    if u.kind.Control? then u.setup.toHost else u.pipeIn
  }

  // The length of the data stage, which is also the buffer_length reported to user space.
  function DataLength(u: Urb): nat
    requires u.kind.Control? ==> u.setup.Setup?
  {
    if u.kind.Control? then u.setup.wLength else u.length
  }

  // A control transfer has the direction and the length of its setup packet, any other one those of its pipe and buffer.
  lemma DataStage(u: Urb, toHost: bool, n: nat)
    ensures u.kind.Control? && u.setup == Setup(toHost, n) ==> DirIn(u) == toHost && DataLength(u) == n
    ensures !u.kind.Control? ==> DirIn(u) == u.pipeIn && DataLength(u) == u.length
  {
  }

  // An URB is rejected at fetch time if and only if it is a control URB without a setup packet, or its data stage is
  // longer than its buffer, or it has a data stage and no buffer, or it is IN with an empty data stage or no buffer.
  lemma RejectedIff(u: Urb)
    ensures !Acceptable(u) <==>
            || (u.kind.Control? && u.setup.NoSetup?)
            || ((u.kind.Control? ==> u.setup.Setup?)
                && (|| DataLength(u) > u.length
                    || (DataLength(u) > 0 && !u.hasBuffer)
                    || (DirIn(u) && (DataLength(u) == 0 || !u.hasBuffer))))
  {
  }

  // A transfer to the device without data needs no buffer, as in SET_ADDRESS.
  lemma NoDataStageIsAcceptable(u: Urb)
    requires u.kind.Control? && u.setup == Setup(false, 0)
    ensures Acceptable(u)
  {
  }
}
