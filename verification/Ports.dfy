/** The status, change and flag words of one root hub port, and what each request does to them. */
module Ports {
  datatype Port = Port(status: bv16, change: bv16, flags: bv8)

  // wPortStatus and wPortChange, tables 11-21 and 11-22 of the USB 2.0 specification
  const CONNECTION: bv16 := 0x0001
  const ENABLE: bv16 := 0x0002
  const SUSPEND: bv16 := 0x0004
  const OVERCURRENT: bv16 := 0x0008
  const RESET: bv16 := 0x0010
  const POWER: bv16 := 0x0100
  const LOW_SPEED: bv16 := 0x0200
  const HIGH_SPEED: bv16 := 0x0400

  const C_CONNECTION: bv16 := 0x0001
  const C_ENABLE: bv16 := 0x0002
  const C_SUSPEND: bv16 := 0x0004
  const C_OVERCURRENT: bv16 := 0x0008
  const C_RESET: bv16 := 0x0010

  const RESUMING: bv8 := 0x01

  // Port feature numbers, table 11-17 of the USB 2.0 specification
  const FEAT_CONNECTION := 0
  const FEAT_ENABLE := 1
  const FEAT_SUSPEND := 2
  const FEAT_OVER_CURRENT := 3
  const FEAT_RESET := 4
  const FEAT_POWER := 8
  const FEAT_LOWSPEED := 9
  const FEAT_HIGHSPEED := 10
  const FEAT_C_CONNECTION := 16
  const FEAT_C_RESET := 20
  const FEAT_INDICATOR := 22

  const Off := Port(0, 0, 0)

  // What reaches one port: ClearPortFeature and SetPortFeature, the suspension of the whole bus, and a report of
  // user space with one of the admitted change words.
  datatype Request = Clear(feature: nat) | Set(feature: nat) | BusSuspend | Stat(status: bv16, change: bv16)

  // A request is refused, or it leaves the port alone, or it rewrites the port and marks it for user space.
  datatype Outcome = Refused | Ignored | Changed(port: Port)

  // 1 << (wValue - 16) for the five change features
  function ChangeBit(feature: nat): bv16
    requires FEAT_C_CONNECTION <= feature <= FEAT_C_RESET
  {
    if feature == 16 then C_CONNECTION
    else if feature == 17 then C_ENABLE
    else if feature == 18 then C_SUSPEND
    else if feature == 19 then C_OVERCURRENT
    else C_RESET
  }

  // w & bits, as a condition
  predicate On(w: bv16, bits: bv16) {
    w & bits != 0
  }

  // w |= bits, w &= ~bits and w &= bits
  function Raise(w: bv16, bits: bv16): bv16 {
    w | bits
  }

  function Lower(w: bv16, bits: bv16): bv16 {
    w & !bits
  }

  function Keep(w: bv16, bits: bv16): bv16 {
    w & bits
  }

  predicate Flagged(flags: bv8) {
    flags & RESUMING != 0
  }

  function RaiseFlag(flags: bv8): bv8 {
    flags | RESUMING
  }

  function LowerFlag(flags: bv8): bv8 {
    flags & !RESUMING
  }

  // The status word of a port after a connection report.
  function Plug(status: bv16, overcurrent: bv16): bv16 {
    if On(status, CONNECTION) then
      var speed := if On(status, LOW_SPEED) then LOW_SPEED else if On(status, HIGH_SPEED) then HIGH_SPEED else 0;
      Raise(POWER | CONNECTION | speed, overcurrent)
    else
      Raise(POWER, overcurrent)
  }

  function ClearFeature(p: Port, feature: nat): Outcome {
    if feature == FEAT_SUSPEND then
      if On(p.status, SUSPEND) then Changed(p.(flags := RaiseFlag(p.flags))) else Ignored
    else if feature == FEAT_POWER then
      if On(p.status, POWER) then
        Changed(Port(Keep(p.status, OVERCURRENT), Keep(p.change, C_OVERCURRENT), LowerFlag(p.flags)))
      else Ignored
    else if feature == FEAT_ENABLE then
      if On(p.status, ENABLE) then
        Changed(Port(Lower(p.status, ENABLE | SUSPEND), Lower(p.change, C_ENABLE | C_SUSPEND), LowerFlag(p.flags)))
      else Ignored
    else if feature == FEAT_CONNECTION || feature == FEAT_OVER_CURRENT || feature == FEAT_RESET
         || feature == FEAT_LOWSPEED || feature == FEAT_HIGHSPEED || feature == FEAT_INDICATOR then
      Ignored
    else if FEAT_C_CONNECTION <= feature <= FEAT_C_RESET then
      if On(p.change, ChangeBit(feature)) then Changed(p.(change := Lower(p.change, ChangeBit(feature)))) else Ignored
    else Refused
  }

  function SetFeature(p: Port, feature: nat): Outcome {
    if feature == FEAT_SUSPEND then
      if On(p.status, ENABLE) && !On(p.status, SUSPEND) then Changed(p.(status := Raise(p.status, SUSPEND))) else Ignored
    else if feature == FEAT_POWER then
      if !On(p.status, POWER) then Changed(p.(status := Raise(p.status, POWER))) else Ignored
    else if feature == FEAT_RESET then
      if On(p.status, CONNECTION) && !On(p.status, RESET) then
        Changed(p.(status := Raise(Keep(p.status, POWER | CONNECTION | LOW_SPEED | HIGH_SPEED | OVERCURRENT), RESET),
                   flags := LowerFlag(p.flags)))
      else Ignored
    else if feature == FEAT_CONNECTION || feature == FEAT_OVER_CURRENT || feature == FEAT_LOWSPEED
         || feature == FEAT_HIGHSPEED || feature == FEAT_INDICATOR then
      Ignored
    else if FEAT_C_CONNECTION <= feature <= FEAT_C_RESET then
      if !On(p.change, ChangeBit(feature)) then Changed(p.(change := Raise(p.change, ChangeBit(feature)))) else Ignored
    else Refused
  }

  function SuspendWithBus(p: Port): Outcome {
    if On(p.status, ENABLE) && !On(p.status, SUSPEND) then
      Changed(p.(status := Raise(p.status, SUSPEND), flags := LowerFlag(p.flags)))
    else Ignored
  }

  // The change words that a report of user space may carry.
  predicate Admitted(change: bv16) {
    change == C_CONNECTION || change == C_ENABLE || change == C_SUSPEND || change == C_OVERCURRENT
    || change == C_RESET || change == C_RESET | C_ENABLE
  }

  function ApplyStat(p: Port, status: bv16, change: bv16): Outcome {
    if !On(p.status, POWER) then Refused
    else if change == C_CONNECTION then
      Changed(Port(Plug(status, Keep(p.status, OVERCURRENT)),
                   Raise(p.change, C_CONNECTION), LowerFlag(p.flags)))
    else if change == C_ENABLE then
      if !On(p.status, CONNECTION) || On(p.status, RESET) || On(status, ENABLE) then Refused
      else Changed(Port(Lower(Lower(p.status, ENABLE), SUSPEND), Raise(p.change, C_ENABLE), LowerFlag(p.flags)))
    else if change == C_SUSPEND then
      if !On(p.status, CONNECTION) || !On(p.status, ENABLE) || On(p.status, RESET) || On(status, SUSPEND) then Refused
      else Changed(Port(Lower(p.status, SUSPEND), Raise(p.change, C_SUSPEND), LowerFlag(p.flags)))
    else if change == C_OVERCURRENT then
      Changed(p.(status := Raise(Lower(p.status, OVERCURRENT), Keep(status, OVERCURRENT)),
                 change := Raise(p.change, C_OVERCURRENT)))
    else
      if !On(p.status, CONNECTION) || !On(p.status, RESET) || On(status, RESET) then Refused
      else if On(change, C_ENABLE) then
        if On(status, ENABLE) then Refused
        else Changed(p.(status := Lower(p.status, RESET), change := Raise(Raise(p.change, C_ENABLE), C_RESET)))
      else Changed(p.(status := Lower(Raise(p.status, Keep(status, ENABLE)), RESET), change := Raise(p.change, C_RESET)))
  }

  function Handle(p: Port, r: Request): Outcome {
    match r
    case Clear(feature) => ClearFeature(p, feature)
    case Set(feature) => SetFeature(p, feature)
    case BusSuspend => SuspendWithBus(p)
    case Stat(status, change) => if Admitted(change) then ApplyStat(p, status, change) else Refused
  }

  function Result(p: Port, o: Outcome): Port {
    if o.Changed? then o.port else p
  }

  // A port that was powered up and then got these requests.
  function After(requests: seq<Request>): Port {
    if requests == [] then Off else
      var p := After(requests[..|requests| - 1]);
      Result(p, Handle(p, requests[|requests| - 1]))
  }

  // Section 11.24.2.7.1 of the USB 2.0 specification.
  predicate Legal(p: Port) {
    && (p.status & SUSPEND != 0 ==> p.status & ENABLE != 0)
    && (p.status & ENABLE != 0 ==> p.status & CONNECTION != 0)
    && (p.status & CONNECTION != 0 ==> p.status & POWER != 0)
    && (p.status & RESET != 0 ==> p.status & CONNECTION != 0 && p.status & ENABLE == 0)
    && !(p.status & LOW_SPEED != 0 && p.status & HIGH_SPEED != 0)
    && (p.status & (LOW_SPEED | HIGH_SPEED) != 0 ==> p.status & CONNECTION != 0)
    && (p.flags & RESUMING != 0 ==> p.status & SUSPEND != 0)
    && p.status & 0xF8E0 == 0 && p.change & 0xFFE0 == 0 && p.flags & 0xFE == 0
  }

  lemma ChangeKeepsLegal(p: Port, feature: nat)
    requires Legal(p) && FEAT_C_CONNECTION <= feature <= FEAT_C_RESET
    ensures Legal(p.(change := Lower(p.change, ChangeBit(feature))))
    ensures Legal(p.(change := Raise(p.change, ChangeBit(feature))))
  {
  }

  lemma ClearKeepsLegal(p: Port, feature: nat)
    requires Legal(p)
    ensures Legal(Result(p, ClearFeature(p, feature)))
  {
    if FEAT_C_CONNECTION <= feature <= FEAT_C_RESET {
      hide Legal, ChangeBit, Lower;
      ChangeKeepsLegal(p, feature);
    }
  }

  lemma SetKeepsLegal(p: Port, feature: nat)
    requires Legal(p)
    ensures Legal(Result(p, SetFeature(p, feature)))
  {
    if FEAT_C_CONNECTION <= feature <= FEAT_C_RESET {
      hide Legal, ChangeBit, Raise;
      ChangeKeepsLegal(p, feature);
    }
  }

  lemma StatKeepsLegal(p: Port, status: bv16, change: bv16)
    requires Legal(p)
    ensures Legal(Result(p, ApplyStat(p, status, change)))
  {
  }

  lemma HandleKeepsLegal(p: Port, r: Request)
    requires Legal(p)
    ensures Legal(Result(p, Handle(p, r)))
  {
    match r
    case Clear(feature) => ClearKeepsLegal(p, feature);
    case Set(feature) => SetKeepsLegal(p, feature);
    case BusSuspend =>
    case Stat(status, change) => StatKeepsLegal(p, status, change);
  }

  // In every run every port is in a state the specification allows, with no other bits set.
  lemma {:induction false} AlwaysLegal(requests: seq<Request>)
    ensures Legal(After(requests))
  {
    if requests != [] {
      AlwaysLegal(requests[..|requests| - 1]);
      HandleKeepsLegal(After(requests[..|requests| - 1]), requests[|requests| - 1]);
    }
  }
}
