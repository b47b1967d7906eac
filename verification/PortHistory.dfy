/** A reference for the root hub port: each bit is explained by the events of the port so far. A table says which
    events raise a bit and which drop it, following sections 11.24.2.7.1 and 11.24.2.7.2 of the USB 2.0
    specification; no word of the driver appears in it. */
module PortHistory {
  import opened Basics
  import opened Ports

  datatype Bit =
    | Powered | Connected | Enabled | Suspended | OverCurrent | Resetting | Low | High | Resuming
    | ConnectionChange | EnableChange | SuspendChange | OverCurrentChange | ResetChange

  datatype Event =
    | PowerOn | PowerOff
    | Connect(low: bool, high: bool) | Disconnect
    | ResetStart | ResetDone(enabled: bool, failed: bool)
    | HostDisable | DeviceDisable
    | Suspend | ResumeStart | ResumeDone
    | OverCurrentReport(on: bool)
    | ClearChange(bit: Bit) | SetChange(bit: Bit)

  predicate Raises(e: Event, b: Bit) {
    match b
    case Powered => e.PowerOn?
    case Connected => e.Connect?
    case Low => e.Connect? && e.low
    case High => e.Connect? && e.high && !e.low
    case Resetting => e.ResetStart?
    case Enabled => e.ResetDone? && e.enabled
    case Suspended => e.Suspend?
    case Resuming => e.ResumeStart?
    case OverCurrent => e.OverCurrentReport? && e.on
    case ConnectionChange => e.Connect? || e.Disconnect? || e == SetChange(b)
    case EnableChange => e.DeviceDisable? || (e.ResetDone? && e.failed) || e == SetChange(b)
    case SuspendChange => e.ResumeDone? || e == SetChange(b)
    case OverCurrentChange => e.OverCurrentReport? || e == SetChange(b)
    case ResetChange => e.ResetDone? || e == SetChange(b)
  }

  // A new device, no device, or no power.
  predicate Replugged(e: Event) {
    e.Connect? || e.Disconnect? || e.PowerOff?
  }

  predicate Drops(e: Event, b: Bit) {
    match b
    case Powered => e.PowerOff?
    case Connected => e.Disconnect? || e.PowerOff?
    case Low => Replugged(e)
    case High => Replugged(e)
    case Resetting => e.ResetDone? || Replugged(e)
    case Enabled => e.HostDisable? || e.DeviceDisable? || e.ResetStart? || Replugged(e)
    case Suspended => e.ResumeDone? || e.HostDisable? || e.DeviceDisable? || e.ResetStart? || Replugged(e)
    case Resuming => e.ResumeDone? || e.HostDisable? || e.DeviceDisable? || e.ResetStart? || Replugged(e)
    case OverCurrent => e.OverCurrentReport? && !e.on
    case ConnectionChange => e.PowerOff? || e == ClearChange(b)
    case EnableChange => e.PowerOff? || e.HostDisable? || e == ClearChange(b)
    case SuspendChange => e.PowerOff? || e.HostDisable? || e == ClearChange(b)
    case OverCurrentChange => e == ClearChange(b)
    case ResetChange => e.PowerOff? || e == ClearChange(b)
  }

  // A bit holds if its last relevant event raised it.
  predicate Holds(h: seq<Event>, b: Bit) {
    h != [] && var e := h[|h| - 1];
    (Raises(e, b) || (!Drops(e, b) && Holds(h[..|h| - 1], b)))
  }

  // Event k raised the bit and none since has raised or dropped it.
  ghost predicate RaisedLast(h: seq<Event>, b: Bit, k: int) {
    0 <= k < |h| && Raises(h[k], b) && forall j :: k < j < |h| ==> !Drops(h[j], b) && !Raises(h[j], b)
  }

  lemma {:induction false} HeldWasRaised(h: seq<Event>, b: Bit) returns (k: int)
    requires Holds(h, b)
    ensures RaisedLast(h, b, k)
  {
    hide Raises, Drops;
    var n := |h| - 1;
    if Raises(h[n], b) {
      k := n;
    } else {
      k := HeldWasRaised(h[..n], b);
      forall j | k < j < |h| ensures !Drops(h[j], b) && !Raises(h[j], b) {
        assert j < n ==> h[..n][j] == h[j];
      }
    }
  }

  lemma {:induction false} RaisedIsHeld(h: seq<Event>, b: Bit, k: int)
    requires RaisedLast(h, b, k)
    ensures Holds(h, b)
  {
    hide Raises, Drops;
    var n := |h| - 1;
    if k < n {
      RaisedIsHeld(h[..n], b, k);
    }
  }

  // Holds, in so many words: some event raised the bit and none since has raised or dropped it.
  lemma HoldsMeaning(h: seq<Event>, b: Bit)
    ensures Holds(h, b) <==> exists k :: RaisedLast(h, b, k)
  {
    hide Raises, Drops, Holds;
    if Holds(h, b) {
      var k := HeldWasRaised(h, b);
    }
    if k :| RaisedLast(h, b, k) {
      RaisedIsHeld(h, b, k);
    }
  }

  function ChangeOf(feature: nat): Bit
    requires FEAT_C_CONNECTION <= feature <= FEAT_C_RESET
  {
    if feature == 16 then ConnectionChange
    else if feature == 17 then EnableChange
    else if feature == 18 then SuspendChange
    else if feature == 19 then OverCurrentChange
    else ResetChange
  }

  function Plugged(status: bv16): Event {
    if On(status, CONNECTION) then Connect(On(status, LOW_SPEED), On(status, HIGH_SPEED)) else Disconnect
  }

  // The event that a request causes, judged by the bits that hold when it comes.
  function Effect(holds: Bit -> bool, r: Request): Option<Event> {
    match r
    case Clear(feature) =>
      if feature == FEAT_SUSPEND && holds(Suspended) then Some(ResumeStart)
      else if feature == FEAT_POWER && holds(Powered) then Some(PowerOff)
      else if feature == FEAT_ENABLE && holds(Enabled) then Some(HostDisable)
      else if FEAT_C_CONNECTION <= feature <= FEAT_C_RESET
          && holds(ChangeOf(feature)) then Some(ClearChange(ChangeOf(feature)))
      else None
    case Set(feature) =>
      if feature == FEAT_SUSPEND && holds(Enabled) && !holds(Suspended) then Some(Suspend)
      else if feature == FEAT_POWER && !holds(Powered) then Some(PowerOn)
      else if feature == FEAT_RESET && holds(Connected) && !holds(Resetting) then Some(ResetStart)
      else if FEAT_C_CONNECTION <= feature <= FEAT_C_RESET
          && !holds(ChangeOf(feature)) then Some(SetChange(ChangeOf(feature)))
      else None
    case BusSuspend =>
      if holds(Enabled) && !holds(Suspended) then Some(Suspend) else None
    case Stat(status, change) =>
      if !holds(Powered) then None
      else if change == C_CONNECTION then
        Some(Plugged(status))
      else if change == C_OVERCURRENT then Some(OverCurrentReport(On(status, OVERCURRENT)))
      else if !holds(Connected) then None
      else if change == C_ENABLE then
        if holds(Resetting) || On(status, ENABLE) then None else Some(DeviceDisable)
      else if change == C_SUSPEND then
        if !holds(Enabled) || holds(Resetting) || On(status, SUSPEND) then None else Some(ResumeDone)
      else if !holds(Resetting) || On(status, RESET) then None
      else if change == C_RESET then Some(ResetDone(On(status, ENABLE), false))
      else if change == C_RESET | C_ENABLE then
        if On(status, ENABLE) then None else Some(ResetDone(false, true))
      else None
  }

  function Extended(h: seq<Event>, e: Option<Event>): seq<Event> {
    if e.Some? then h + [e.value] else h
  }

  function Events(requests: seq<Request>): seq<Event> {
    if requests == [] then [] else
      var h := Events(requests[..|requests| - 1]);
      Extended(h, Effect(b => Holds(h, b), requests[|requests| - 1]))
  }

  // The bit of the driver's words that stands for each bit of the reference.
  predicate Test(p: Port, b: Bit) {
    match b
    case Powered => On(p.status, POWER)
    case Connected => On(p.status, CONNECTION)
    case Enabled => On(p.status, ENABLE)
    case Suspended => On(p.status, SUSPEND)
    case OverCurrent => On(p.status, OVERCURRENT)
    case Resetting => On(p.status, RESET)
    case Low => On(p.status, LOW_SPEED)
    case High => On(p.status, HIGH_SPEED)
    case Resuming => Flagged(p.flags)
    case ConnectionChange => On(p.change, C_CONNECTION)
    case EnableChange => On(p.change, C_ENABLE)
    case SuspendChange => On(p.change, C_SUSPEND)
    case OverCurrentChange => On(p.change, C_OVERCURRENT)
    case ResetChange => On(p.change, C_RESET)
  }

  ghost predicate Match(p: Port, h: seq<Event>) {
    forall b: Bit :: Test(p, b) <==> Holds(h, b)
  }

  // What one event does to a legal port, bit by bit.
  predicate MovesBit(p: Port, e: Event, q: Port, b: Bit) {
    Test(q, b) <==> Raises(e, b) || (!Drops(e, b) && Test(p, b))
  }

  ghost predicate Moves(p: Port, e: Event, q: Port) {
    forall b: Bit :: MovesBit(p, e, q, b)
  }

  lemma MatchMoves(p: Port, h: seq<Event>, e: Event, q: Port)
    requires Match(p, h) && Moves(p, e, q)
    ensures Match(q, h + [e])
  {
    forall b: Bit ensures Test(q, b) <==> Holds(h + [e], b) {
      assert (h + [e])[..|h|] == h;
      assert MovesBit(p, e, q, b);
      assert Test(p, b) <==> Holds(h, b);
    }
  }

  // The event that a request causes at a port, judged by the port's own words.
  ghost function EffectOn(p: Port, r: Request): Option<Event> {
    Effect(b => Test(p, b), r)
  }

  // A request that rewrote p into q, and marked the port if changed, did what the reference says.
  ghost predicate ActsAs(p: Port, r: Request, q: Port, changed: bool) {
    var e := EffectOn(p, r);
    if e.Some? then changed && Moves(p, e.value, q) else !changed && q == p
  }

  // The driver acts on a port exactly when the reference sees an event, and then bit by bit as the table says.
  ghost predicate Follows(p: Port, r: Request) {
    ActsAs(p, r, Result(p, Handle(p, r)), Handle(p, r).Changed?)
  }

  // The same for one bit.
  ghost predicate FollowsBit(p: Port, r: Request, b: Bit) {
    var o, e := Handle(p, r), EffectOn(p, r);
    (o.Changed? <==> e.Some?) && (e.Some? ==> MovesBit(p, e.value, o.port, b))
  }

  // --- Words and masks ---

  predicate IsChange(b: Bit) {
    b.ConnectionChange? || b.EnableChange? || b.SuspendChange? || b.OverCurrentChange? || b.ResetChange?
  }

  function Mask(b: Bit): bv16
    requires !b.Resuming?
  {
    match b
    case Powered => POWER
    case Connected => CONNECTION
    case Enabled => ENABLE
    case Suspended => SUSPEND
    case OverCurrent => OVERCURRENT
    case Resetting => RESET
    case Low => LOW_SPEED
    case High => HIGH_SPEED
    case ConnectionChange => C_CONNECTION
    case EnableChange => C_ENABLE
    case SuspendChange => C_SUSPEND
    case OverCurrentChange => C_OVERCURRENT
    case ResetChange => C_RESET
  }

  predicate Single(m: bv16) {
    m == 0x0001 || m == 0x0002 || m == 0x0004 || m == 0x0008 || m == 0x0010 || m == 0x0100 || m == 0x0200 || m == 0x0400
  }

  lemma RaiseOn(w: bv16, x: bv16, m: bv16)
    requires Single(m)
    ensures On(Raise(w, x), m) <==> On(w, m) || On(x, m)
  {
  }

  lemma LowerOn(w: bv16, x: bv16, m: bv16)
    requires Single(m)
    ensures On(Lower(w, x), m) <==> On(w, m) && !On(x, m)
  {
  }

  lemma KeepOn(w: bv16, x: bv16, m: bv16)
    requires Single(m)
    ensures On(Keep(w, x), m) <==> On(w, m) && On(x, m)
  {
  }

  // What the three word operations do to one bit
  lemma Ops(w: bv16, x: bv16, b: Bit)
    ensures !b.Resuming? ==> (On(Raise(w, x), Mask(b)) <==> On(w, Mask(b)) || On(x, Mask(b)))
    ensures !b.Resuming? ==> (On(Lower(w, x), Mask(b)) <==> On(w, Mask(b)) && !On(x, Mask(b)))
    ensures !b.Resuming? ==> (On(Keep(w, x), Mask(b)) <==> On(w, Mask(b)) && On(x, Mask(b)))
  {
    if !b.Resuming? {
      assert Single(Mask(b));
      hide On, Raise, Lower, Keep, Mask, Single;
      RaiseOn(w, x, Mask(b));
      LowerOn(w, x, Mask(b));
      KeepOn(w, x, Mask(b));
    }
  }

  // Which bits the driver's status masks have
  lemma StatusMasks(b: Bit)
    requires !IsChange(b) && !b.Resuming?
    ensures (b.Powered? ==> Mask(b) == POWER) && (b.Enabled? ==> Mask(b) == ENABLE)
        && (b.OverCurrent? ==> Mask(b) == OVERCURRENT)
    ensures On(POWER, Mask(b)) <==> b.Powered?
    ensures On(ENABLE, Mask(b)) <==> b.Enabled?
    ensures On(SUSPEND, Mask(b)) <==> b.Suspended?
    ensures On(RESET, Mask(b)) <==> b.Resetting?
    ensures On(OVERCURRENT, Mask(b)) <==> b.OverCurrent?
    ensures On(ENABLE | SUSPEND, Mask(b)) <==> b.Enabled? || b.Suspended?
    ensures On(POWER | CONNECTION | LOW_SPEED | HIGH_SPEED | OVERCURRENT, Mask(b)) <==>
            !b.Enabled? && !b.Suspended? && !b.Resetting?
    ensures On(POWER | CONNECTION | 0, Mask(b)) <==> b.Powered? || b.Connected?
    ensures On(POWER | CONNECTION | LOW_SPEED, Mask(b)) <==> b.Powered? || b.Connected? || b.Low?
    ensures On(POWER | CONNECTION | HIGH_SPEED, Mask(b)) <==> b.Powered? || b.Connected? || b.High?
  {
  }

  lemma ChangeMasks(b: Bit)
    requires IsChange(b)
    ensures On(C_CONNECTION, Mask(b)) <==> b.ConnectionChange?
    ensures On(C_ENABLE, Mask(b)) <==> b.EnableChange?
    ensures On(C_SUSPEND, Mask(b)) <==> b.SuspendChange?
    ensures On(C_OVERCURRENT, Mask(b)) <==> b.OverCurrentChange?
    ensures On(C_RESET, Mask(b)) <==> b.ResetChange?
    ensures On(C_ENABLE | C_SUSPEND, Mask(b)) <==> b.EnableChange? || b.SuspendChange?
  {
  }

  lemma FlagOps(flags: bv8)
    ensures Flagged(RaiseFlag(flags)) && !Flagged(LowerFlag(flags))
  {
  }

  lemma TestIs(p: Port, b: Bit)
    ensures Test(p, b) <==> if b.Resuming? then Flagged(p.flags) else On(if IsChange(b) then p.change else p.status, Mask(b))
  {
    hide On, Flagged;
  }

  // How two ports read, when the second was made from the first
  lemma Reads(p: Port, q: Port, b: Bit)
    ensures Test(p, b) <==> if b.Resuming? then Flagged(p.flags) else On(if IsChange(b) then p.change else p.status, Mask(b))
    ensures Test(q, b) <==> if b.Resuming? then Flagged(q.flags) else On(if IsChange(b) then q.change else q.status, Mask(b))
    ensures Flagged(RaiseFlag(p.flags)) && !Flagged(LowerFlag(p.flags))
  {
    hide On, Flagged, RaiseFlag, LowerFlag, Test, Mask;
    TestIs(p, b);
    TestIs(q, b);
    FlagOps(p.flags);
  }

  // --- Each request, bit by bit ---

  lemma ClearSuspendMoves(p: Port, b: Bit)
    ensures MovesBit(p, ResumeStart, p.(flags := RaiseFlag(p.flags)), b)
  {
    hide On, Flagged, Raise, Lower, Keep, RaiseFlag, LowerFlag, Test, Mask;
    Reads(p, p.(flags := RaiseFlag(p.flags)), b);
  }

  lemma ClearSuspendFollows(p: Port, b: Bit)
    ensures FollowsBit(p, Clear(FEAT_SUSPEND), b)
  {
    hide MovesBit, Raise, Lower, Keep, RaiseFlag, LowerFlag;
    ClearSuspendMoves(p, b);
  }

  lemma ClearPowerMoves(p: Port, b: Bit)
    ensures MovesBit(p, PowerOff, Port(Keep(p.status, OVERCURRENT), Keep(p.change, C_OVERCURRENT), LowerFlag(p.flags)), b)
  {
    hide On, Flagged, Raise, Lower, Keep, RaiseFlag, LowerFlag, Test, Mask;
    Reads(p, Port(Keep(p.status, OVERCURRENT), Keep(p.change, C_OVERCURRENT), LowerFlag(p.flags)), b);
    if !IsChange(b) && !b.Resuming? {
      StatusMasks(b);
      Ops(p.status, OVERCURRENT, b);
    }
    if IsChange(b) {
      ChangeMasks(b);
      Ops(p.change, C_OVERCURRENT, b);
    }
  }

  lemma ClearPowerFollows(p: Port, b: Bit)
    ensures FollowsBit(p, Clear(FEAT_POWER), b)
  {
    hide MovesBit, Raise, Lower, Keep, RaiseFlag, LowerFlag;
    ClearPowerMoves(p, b);
  }

  lemma ClearEnableMoves(p: Port, b: Bit)
    ensures MovesBit(p, HostDisable, Port(Lower(p.status, ENABLE | SUSPEND), Lower(p.change, C_ENABLE | C_SUSPEND),
        LowerFlag(p.flags)), b)
  {
    hide On, Flagged, Raise, Lower, Keep, RaiseFlag, LowerFlag, Test, Mask;
    Reads(p, Port(Lower(p.status, ENABLE | SUSPEND), Lower(p.change, C_ENABLE | C_SUSPEND), LowerFlag(p.flags)), b);
    if !IsChange(b) && !b.Resuming? {
      StatusMasks(b);
      Ops(p.status, ENABLE | SUSPEND, b);
    }
    if IsChange(b) {
      ChangeMasks(b);
      Ops(p.change, C_ENABLE | C_SUSPEND, b);
    }
  }

  lemma ClearEnableFollows(p: Port, b: Bit)
    ensures FollowsBit(p, Clear(FEAT_ENABLE), b)
  {
    hide MovesBit, Raise, Lower, Keep, RaiseFlag, LowerFlag;
    ClearEnableMoves(p, b);
  }

  lemma SetSuspendMoves(p: Port, b: Bit)
    ensures MovesBit(p, Suspend, p.(status := Raise(p.status, SUSPEND)), b)
  {
    hide On, Flagged, Raise, Lower, Keep, RaiseFlag, LowerFlag, Test, Mask;
    Reads(p, p.(status := Raise(p.status, SUSPEND)), b);
    if !IsChange(b) && !b.Resuming? {
      StatusMasks(b);
      Ops(p.status, SUSPEND, b);
    }
  }

  lemma SetSuspendFollows(p: Port, b: Bit)
    ensures FollowsBit(p, Set(FEAT_SUSPEND), b)
  {
    hide MovesBit, Raise, Lower, Keep, RaiseFlag, LowerFlag;
    SetSuspendMoves(p, b);
  }

  lemma SetPowerMoves(p: Port, b: Bit)
    ensures MovesBit(p, PowerOn, p.(status := Raise(p.status, POWER)), b)
  {
    hide On, Flagged, Raise, Lower, Keep, RaiseFlag, LowerFlag, Test, Mask;
    Reads(p, p.(status := Raise(p.status, POWER)), b);
    if !IsChange(b) && !b.Resuming? {
      StatusMasks(b);
      Ops(p.status, POWER, b);
    }
  }

  lemma SetPowerFollows(p: Port, b: Bit)
    ensures FollowsBit(p, Set(FEAT_POWER), b)
  {
    hide MovesBit, Raise, Lower, Keep, RaiseFlag, LowerFlag;
    SetPowerMoves(p, b);
  }

  lemma SetResetMoves(p: Port, b: Bit)
    ensures MovesBit(p, ResetStart,
            p.(status := Raise(Keep(p.status, POWER | CONNECTION | LOW_SPEED | HIGH_SPEED | OVERCURRENT), RESET),
               flags := LowerFlag(p.flags)), b)
  {
    hide On, Flagged, Raise, Lower, Keep, RaiseFlag, LowerFlag, Test, Mask;
    Reads(p, p.(status := Raise(Keep(p.status, POWER | CONNECTION | LOW_SPEED | HIGH_SPEED | OVERCURRENT), RESET),
        flags := LowerFlag(p.flags)), b);
    if !IsChange(b) && !b.Resuming? {
      StatusMasks(b);
      Ops(p.status, POWER | CONNECTION | LOW_SPEED | HIGH_SPEED | OVERCURRENT, b);
      Ops(Keep(p.status, POWER | CONNECTION | LOW_SPEED | HIGH_SPEED | OVERCURRENT), RESET, b);
    }
  }

  lemma SetResetFollows(p: Port, b: Bit)
    ensures FollowsBit(p, Set(FEAT_RESET), b)
  {
    hide MovesBit, Raise, Lower, Keep, RaiseFlag, LowerFlag;
    SetResetMoves(p, b);
  }

  lemma SuspendMoves(p: Port, b: Bit)
    requires !Flagged(p.flags)
    ensures MovesBit(p, Event.Suspend, p.(status := Raise(p.status, SUSPEND), flags := LowerFlag(p.flags)), b)
  {
    hide On, Flagged, Raise, Lower, Keep, RaiseFlag, LowerFlag, Test, Mask;
    Reads(p, p.(status := Raise(p.status, SUSPEND), flags := LowerFlag(p.flags)), b);
    if !IsChange(b) && !b.Resuming? {
      StatusMasks(b);
      Ops(p.status, SUSPEND, b);
    }
  }

  lemma ResumingIsSuspended(p: Port)
    requires Legal(p)
    ensures Flagged(p.flags) ==> On(p.status, SUSPEND)
  {
  }

  lemma SuspendFollows(p: Port, b: Bit)
    requires Legal(p)
    ensures FollowsBit(p, BusSuspend, b)
  {
    hide MovesBit, Legal, Raise, LowerFlag, Flagged, On;
    ResumingIsSuspended(p);
    if !On(p.status, SUSPEND) {
      SuspendMoves(p, b);
    }
  }

  lemma PlugMoves(p: Port, status: bv16, b: Bit)
    requires On(p.status, POWER)
    ensures MovesBit(p, Plugged(status),
                     Port(Plug(status, Keep(p.status, OVERCURRENT)), Raise(p.change, C_CONNECTION), LowerFlag(p.flags)), b)
  {
    hide On, Flagged, Raise, Lower, Keep, RaiseFlag, LowerFlag, Test, Mask;
    Reads(p, Port(Plug(status, Keep(p.status, OVERCURRENT)), Raise(p.change, C_CONNECTION), LowerFlag(p.flags)), b);
    if !IsChange(b) && !b.Resuming? {
      StatusMasks(b);
      Ops(p.status, OVERCURRENT, b);
      Ops(POWER | CONNECTION | LOW_SPEED, Keep(p.status, OVERCURRENT), b);
      Ops(POWER | CONNECTION | HIGH_SPEED, Keep(p.status, OVERCURRENT), b);
      Ops(POWER | CONNECTION | 0, Keep(p.status, OVERCURRENT), b);
      Ops(POWER, Keep(p.status, OVERCURRENT), b);
    }
    if IsChange(b) {
      ChangeMasks(b);
      Ops(p.change, C_CONNECTION, b);
    }
  }

  lemma ConnectionFollows(p: Port, status: bv16, b: Bit)
    ensures FollowsBit(p, Stat(status, C_CONNECTION), b)
  {
    hide MovesBit, Plugged, Plug, Raise, Keep, LowerFlag;
    if On(p.status, POWER) {
      PlugMoves(p, status, b);
    }
  }

  lemma DisableMoves(p: Port, b: Bit)
    ensures MovesBit(p, DeviceDisable, Port(Lower(Lower(p.status, ENABLE), SUSPEND), Raise(p.change, C_ENABLE),
        LowerFlag(p.flags)), b)
  {
    hide On, Flagged, Raise, Lower, Keep, RaiseFlag, LowerFlag, Test, Mask;
    Reads(p, Port(Lower(Lower(p.status, ENABLE), SUSPEND), Raise(p.change, C_ENABLE), LowerFlag(p.flags)), b);
    if !IsChange(b) && !b.Resuming? {
      StatusMasks(b);
      Ops(p.status, ENABLE, b);
      Ops(Lower(p.status, ENABLE), SUSPEND, b);
    }
    if IsChange(b) {
      ChangeMasks(b);
      Ops(p.change, C_ENABLE, b);
    }
  }

  lemma DisableFollows(p: Port, status: bv16, b: Bit)
    ensures FollowsBit(p, Stat(status, C_ENABLE), b)
  {
    hide MovesBit, Raise, Lower, Keep, RaiseFlag, LowerFlag;
    DisableMoves(p, b);
  }

  lemma ResumeMoves(p: Port, b: Bit)
    ensures MovesBit(p, ResumeDone, Port(Lower(p.status, SUSPEND), Raise(p.change, C_SUSPEND), LowerFlag(p.flags)), b)
  {
    hide On, Flagged, Raise, Lower, Keep, RaiseFlag, LowerFlag, Test, Mask;
    Reads(p, Port(Lower(p.status, SUSPEND), Raise(p.change, C_SUSPEND), LowerFlag(p.flags)), b);
    if !IsChange(b) && !b.Resuming? {
      StatusMasks(b);
      Ops(p.status, SUSPEND, b);
    }
    if IsChange(b) {
      ChangeMasks(b);
      Ops(p.change, C_SUSPEND, b);
    }
  }

  lemma ResumeFollows(p: Port, status: bv16, b: Bit)
    ensures FollowsBit(p, Stat(status, C_SUSPEND), b)
  {
    hide MovesBit, Raise, Lower, Keep, RaiseFlag, LowerFlag;
    ResumeMoves(p, b);
  }

  lemma OverCurrentMoves(p: Port, status: bv16, b: Bit)
    ensures MovesBit(p, OverCurrentReport(On(status, OVERCURRENT)),
                     p.(status := Raise(Lower(p.status, OVERCURRENT), Keep(status, OVERCURRENT)),
                         change := Raise(p.change, C_OVERCURRENT)), b)
  {
    hide On, Flagged, Raise, Lower, Keep, RaiseFlag, LowerFlag, Test, Mask;
    Reads(p, p.(status := Raise(Lower(p.status, OVERCURRENT), Keep(status, OVERCURRENT)),
            change := Raise(p.change, C_OVERCURRENT)), b);
    if !IsChange(b) && !b.Resuming? {
      StatusMasks(b);
      Ops(p.status, OVERCURRENT, b);
      Ops(status, OVERCURRENT, b);
      Ops(Lower(p.status, OVERCURRENT), Keep(status, OVERCURRENT), b);
    }
    if IsChange(b) {
      ChangeMasks(b);
      Ops(p.change, C_OVERCURRENT, b);
    }
  }

  lemma OverCurrentFollows(p: Port, status: bv16, b: Bit)
    ensures FollowsBit(p, Stat(status, C_OVERCURRENT), b)
  {
    hide MovesBit, Raise, Lower, Keep, RaiseFlag, LowerFlag;
    OverCurrentMoves(p, status, b);
  }

  lemma ResetMoves(p: Port, status: bv16, b: Bit)
    ensures MovesBit(p, ResetDone(On(status, ENABLE), false),
                     p.(status := Lower(Raise(p.status, Keep(status, ENABLE)), RESET),
            change := Raise(p.change, C_RESET)), b)
  {
    hide On, Flagged, Raise, Lower, Keep, RaiseFlag, LowerFlag, Test, Mask;
    Reads(p, p.(status := Lower(Raise(p.status, Keep(status, ENABLE)), RESET), change := Raise(p.change, C_RESET)), b);
    if !IsChange(b) && !b.Resuming? {
      StatusMasks(b);
      Ops(status, ENABLE, b);
      Ops(p.status, Keep(status, ENABLE), b);
      Ops(Raise(p.status, Keep(status, ENABLE)), RESET, b);
    }
    if IsChange(b) {
      ChangeMasks(b);
      Ops(p.change, C_RESET, b);
    }
  }

  lemma ResetFollows(p: Port, status: bv16, b: Bit)
    ensures FollowsBit(p, Stat(status, C_RESET), b)
  {
    hide MovesBit, Raise, Lower, Keep, RaiseFlag, LowerFlag;
    ResetMoves(p, status, b);
  }

  lemma ResetFailedMoves(p: Port, b: Bit)
    ensures MovesBit(p, ResetDone(false, true), p.(status := Lower(p.status, RESET),
            change := Raise(Raise(p.change, C_ENABLE), C_RESET)), b)
  {
    hide On, Flagged, Raise, Lower, Keep, RaiseFlag, LowerFlag, Test, Mask;
    Reads(p, p.(status := Lower(p.status, RESET), change := Raise(Raise(p.change, C_ENABLE), C_RESET)), b);
    if !IsChange(b) && !b.Resuming? {
      StatusMasks(b);
      Ops(p.status, RESET, b);
    }
    if IsChange(b) {
      ChangeMasks(b);
      Ops(p.change, C_ENABLE, b);
      Ops(Raise(p.change, C_ENABLE), C_RESET, b);
    }
  }

  lemma ResetFailedFollows(p: Port, status: bv16, b: Bit)
    ensures FollowsBit(p, Stat(status, C_RESET | C_ENABLE), b)
  {
    hide MovesBit, Raise, Lower, Keep, RaiseFlag, LowerFlag;
    ResetFailedMoves(p, b);
  }

  lemma FeatureBit(p: Port, feature: nat)
    requires FEAT_C_CONNECTION <= feature <= FEAT_C_RESET
    ensures var c := ChangeOf(feature);
            IsChange(c) && ChangeBit(feature) == Mask(c) && (Test(p, c) <==> On(p.change, Mask(c)))
  {
    hide On;
  }

  lemma MasksApart(c: Bit, b: Bit)
    requires IsChange(c)
    ensures IsChange(b) ==> (On(Mask(c), Mask(b)) <==> b == c)
  {
  }

  lemma ClearEvent(c: Bit, b: Bit)
    requires IsChange(c)
    ensures !Raises(ClearChange(c), b) && (Drops(ClearChange(c), b) <==> b == c)
  {
  }

  lemma ClearChangeMoves(p: Port, c: Bit, b: Bit)
    requires IsChange(c)
    ensures MovesBit(p, ClearChange(c), p.(change := Lower(p.change, Mask(c))), b)
  {
    hide On, Flagged, Raise, Lower, Keep, RaiseFlag, LowerFlag, Test, Mask, Raises, Drops;
    ClearEvent(c, b);
    MasksApart(c, b);
    Reads(p, p.(change := Lower(p.change, Mask(c))), b);
    Ops(p.change, Mask(c), b);
  }

  lemma ClearChangeFollows(p: Port, feature: nat, b: Bit)
    requires FEAT_C_CONNECTION <= feature <= FEAT_C_RESET
    ensures FollowsBit(p, Clear(feature), b)
  {
    hide MovesBit, Lower, Mask, ChangeOf, ChangeBit, On, Test;
    FeatureBit(p, feature);
    ClearChangeMoves(p, ChangeOf(feature), b);
  }

  lemma SetEvent(c: Bit, b: Bit)
    requires IsChange(c)
    ensures !Drops(SetChange(c), b) && (Raises(SetChange(c), b) <==> b == c)
  {
  }

  lemma SetChangeMoves(p: Port, c: Bit, b: Bit)
    requires IsChange(c)
    ensures MovesBit(p, SetChange(c), p.(change := Raise(p.change, Mask(c))), b)
  {
    hide On, Flagged, Raise, Lower, Keep, RaiseFlag, LowerFlag, Test, Mask, Raises, Drops;
    SetEvent(c, b);
    MasksApart(c, b);
    Reads(p, p.(change := Raise(p.change, Mask(c))), b);
    Ops(p.change, Mask(c), b);
  }

  lemma SetChangeFollows(p: Port, feature: nat, b: Bit)
    requires FEAT_C_CONNECTION <= feature <= FEAT_C_RESET
    ensures FollowsBit(p, Set(feature), b)
  {
    hide MovesBit, Raise, Mask, ChangeOf, ChangeBit, On, Test;
    FeatureBit(p, feature);
    SetChangeMoves(p, ChangeOf(feature), b);
  }

  lemma BitFollows(p: Port, r: Request, b: Bit)
    requires Legal(p)
    ensures FollowsBit(p, r, b)
  {
    hide MovesBit, Legal;
    match r
    case Clear(feature) =>
      if feature == FEAT_SUSPEND {
        ClearSuspendFollows(p, b);
      } else if feature == FEAT_POWER {
        ClearPowerFollows(p, b);
      } else if feature == FEAT_ENABLE {
        ClearEnableFollows(p, b);
      } else if FEAT_C_CONNECTION <= feature <= FEAT_C_RESET {
        ClearChangeFollows(p, feature, b);
      }
    case Set(feature) =>
      if feature == FEAT_SUSPEND {
        SetSuspendFollows(p, b);
      } else if feature == FEAT_POWER {
        SetPowerFollows(p, b);
      } else if feature == FEAT_RESET {
        SetResetFollows(p, b);
      } else if FEAT_C_CONNECTION <= feature <= FEAT_C_RESET {
        SetChangeFollows(p, feature, b);
      }
    case BusSuspend =>
      SuspendFollows(p, b);
    case Stat(status, change) =>
      if change == C_CONNECTION {
        ConnectionFollows(p, status, b);
      } else if change == C_ENABLE {
        DisableFollows(p, status, b);
      } else if change == C_SUSPEND {
        ResumeFollows(p, status, b);
      } else if change == C_OVERCURRENT {
        OverCurrentFollows(p, status, b);
      } else if change == C_RESET {
        ResetFollows(p, status, b);
      } else if change == C_RESET | C_ENABLE {
        ResetFailedFollows(p, status, b);
      }
  }

  lemma AlwaysFollows(p: Port, r: Request)
    requires Legal(p)
    ensures Follows(p, r)
  {
    hide MovesBit, Legal, Handle, EffectOn;
    forall b: Bit ensures FollowsBit(p, r, b) {
      BitFollows(p, r, b);
    }
    assert FollowsBit(p, r, Powered);
    if EffectOn(p, r).Some? {
      forall b: Bit ensures MovesBit(p, EffectOn(p, r).value, Handle(p, r).port, b) {
        assert FollowsBit(p, r, b);
      }
    }
  }

  lemma EffectAgrees(p: Port, h: seq<Event>, r: Request)
    requires Match(p, h)
    ensures EffectOn(p, r) == Effect(b => Holds(h, b), r)
  {
    hide Test, Holds;
    assert forall b: Bit :: Test(p, b) == Holds(h, b);
  }

  // In every run each bit of the driver's port words is what the reference says, and each request that the driver
  // acts on is an event of the reference and the other way round.
  lemma PortRefinesHistory(requests: seq<Request>, b: Bit)
    ensures Test(After(requests), b) <==> Holds(Events(requests), b)
  {
    WholePort(requests);
  }

  lemma {:induction false} WholePort(requests: seq<Request>)
    ensures Match(After(requests), Events(requests))
  {
    if requests == [] {
      assert Match(Off, []);
    } else {
      hide Match, Effect, Moves, Legal;
      var before, r := requests[..|requests| - 1], requests[|requests| - 1];
      var p, h := After(before), Events(before);
      WholePort(before);
      AlwaysLegal(before);
      AlwaysFollows(p, r);
      EffectAgrees(p, h, r);
      var e := Effect(b => Holds(h, b), r);
      if e.Some? {
        MatchMoves(p, h, e.value, Handle(p, r).port);
      }
    }
  }

  // --- What the history says about single bits ---

  // A reset starts only on a connected port and completes only if it was started.
  ghost predicate Justified(h: seq<Event>, k: nat)
    requires k < |h|
  {
    && (h[k].ResetStart? ==> Holds(h[..k], Connected))
    && (h[k].ResetDone? ==> Holds(h[..k], Resetting))
  }

  lemma {:induction false} EventsJustified(requests: seq<Request>, k: nat)
    requires k < |Events(requests)|
    ensures Justified(Events(requests), k)
  {
    hide Holds;
    var before, r := requests[..|requests| - 1], requests[|requests| - 1];
    var h := Events(before);
    assert Events(requests)[..k] == h[..k];
    if k < |h| {
      EventsJustified(before, k);
    } else {
      assert h[..k] == h;
    }
  }

  // The port was plugged in at c, a reset was requested at r and reported complete with ENABLE at d; since c the
  // device was neither replaced, removed nor powered off, and since d nothing disabled the port.
  ghost predicate ResetToEnable(h: seq<Event>, c: nat, r: nat, d: nat) {
    && c < r < d < |h|
    && h[c].Connect? && h[r].ResetStart? && h[d].ResetDone? && h[d].enabled
    && (forall j :: c < j < |h| ==> !Replugged(h[j]))
    && (forall j :: d < j < |h| ==> !h[j].HostDisable? && !h[j].DeviceDisable? && !h[j].ResetStart?)
  }

  // A port is enabled if and only if a reset completed on the device now plugged in and nothing disabled it since.
  lemma EnabledIffReset(requests: seq<Request>)
    ensures After(requests).status & ENABLE != 0 <==> exists c, r, d :: ResetToEnable(Events(requests), c, r, d)
  {
    hide After, Events, Holds, ResetToEnable;
    var h := Events(requests);
    PortRefinesHistory(requests, Enabled);
    if Holds(h, Enabled) {
      var c, r, d := EnabledWasReset(requests);
    }
    if c, r, d :| ResetToEnable(h, c, r, d) {
      ResetIsEnabled(h, c, r, d);
    }
  }

  lemma EnabledWasReset(requests: seq<Request>) returns (c: nat, r: nat, d: nat)
    requires Holds(Events(requests), Enabled)
    ensures ResetToEnable(Events(requests), c, r, d)
  {
    hide Events, Holds;
    var h := Events(requests);
    d := HeldWasRaised(h, Enabled);
    EventsJustified(requests, d);
    r := HeldWasRaised(h[..d], Resetting);
    EventsJustified(requests, r);
    assert h[..d][..r] == h[..r];
    c := HeldWasRaised(h[..r], Connected);
    Unbroken(h, c, r, d);
  }

  lemma ResetIsEnabled(h: seq<Event>, c: nat, r: nat, d: nat)
    requires ResetToEnable(h, c, r, d)
    ensures Holds(h, Enabled)
  {
    hide Holds;
    var k := LastRaise(h, d, Enabled);
    RaisedIsHeld(h, Enabled, k);
  }

  lemma Unbroken(h: seq<Event>, c: nat, r: nat, d: nat)
    requires c < r < d < |h| && h[r].ResetStart? && h[d].ResetDone?
    requires forall j :: d < j < |h| ==> !Drops(h[j], Enabled)
    requires forall j :: r < j < d ==> !Drops(h[..d][j], Resetting)
    requires forall j :: c < j < r ==> !Drops(h[..r][j], Connected) && !Raises(h[..r][j], Connected)
    ensures forall j :: c < j < |h| ==> !Replugged(h[j])
  {
    forall j | c < j < |h| ensures !Replugged(h[j]) {
      if j < r {
        assert h[..r][j] == h[j];
      } else if r < j < d {
        assert h[..d][j] == h[j];
      }
    }
  }

  // If nothing after d drops a bit that d raised, some event is the last to raise it.
  lemma {:induction false} LastRaise(h: seq<Event>, d: nat, b: Bit) returns (k: nat)
    requires d < |h| && Raises(h[d], b) && forall j :: d < j < |h| ==> !Drops(h[j], b)
    ensures RaisedLast(h, b, k)
    decreases |h| - d
  {
    if j :| d < j < |h| && Raises(h[j], b) {
      k := LastRaise(h, j, b);
    } else {
      k := d;
    }
  }

  // The overcurrent bit is the one in the latest accepted overcurrent report, whatever else happened to the port.
  lemma OvercurrentIsLatestReport(requests: seq<Request>)
    ensures After(requests).status & OVERCURRENT != 0 <==>
            var h := Events(requests);
            exists k :: 0 <= k < |h| && h[k] == OverCurrentReport(true)
                && forall j :: k < j < |h| ==> !h[j].OverCurrentReport?
  {
    hide After, Events, Holds;
    var h := Events(requests);
    PortRefinesHistory(requests, OverCurrent);
    if k :| 0 <= k < |h| && h[k] == OverCurrentReport(true) && forall j :: k < j < |h| ==> !h[j].OverCurrentReport? {
      RaisedIsHeld(h, OverCurrent, k);
    }
    if Holds(h, OverCurrent) {
      var k := HeldWasRaised(h, OverCurrent);
      assert forall j :: k < j < |h| ==> !h[j].OverCurrentReport?;
    }
  }

  // --- What can be reached ---

  // A reset always completes: on a legal port that is resetting, a report with the RESET change and the RESET status
  // clear is accepted, and it enables the port if and only if it says so.
  lemma ResetCompletes(p: Port, status: bv16)
    requires Legal(p) && p.status & 0x0010 != 0 && status & 0x0010 == 0
    ensures var o := Handle(p, Stat(status, 0x0010));
            && o.Changed? && o.port.status & 0x0010 == 0 && o.port.change & 0x0010 != 0
            && (o.port.status & 0x0002 != 0 <==> status & 0x0002 != 0)
  {
    hide Legal, EffectOn, Handle, MovesBit;
    ResettingIsConnected(p);
    ResetEvent(p, status);
    BitFollows(p, Stat(status, C_RESET), Resetting);
    BitFollows(p, Stat(status, C_RESET), ResetChange);
    BitFollows(p, Stat(status, C_RESET), Enabled);
    ResetDoneBits(p, status, Handle(p, Stat(status, C_RESET)).port);
  }

  lemma ResettingIsConnected(p: Port)
    requires Legal(p) && On(p.status, RESET)
    ensures On(p.status, CONNECTION) && On(p.status, POWER) && !On(p.status, ENABLE)
  {
  }

  lemma ResetEvent(p: Port, status: bv16)
    requires On(p.status, RESET) && On(p.status, CONNECTION) && On(p.status, POWER) && !On(status, RESET)
    ensures EffectOn(p, Stat(status, C_RESET)) == Some(ResetDone(On(status, ENABLE), false))
  {
    hide On;
  }

  lemma ResetDoneBits(p: Port, status: bv16, q: Port)
    requires !On(p.status, ENABLE)
    requires MovesBit(p, ResetDone(On(status, ENABLE), false), q, Resetting)
    requires MovesBit(p, ResetDone(On(status, ENABLE), false), q, ResetChange)
    requires MovesBit(p, ResetDone(On(status, ENABLE), false), q, Enabled)
    ensures !On(q.status, RESET) && On(q.change, C_RESET) && (On(q.status, ENABLE) <==> On(status, ENABLE))
  {
    hide On;
  }

  lemma AlreadyLow(w: bv16, m: bv16)
    ensures !On(w, m) ==> Lower(w, m) == w
  {
  }

  lemma AlreadyHigh(w: bv16, m: bv16)
    requires Single(m)
    ensures On(w, m) ==> Raise(w, m) == w
  {
  }

  // Change feature 16 + k stands for bit k of the change word.
  lemma ChangeFeatures(p: Port, feature: nat, m: bv16)
    requires (feature, m) in {(16, 0x0001), (17, 0x0002), (18, 0x0004), (19, 0x0008), (20, 0x0010)}
    ensures Turns(p, Clear(feature), p.(change := Lower(p.change, m)))
    ensures Turns(p, Set(feature), p.(change := Raise(p.change, m)))
  {
    hide On, Raise, Lower, ChangeBit;
    BitOfFeature(feature, m);
    AlreadyLow(p.change, m);
    AlreadyHigh(p.change, m);
  }

  lemma BitOfFeature(feature: nat, m: bv16)
    requires (feature, m) in {(16, 0x0001), (17, 0x0002), (18, 0x0004), (19, 0x0008), (20, 0x0010)}
    ensures 16 <= feature <= 20 && ChangeBit(feature) == m && Single(m)
  {
  }

  predicate Turns(p: Port, r: Request, q: Port) {
    Result(p, Handle(p, r)) == q
  }

  ghost predicate Reached(p: Port) {
    exists requests :: After(requests) == p
  }

  lemma Then(p: Port, r: Request, q: Port)
    requires Reached(p) && Turns(p, r, q)
    ensures Reached(q)
  {
    hide Handle;
    var requests :| After(requests) == p;
    assert (requests + [r])[..|requests|] == requests;
    assert After(requests + [r]) == q;
  }

  // One run through all that can happen to a port, in numbers.

  // A high-speed device is plugged in, reset and enabled.
  lemma TurnsPluggedIn()
    ensures Turns(Port(0x0000, 0x0000, 0), Set(8), Port(0x0100, 0x0000, 0))
    ensures Turns(Port(0x0100, 0x0000, 0), Stat(0x0401, 0x0001), Port(0x0501, 0x0001, 0))
    ensures Turns(Port(0x0501, 0x0001, 0), Set(4), Port(0x0511, 0x0001, 0))
    ensures Turns(Port(0x0511, 0x0001, 0), Stat(0x0503, 0x0010), Port(0x0503, 0x0011, 0))
  {
  }

  // It is suspended, resumed, and in overcurrent.
  lemma TurnsSuspended()
    ensures Turns(Port(0x0503, 0x0011, 0), Set(2), Port(0x0507, 0x0011, 0))
    ensures Turns(Port(0x0507, 0x0011, 0), Clear(2), Port(0x0507, 0x0011, 1))
    ensures Turns(Port(0x0507, 0x0011, 1), Stat(0x0503, 0x0004), Port(0x0503, 0x0015, 0))
    ensures Turns(Port(0x0503, 0x0015, 0), Stat(0x0008, 0x0008), Port(0x050B, 0x001D, 0))
  {
  }

  // Its change is acknowledged, it is suspended with the bus, disabled, and its port is switched off.
  lemma TurnsSwitchedOff()
    ensures Turns(Port(0x050B, 0x001D, 0), Clear(16), Port(0x050B, 0x001C, 0))
    ensures Turns(Port(0x050B, 0x001C, 0), BusSuspend, Port(0x050F, 0x001C, 0))
    ensures Turns(Port(0x050F, 0x001C, 0), Stat(0x0000, 0x0002), Port(0x0509, 0x001E, 0))
    ensures Turns(Port(0x0509, 0x001E, 0), Clear(8), Port(0x0008, 0x0008, 0))
  {
  }

  // A low-speed device is plugged in, fails its reset, and is taken away.
  lemma TurnsUnplugged()
    ensures Turns(Port(0x0008, 0x0008, 0), Set(8), Port(0x0108, 0x0008, 0))
    ensures Turns(Port(0x0108, 0x0008, 0), Stat(0x0601, 0x0001), Port(0x0309, 0x0009, 0))
    ensures Turns(Port(0x0309, 0x0009, 0), Set(4), Port(0x0319, 0x0009, 0))
    ensures Turns(Port(0x0319, 0x0009, 0), Stat(0x0000, 0x0012), Port(0x0309, 0x001B, 0))
    ensures Turns(Port(0x0309, 0x001B, 0), Stat(0x0000, 0x0001), Port(0x0108, 0x001B, 0))
  {
  }

  // The whole run: each of the fourteen bits is set at some time and clear at another.
  lemma Walkthrough()
    ensures Reached(Port(0x0100, 0x0000, 0))
    ensures Reached(Port(0x0501, 0x0001, 0))
    ensures Reached(Port(0x0511, 0x0001, 0))
    ensures Reached(Port(0x0503, 0x0011, 0))
    ensures Reached(Port(0x0507, 0x0011, 0))
    ensures Reached(Port(0x0507, 0x0011, 1))
    ensures Reached(Port(0x0503, 0x0015, 0))
    ensures Reached(Port(0x050B, 0x001D, 0))
    ensures Reached(Port(0x050B, 0x001C, 0))
    ensures Reached(Port(0x050F, 0x001C, 0))
    ensures Reached(Port(0x0509, 0x001E, 0))
    ensures Reached(Port(0x0008, 0x0008, 0))
    ensures Reached(Port(0x0108, 0x0008, 0))
    ensures Reached(Port(0x0309, 0x0009, 0))
    ensures Reached(Port(0x0319, 0x0009, 0))
    ensures Reached(Port(0x0309, 0x001B, 0))
    ensures Reached(Port(0x0108, 0x001B, 0))
  {
    hide Turns, Reached;
    StartIsReached();
    TurnsPluggedIn();
    Then(Port(0x0000, 0x0000, 0), Set(8), Port(0x0100, 0x0000, 0));
    Then(Port(0x0100, 0x0000, 0), Stat(0x0401, 0x0001), Port(0x0501, 0x0001, 0));
    Then(Port(0x0501, 0x0001, 0), Set(4), Port(0x0511, 0x0001, 0));
    Then(Port(0x0511, 0x0001, 0), Stat(0x0503, 0x0010), Port(0x0503, 0x0011, 0));
    TurnsSuspended();
    Then(Port(0x0503, 0x0011, 0), Set(2), Port(0x0507, 0x0011, 0));
    Then(Port(0x0507, 0x0011, 0), Clear(2), Port(0x0507, 0x0011, 1));
    Then(Port(0x0507, 0x0011, 1), Stat(0x0503, 0x0004), Port(0x0503, 0x0015, 0));
    Then(Port(0x0503, 0x0015, 0), Stat(0x0008, 0x0008), Port(0x050B, 0x001D, 0));
    TurnsSwitchedOff();
    Then(Port(0x050B, 0x001D, 0), Clear(16), Port(0x050B, 0x001C, 0));
    Then(Port(0x050B, 0x001C, 0), BusSuspend, Port(0x050F, 0x001C, 0));
    Then(Port(0x050F, 0x001C, 0), Stat(0x0000, 0x0002), Port(0x0509, 0x001E, 0));
    Then(Port(0x0509, 0x001E, 0), Clear(8), Port(0x0008, 0x0008, 0));
    TurnsUnplugged();
    Then(Port(0x0008, 0x0008, 0), Set(8), Port(0x0108, 0x0008, 0));
    Then(Port(0x0108, 0x0008, 0), Stat(0x0601, 0x0001), Port(0x0309, 0x0009, 0));
    Then(Port(0x0309, 0x0009, 0), Set(4), Port(0x0319, 0x0009, 0));
    Then(Port(0x0319, 0x0009, 0), Stat(0x0000, 0x0012), Port(0x0309, 0x001B, 0));
    Then(Port(0x0309, 0x001B, 0), Stat(0x0000, 0x0001), Port(0x0108, 0x001B, 0));
  }

  lemma StartIsReached()
    ensures Reached(Port(0, 0, 0))
  {
    assert After([]) == Port(0, 0, 0);
  }
}
