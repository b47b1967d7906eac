/** The root hub of the driver, with its port array and flag word, proved against the hub machine. */
module RootHubDriver {
  import opened Basics
  import opened Errno
  import opened Ports
  import opened PortHistory
  import opened HubMachine
  import BitSet

  // One port has handled a request, and the others are as they were.
  function Answered(ports: seq<Port>, index: nat, r: Request): seq<Port>
    requires 1 <= index <= |ports|
  {
    ports[index - 1 := Result(ports[index - 1], Handle(ports[index - 1], r))]
  }

  // A word as the two bytes of a reply, low byte first, and back.
  function Bytes(w: bv16): (b: seq<bv8>)
    ensures |b| == 2 && Word(b[0], b[1]) == w
  {
    [(w & 0xff) as bv8, (w >> 8) as bv8]
  }

  function Word(low: bv8, high: bv8): bv16 {
    ((high as bv16) << 8) | (low as bv16)
  }

  // The low byte holds bits 0 to 7, and the high byte bits 8 to 15.
  lemma WordBytes(low: bv8, high: bv8)
    ensures Word(low, high) & 0x00ff == low as bv16 && Word(low, high) >> 8 == high as bv16
  {
  }

  // The three switches below work on the words of one port, which the driver holds by pointer while it has the lock.

  lemma ClearActs(port: Port, feature: nat)
    ensures Legal(port) ==>
              var o := ClearFeature(port, feature); ActsAs(port, Clear(feature), Result(port, o), o.Changed?)
  {
    hide Legal, ActsAs, ClearFeature;
    if Legal(port) { AlwaysFollows(port, Clear(feature)); }
  }

  lemma SetActs(port: Port, feature: nat)
    ensures Legal(port) ==>
              var o := SetFeature(port, feature); ActsAs(port, Set(feature), Result(port, o), o.Changed?)
  {
    hide Legal, ActsAs, SetFeature;
    if Legal(port) { AlwaysFollows(port, Set(feature)); }
  }

  lemma StatActs(port: Port, status: bv16, change: bv16)
    ensures Legal(port) && Admitted(change) ==>
              var o := ApplyStat(port, status, change); ActsAs(port, Stat(status, change), Result(port, o), o.Changed?)
  {
    hide Legal, ActsAs, ApplyStat;
    if Legal(port) { AlwaysFollows(port, Stat(status, change)); }
  }

  // The switch of vhci_hub_control for ClearPortFeature.
  method ClearInWords(port: Port, feature: nat) returns (p: Port, changed: bool, stall: bool)
    ensures Legal(port) ==> ActsAs(port, Clear(feature), p, changed)
    ensures stall <==> feature !in {0, 1, 2, 3, 4, 8, 9, 10, 16, 17, 18, 19, 20, 22}
    ensures ClearFeature(port, feature) == if stall then Refused else if changed then Changed(p) else Ignored
    ensures !changed ==> p == port
    ensures stall ==> !changed
  {
    hide On, Raise, Lower, Keep, RaiseFlag, LowerFlag, ChangeBit, ActsAs, Legal;
    ClearActs(port, feature);
    p, changed, stall := port, false, false;
    if feature == FEAT_SUSPEND {
      if On(p.status, SUSPEND) {
        p := p.(flags := RaiseFlag(p.flags));
        changed := true;
      }
    } else if feature == FEAT_POWER {
      if On(p.status, POWER) {
        p := p.(status := Keep(p.status, OVERCURRENT));
        p := p.(change := Keep(p.change, C_OVERCURRENT));
        p := p.(flags := LowerFlag(p.flags));
        changed := true;
      }
    } else if feature == FEAT_ENABLE {
      if On(p.status, ENABLE) {
        p := p.(status := Lower(p.status, ENABLE | SUSPEND));
        p := p.(change := Lower(p.change, C_ENABLE | C_SUSPEND));
        p := p.(flags := LowerFlag(p.flags));
        changed := true;
      }
    } else if feature == FEAT_CONNECTION || feature == FEAT_OVER_CURRENT || feature == FEAT_RESET
           || feature == FEAT_LOWSPEED || feature == FEAT_HIGHSPEED || feature == FEAT_INDICATOR {
    } else if FEAT_C_CONNECTION <= feature <= FEAT_C_RESET {
      if On(p.change, ChangeBit(feature)) {
        p := p.(change := Lower(p.change, ChangeBit(feature)));
        changed := true;
      }
    } else {
      stall := true;
    }
  }

  // The switch of vhci_hub_control for SetPortFeature.
  method SetInWords(port: Port, feature: nat) returns (p: Port, changed: bool, stall: bool)
    ensures Legal(port) ==> ActsAs(port, Set(feature), p, changed)
    ensures stall <==> feature !in {0, 2, 3, 4, 8, 9, 10, 16, 17, 18, 19, 20, 22}
    ensures SetFeature(port, feature) == if stall then Refused else if changed then Changed(p) else Ignored
    ensures !changed ==> p == port
    ensures stall ==> !changed
  {
    hide On, Raise, Lower, Keep, RaiseFlag, LowerFlag, ChangeBit, ActsAs, Legal;
    SetActs(port, feature);
    p, changed, stall := port, false, false;
    if feature == FEAT_SUSPEND {
      if On(p.status, ENABLE) && !On(p.status, SUSPEND) {
        p := p.(status := Raise(p.status, SUSPEND));
        changed := true;
      }
    } else if feature == FEAT_POWER {
      if !On(p.status, POWER) {
        p := p.(status := Raise(p.status, POWER));
        changed := true;
      }
    } else if feature == FEAT_RESET {
      if On(p.status, CONNECTION) && !On(p.status, RESET) {
        p := p.(status := Keep(p.status, POWER | CONNECTION | LOW_SPEED | HIGH_SPEED | OVERCURRENT));
        p := p.(status := Raise(p.status, RESET));
        p := p.(flags := LowerFlag(p.flags));
        changed := true;
      }
    } else if feature == FEAT_CONNECTION || feature == FEAT_OVER_CURRENT || feature == FEAT_LOWSPEED
           || feature == FEAT_HIGHSPEED || feature == FEAT_INDICATOR {
    } else if FEAT_C_CONNECTION <= feature <= FEAT_C_RESET {
      if !On(p.change, ChangeBit(feature)) {
        p := p.(change := Raise(p.change, ChangeBit(feature)));
        changed := true;
      }
    } else {
      stall := true;
    }
  }

  // The reports that a port with a given status word accepts. It must have power; a device may be plugged in or taken
  // away, or the current may be reported, at any time; a disabled or resumed port must be connected and not in reset, and
  // a finished reset must have been started.
  predicate Reportable(was: bv16, status: bv16, change: bv16) {
    && was & 0x0100 != 0
    && (|| change == 0x0001 || change == 0x0008
        || (was & 0x0001 != 0 && was & 0x0010 == 0
            && (|| (change == 0x0002 && status & 0x0002 == 0)
                || (change == 0x0004 && was & 0x0002 != 0 && status & 0x0004 == 0)))
        || (was & 0x0001 != 0 && was & 0x0010 != 0 && status & 0x0010 == 0
            && (change == 0x0010 || (change == 0x0012 && status & 0x0002 == 0))))
  }

  lemma ReportableIff(p: Port, status: bv16, change: bv16)
    ensures Handle(p, Stat(status, change)).Changed? <==> Reportable(p.status, status, change)
  {
  }

  // The status word of a port that a device was plugged into, or taken from.
  method PlugInWords(status: bv16, overcurrent: bv16) returns (w: bv16)
    ensures w == Plug(status, overcurrent)
  {
    if On(status, CONNECTION) {
      var speed := if On(status, LOW_SPEED) then LOW_SPEED else if On(status, HIGH_SPEED) then HIGH_SPEED else 0;
      w := Raise(POWER | CONNECTION | speed, overcurrent);
    } else {
      w := Raise(POWER, overcurrent);
    }
  }

  // The switch of usb_vhci_apply_port_stat; every accepted report marks the port.
  method StatInWords(port: Port, status: bv16, change: bv16) returns (p: Port, refused: bool)
    ensures Legal(port) && Admitted(change) ==> ActsAs(port, Stat(status, change), p, !refused)
    ensures ApplyStat(port, status, change) == if refused then Refused else Changed(p)
    ensures refused ==> p == port
  {
    hide On, Raise, Lower, Keep, RaiseFlag, LowerFlag, Plug, ActsAs, Legal, Admitted;
    StatActs(port, status, change);
    p, refused := port, true;
    if !On(p.status, POWER) {
      return;
    }
    if change == C_CONNECTION {
      var overcurrent := Keep(p.status, OVERCURRENT);
      p := p.(change := Raise(p.change, C_CONNECTION));
      var plugged := PlugInWords(status, overcurrent);
      p := p.(status := plugged);
      p := p.(flags := LowerFlag(p.flags));
    } else if change == C_ENABLE {
      if !On(p.status, CONNECTION) || On(p.status, RESET) || On(status, ENABLE) {
        return;
      }
      p := p.(change := Raise(p.change, C_ENABLE));
      p := p.(status := Lower(p.status, ENABLE));
      p := p.(flags := LowerFlag(p.flags));
      p := p.(status := Lower(p.status, SUSPEND));
    } else if change == C_SUSPEND {
      if !On(p.status, CONNECTION) || !On(p.status, ENABLE) || On(p.status, RESET) || On(status, SUSPEND) {
        return;
      }
      p := p.(flags := LowerFlag(p.flags));
      p := p.(change := Raise(p.change, C_SUSPEND));
      p := p.(status := Lower(p.status, SUSPEND));
    } else if change == C_OVERCURRENT {
      p := p.(change := Raise(p.change, C_OVERCURRENT));
      p := p.(status := Lower(p.status, OVERCURRENT));
      p := p.(status := Raise(p.status, Keep(status, OVERCURRENT)));
    } else {
      if !On(p.status, CONNECTION) || !On(p.status, RESET) || On(status, RESET) {
        return;
      }
      if On(change, C_ENABLE) {
        if On(status, ENABLE) {
          return;
        }
        p := p.(change := Raise(p.change, C_ENABLE));
      } else {
        p := p.(status := Raise(p.status, Keep(status, ENABLE)));
      }
      p := p.(change := Raise(p.change, C_RESET));
      p := p.(status := Lower(p.status, RESET));
    }
    refused := false;
  }

  class RootHub {
    const ports: array<Port>
    var portUpdate: bv32
    var power: Power
    var accessible: bool
    // the operations so far, and the hub they lead to
    ghost var ops: seq<Op>
    ghost var model: Hub

    // The fields are those of the model.
    ghost predicate Represents()
      reads this, ports
    {
      && ports.Length <= 31
      && model.ports == ports[..]
      && model.marks == BitSet.Members(portUpdate)
      && model.power == power
      && model.accessible == accessible
      && Coherent(model)
    }

    ghost predicate Valid()
      reads this, ports
    {
      Represents() && model == Play(ports.Length, ops)
    }

    // What is proved of runs holds of this hub: here, that its ports are legal.
    lemma PortIsLegal(k: nat)
      requires Valid() && k < ports.Length
      ensures Legal(ports[k])
    {
      hide Play, Legal;
      EveryPortLegal(ports.Length, ops, k + 1);
    }

    // The hub has made one more operation.
    lemma OneMore(before: seq<Op>, op: Op)
      ensures Play(ports.Length, before + [op]) == Apply(Play(ports.Length, before), op)
    {
      assert Init(before + [op]) == before;
    }

    // vhci_start. Registration refuses more than 31 ports.
    constructor (n: nat)
      requires n <= 31
      ensures Valid() && fresh(ports) && ports.Length == n && ops == []
      ensures (forall i :: 0 <= i < n ==> ports[i] == Port(0, 0, 0)) && portUpdate == 0 && power.Running? && accessible
    {
      ports := new Port[n](i => Off);
      portUpdate := 0;
      power := Running;
      accessible := true;
      ops, model := [], Start(n);
      new;
      BitSet.ZeroIsEmpty(0);
      AlwaysCoherent(n, []);
      assert model.ports == ports[..];
    }

    // vhci_port_update
    method MarkPort(k: nat)
      requires k < 32
      modifies this`portUpdate
      ensures BitSet.Members(portUpdate) == BitSet.Members(old(portUpdate)) + {k}
    {
      BitSet.SetAndClear(portUpdate, k);
      portUpdate := BitSet.With(portUpdate, k);
    }

    // Writes back the words of a port and marks it, if they changed.
    method Store(k: nat, p: Port, changed: bool, ghost r: Request)
      requires Represents() && 1 <= k <= ports.Length
      requires changed <==> Handle(model.ports[k - 1], r).Changed?
      requires p == Result(model.ports[k - 1], Handle(model.ports[k - 1], r))
      modifies this`portUpdate, this`model, ports
      ensures Represents() && model == OnPort(old(model), k, r)
      ensures ports[..] == old(ports[..])[k - 1 := p] && (!changed ==> portUpdate == old(portUpdate))
    {
      hide Handle, BitSet.Members, Coherent;
      OnPortCoherent(model, k, r);
      model := OnPort(model, k, r);
      ports[k - 1] := p;
      if changed {
        MarkPort(k);
      }
      assert ports[..] == old(ports[..])[k - 1 := p];
    }

    // vhci_hub_control. The bytes of a hub descriptor are not part of this model.
    method HubControl(kind: Kind, value: nat, index: nat, length: nat) returns (ret: int, reply: seq<bv8>, poll: bool)
      requires Valid()
      modifies this`portUpdate, this`ops, this`model, ports
      ensures Valid() && ops == old(ops) + [Control(kind, value, index, length)]
      ensures model == Apply(old(model), Control(kind, value, index, length))
      ensures ret == -ETIMEDOUT <==> !old(accessible)
      ensures ret == 0 || ret == -EPIPE || ret == -ETIMEDOUT
      ensures ret == 0 <==>
                old(accessible)
                && match kind
                   case ClearHubFeature => index == 0 && length == 0 && (value == 0 || value == 1)
                   case SetHubFeature => index == 0 && length == 0 && (value == 0 || value == 1)
                   case ClearPortFeature =>
                     1 <= index <= ports.Length && length == 0 && value in {0, 1, 2, 3, 4, 8, 9, 10, 16, 17, 18, 19, 20, 22}
                   case SetPortFeature =>
                     1 <= index <= ports.Length && length == 0 && value in {0, 2, 3, 4, 8, 9, 10, 16, 17, 18, 19, 20, 22}
                   case GetHubDescriptor => index == 0
                   case GetHubStatus => value == 0 && index == 0 && length == 4
                   case GetPortStatus => value == 0 && 1 <= index <= ports.Length && length == 4
                   case Unknown => false
      ensures ret == 0 && kind.ClearPortFeature? ==>
                ports[..] == Answered(old(ports[..]), index, Clear(value))
      ensures ret == 0 && kind.SetPortFeature? ==>
                ports[..] == Answered(old(ports[..]), index, Set(value))
      ensures ret != 0 || !(kind.ClearPortFeature? || kind.SetPortFeature?) ==>
                ports[..] == old(ports[..]) && portUpdate == old(portUpdate)
      ensures poll <==> old(accessible) && exists i :: 0 <= i < |model.ports| && model.ports[i].change != 0
      ensures ret == 0 && kind.GetPortStatus? ==>
                && |reply| == 4 && Word(reply[0], reply[1]) == ports[index - 1].status
                && Word(reply[2], reply[3]) == ports[index - 1].change
      ensures ret == 0 && kind.GetHubStatus? ==> reply == [0, 0, 0, 0]
    {
      hide BitSet.Members, Coherent, ClearFeature, SetFeature, Play, ActsAs, Legal;
      OneMore(ops, Control(kind, value, index, length));
      ops := ops + [Control(kind, value, index, length)];
      ret, reply, poll := 0, [], false;
      if !accessible {
        return -ETIMEDOUT, [], false;
      }
      match kind {
        case ClearHubFeature =>
          if index != 0 || length != 0 || value > 1 { ret := -EPIPE; }
        case SetHubFeature =>
          if index != 0 || length != 0 || value > 1 { ret := -EPIPE; }
        case ClearPortFeature =>
          if index == 0 || index > ports.Length || length != 0 {
            ret := -EPIPE;
          } else {
            var p, changed, stall := ClearInWords(ports[index - 1], value);
            Store(index, p, changed, Clear(value));
            if stall { ret := -EPIPE; }
          }
        case GetHubDescriptor =>
          if index != 0 { ret := -EPIPE; }
        case GetHubStatus =>
          if value != 0 || index != 0 || length != 4 { ret := -EPIPE; } else { reply := [0, 0, 0, 0]; }
        case GetPortStatus =>
          if value != 0 || index == 0 || index > ports.Length || length != 4 {
            ret := -EPIPE;
          } else {
            reply := Bytes(ports[index - 1].status) + Bytes(ports[index - 1].change);
          }
        case SetPortFeature =>
          if index == 0 || index > ports.Length || length != 0 {
            ret := -EPIPE;
          } else {
            var p, changed, stall := SetInWords(ports[index - 1], value);
            Store(index, p, changed, Set(value));
            if stall { ret := -EPIPE; }
          }
        case Unknown =>
          ret := -EPIPE;
      }
      poll := AnyChange();
    }

    // Whether some port has change bits.
    method AnyChange() returns (any: bool)
      requires Represents()
      ensures any <==> exists i :: 0 <= i < |model.ports| && model.ports[i].change != 0
    {
      any := false;
      for i := 0 to ports.Length
        invariant any <==> exists j :: 0 <= j < i && model.ports[j].change != 0
      {
        if ports[i].change != 0 {
          assert model.ports[i].change != 0;
          any := true;
        }
      }
    }

    // vhci_hub_status: the status change bitmap of section 11.12.4 of the USB 2.0 specification. Bit k stands for
    // port k, and bit 0, for the hub, is always clear. resume says that the root hub is to be resumed.
    method HubStatus(buf: array<bv8>) returns (changed: bool, resume: bool)
      requires Valid() && buf.Length >= 1 + ports.Length / 8 && buf as object != ports
      modifies buf
      ensures Shows(buf[..], 1 + ports.Length / 8, ports[..], if accessible then ports.Length else 0)
      ensures BitByBit(buf[..], 1 + ports.Length / 8, ports[..], if accessible then ports.Length else 0)
      ensures buf[1 + ports.Length / 8..] == old(buf[1 + ports.Length / 8..])
      ensures changed <==> accessible && exists i :: 0 <= i < ports.Length && ports[i].change != 0
      ensures resume <==> changed && power.Sleeping?
    {
      hide BitSet.InMap, BitSet.ByteWith, BitSet.Mask, Coherent, BitSet.Members, Shows, BitByBit;
      var size := 1 + ports.Length / 8;
      for j := 0 to size
        invariant forall i :: 0 <= i < j ==> buf[i] == 0
        invariant buf[size..] == old(buf[size..])
      {
        buf[j] := 0;
      }
      EmptyMap(buf[..], size, ports[..]);
      changed, resume := false, false;
      if !accessible {
        SpelledOut(buf[..], size, ports[..], 0);
        return;
      }
      for i := 0 to ports.Length
        invariant Shows(buf[..], size, ports[..], i)
        invariant buf[size..] == old(buf[size..])
        invariant changed <==> exists j :: 0 <= j < i && ports[j].change != 0
      {
        if ports[i].change != 0 {
          var bit := i + 1;
          ghost var before := buf[..];
          ShowOneMore(before, size, ports[..], i);
          buf[bit / 8] := BitSet.ByteWith(buf[bit / 8], bit % 8);
          assert buf[..] == before[bit / 8 := BitSet.ByteWith(before[bit / 8], bit % 8)];
          changed := true;
        } else {
          ShowNoMore(buf[..], size, ports[..], i);
        }
      }
      resume := changed && power.Sleeping?;
      SpelledOut(buf[..], size, ports[..], ports.Length);
    }

    // usb_vhci_apply_port_stat
    method PortStatIoctl(status: bv16, change: bv16, index: nat) returns (ret: int, poll: bool)
      requires Valid()
      modifies this`portUpdate, this`ops, this`model, ports
      ensures Valid() && ops == old(ops) + [PortStat(status, change, index)]
      ensures model == Apply(old(model), PortStat(status, change, index))
      ensures poll <==> ret == 0
      ensures ret == -EINVAL <==>
                index == 0 || index > ports.Length || change !in {0x0001, 0x0002, 0x0004, 0x0008, 0x0010, 0x0012}
      ensures ret == 0 <==> 1 <= index <= ports.Length && Reportable(old(ports[..])[index - 1].status, status, change)
      ensures ret == 0 || ret == -EINVAL || ret == -EPROTO
      ensures ret == 0 ==>
                && ports[..] == Answered(old(ports[..]), index, Stat(status, change))
                && index in model.marks
      ensures ret != 0 ==> ports[..] == old(ports[..]) && portUpdate == old(portUpdate)
    {
      hide BitSet.Members, Coherent, ApplyStat, Play, ActsAs, Legal, Reportable;
      OneMore(ops, PortStat(status, change, index));
      if 1 <= index <= ports.Length {
        ReportableIff(ports[index - 1], status, change);
      }
      ops := ops + [PortStat(status, change, index)];
      if index == 0 || index > ports.Length {
        return -EINVAL, false;
      }
      if !Admitted(change) {
        return -EINVAL, false;
      }
      var p, refused := StatInWords(ports[index - 1], status, change);
      Store(index, p, !refused, Stat(status, change));
      if refused {
        return -EPROTO, false;
      }
      return 0, true;
    }

    // vhci_bus_suspend
    method SuspendRootHub()
      requires Valid()
      modifies this`portUpdate, this`power, this`ops, this`model, ports
      ensures Valid() && ops == old(ops) + [SuspendBus] && model == Apply(old(model), SuspendBus)
      ensures power.Sleeping?
      ensures forall i :: 0 <= i < ports.Length ==> SuspendedWithBus(old(ports[..])[i], ports[i], i + 1 in model.marks)
    {
      hide BitSet.Members, Coherent, Play, SuspendedWithBus;
      OneMore(ops, SuspendBus);
      ghost var h := model;
      for i := 0 to ports.Length
        invariant Represents() && model == SuspendPorts(h, i) && power == old(power) && ops == old(ops)
      {
        var p, changed := ports[i], false;
        if On(p.status, ENABLE) && !On(p.status, SUSPEND) {
          p := p.(status := Raise(p.status, SUSPEND));
          p := p.(flags := LowerFlag(p.flags));
          changed := true;
        }
        Store(i + 1, p, changed, BusSuspend);
      }
      power := Sleeping;
      ops := ops + [SuspendBus];
      SuspendCoherent(h, |h.ports|);
      model := model.(power := Sleeping);
      StillCoherent(model.(power := old(power)), model);
      SuspendedPorts(h);
    }

    // vhci_bus_resume
    method ResumeRootHub() returns (ret: int)
      requires Valid()
      modifies this`power, this`ops, this`model
      ensures Valid() && ops == old(ops) + [ResumeBus] && model == Apply(old(model), ResumeBus)
      ensures ret == if accessible then 0 else -ENODEV
      ensures power == if accessible then Running else old(power)
    {
      hide BitSet.Members, Coherent, Play;
      OneMore(ops, ResumeBus);
      ops := ops + [ResumeBus];
      if !accessible {
        ret := -ENODEV;
      } else {
        power := Running;
        StillCoherent(model, model.(power := Running));
        model := model.(power := Running);
        ret := 0;
      }
    }

    // vhci_hcd_suspend
    method SuspendController() returns (ret: int)
      requires Valid()
      modifies this`accessible, this`ops, this`model
      ensures Valid() && ops == old(ops) + [SuspendDevice]
      ensures ret == if power.Running? then -EBUSY else 0
      ensures accessible <==> old(accessible) && power.Running?
    {
      hide BitSet.Members, Coherent, Play;
      OneMore(ops, SuspendDevice);
      ops := ops + [SuspendDevice];
      ret := 0;
      if power.Running? {
        ret := -EBUSY;
      } else {
        accessible := false;
        StillCoherent(model, model.(accessible := false));
        model := model.(accessible := false);
      }
    }

    // vhci_hcd_resume, which also polls the root hub
    method ResumeController()
      requires Valid()
      modifies this`accessible, this`ops, this`model
      ensures Valid() && ops == old(ops) + [ResumeDevice] && accessible
    {
      hide BitSet.Members, Coherent, Play;
      OneMore(ops, ResumeDevice);
      ops := ops + [ResumeDevice];
      accessible := true;
      StillCoherent(model, model.(accessible := true));
      model := model.(accessible := true);
    }

    // The port that a fetch of work hands out: its mark is cleared. The caller keeps the offset of the next scan.
    method Fetched(k: nat) returns (p: Port)
      requires Valid() && k == Next(model) && k in model.marks
      modifies this`portUpdate, this`ops, this`model
      ensures Valid() && ops == old(ops) + [Fetch] && model == Report(old(model))
      ensures 1 <= k <= ports.Length && p == ports[k - 1]
    {
      hide BitSet.Members, Play, Next;
      OneMore(ops, Fetch);
      BitSet.SetAndClear(portUpdate, k);
      ApplyCoherent(model, Fetch);
      hide Coherent;
      portUpdate := BitSet.Without(portUpdate, k);
      ops, model := ops + [Fetch], Report(model);
      p := ports[k - 1];
    }
  }

  // An enabled port is suspended, and no longer resuming, and marked; any other port is left alone.
  predicate SuspendedWithBus(p: Port, q: Port, marked: bool) {
    if p.status & 0x0002 != 0 && p.status & 0x0004 == 0 then
      q == Port(p.status | 0x0004, p.change, p.flags & 0xfe) && marked
    else
      q == p
  }

  lemma SuspendWords(p: Port)
    ensures SuspendedWithBus(p, Result(p, SuspendWithBus(p)), SuspendWithBus(p).Changed?)
  {
  }

  lemma SuspendedPorts(h: Hub)
    ensures |SuspendPorts(h, |h.ports|).ports| == |h.ports|
    ensures forall i :: 0 <= i < |h.ports| ==>
              SuspendedWithBus(h.ports[i], SuspendPorts(h, |h.ports|).ports[i], i + 1 in SuspendPorts(h, |h.ports|).marks)
  {
    hide SuspendPorts;
    SameNumber(h);
    forall i | 0 <= i < |h.ports|
      ensures SuspendedWithBus(h.ports[i], SuspendPorts(h, |h.ports|).ports[i], i + 1 in SuspendPorts(h, |h.ports|).marks)
    {
      SuspendEach(h, |h.ports|, i + 1);
      SuspendWords(h.ports[i]);
    }
  }

  lemma SameNumber(h: Hub)
    ensures |SuspendPorts(h, |h.ports|).ports| == |h.ports|
  {
    if |h.ports| > 0 {
      SuspendEach(h, |h.ports|, 1);
    }
  }

  // The first size bytes of the map have bit k set exactly for the ports k up to n with a change word.
  ghost predicate Shows(bitmap: seq<bv8>, size: nat, ports: seq<Port>, n: nat)
    requires size <= |bitmap| && n <= |ports|
  {
    forall k: nat :: k / 8 < size ==> (BitSet.InMap(bitmap, k) <==> 1 <= k <= n && ports[k - 1].change != 0)
  }

  // The same byte by byte: bit j of byte i stands for port 8 i + j.
  ghost predicate BitByBit(bitmap: seq<bv8>, size: nat, ports: seq<Port>, n: nat)
    requires size <= |bitmap| && n <= |ports|
  {
    forall i, j :: 0 <= i < size && 0 <= j < 8 ==>
      (bitmap[i] & BitSet.Mask(j) != 0 <==> 1 <= 8 * i + j <= n && ports[8 * i + j - 1].change != 0)
  }

  lemma SpelledOut(bitmap: seq<bv8>, size: nat, ports: seq<Port>, n: nat)
    requires size <= |bitmap| && n <= |ports| && Shows(bitmap, size, ports, n)
    ensures BitByBit(bitmap, size, ports, n)
  {
    hide BitSet.Mask, BitSet.InMap;
    forall i, j | 0 <= i < size && 0 <= j < 8
      ensures bitmap[i] & BitSet.Mask(j) != 0 <==> 1 <= 8 * i + j <= n && ports[8 * i + j - 1].change != 0
    {
      BitSet.MapAt(bitmap, i, j);
    }
  }

  lemma EmptyMap(s: seq<bv8>, size: nat, ports: seq<Port>)
    requires size <= |s| && forall i :: 0 <= i < size ==> s[i] == 0
    ensures Shows(s, size, ports, 0)
  {
    forall k: nat | k / 8 < size ensures !BitSet.InMap(s, k) {
      BitSet.ByteAfter(0, 0, k % 8);
    }
  }

  lemma ShowNoMore(s: seq<bv8>, size: nat, ports: seq<Port>, i: nat)
    requires i < |ports| && size <= |s| && ports[i].change == 0 && Shows(s, size, ports, i)
    ensures Shows(s, size, ports, i + 1)
  {
    hide BitSet.InMap;
  }

  lemma ShowOneMore(s: seq<bv8>, size: nat, ports: seq<Port>, i: nat)
    requires i < |ports| && (i + 1) / 8 < size <= |s| && ports[i].change != 0 && Shows(s, size, ports, i)
    ensures Shows(s[(i + 1) / 8 := BitSet.ByteWith(s[(i + 1) / 8], (i + 1) % 8)], size, ports, i + 1)
  {
    hide BitSet.InMap, BitSet.ByteWith;
    var t := s[(i + 1) / 8 := BitSet.ByteWith(s[(i + 1) / 8], (i + 1) % 8)];
    forall k: nat | k / 8 < size ensures BitSet.InMap(t, k) <==> BitSet.InMap(s, k) || k == i + 1 {
      BitSet.MapAfter(s, i + 1, k);
    }
  }

  lemma StillCoherent(g: Hub, h: Hub)
    requires Coherent(g) && h == g.(power := h.power, accessible := h.accessible)
    ensures Coherent(h)
  {
  }
}
