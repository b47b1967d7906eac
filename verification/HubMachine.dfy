/** The root hub and its reporting channel as a transition system. Ports are numbered from 1. */
module HubMachine {
  import opened Basics
  import opened Ports

  datatype Kind =
    | ClearHubFeature | SetHubFeature | GetHubDescriptor | GetHubStatus
    | ClearPortFeature | SetPortFeature | GetPortStatus | Unknown

  datatype Power = Running | Sleeping

  datatype Hub = Hub(
    ports: seq<Port>,
    // port_update: the ports that changed since user space last heard of them
    marks: set<nat>,
    // port_sched_offset: the port index with which the next scan begins
    offset: nat,
    // rh_state and HCD_FLAG_HW_ACCESSIBLE
    power: Power, accessible: bool,
    // history: what user space saw last of each port, and which ports were reported to it
    view: seq<Port>, reported: seq<nat>)

  datatype Op =
    | Control(kind: Kind, value: nat, index: nat, length: nat)
    | PortStat(status: bv16, change: bv16, index: nat)
    | SuspendBus
    | ResumeBus
    | SuspendDevice
    | ResumeDevice
    | Fetch

  // vhci_start: all ports zeroed.
  function Start(n: nat): Hub {
    var zero := seq(n, i => Off);
    Hub(zero, {}, 0, Running, true, zero, [])
  }

  predicate IsPort(h: Hub, k: nat) {
    1 <= k <= |h.ports|
  }

  // A request to one port; vhci_port_update marks the port if it changed.
  function OnPort(h: Hub, k: nat, r: Request): Hub
    requires IsPort(h, k)
  {
    match Handle(h.ports[k - 1], r)
    case Changed(p) => h.(ports := h.ports[k - 1 := p], marks := h.marks + {k})
    case _ => h
  }

  function SuspendPorts(h: Hub, k: nat): Hub
    requires k <= |h.ports|
    decreases k
  {
    if k == 0 then h else
      var g := SuspendPorts(h, k - 1);
      if IsPort(g, k) then OnPort(g, k, BusSuspend) else g
  }

  // --- The scan for the next port to report ---

  // The port with which the scan begins, and how many ports it passes before it comes to port k.
  function From(h: Hub): nat {
    if h.offset >= |h.ports| then 0 else h.offset
  }

  function Distance(n: nat, from: nat, k: nat): int {
    if k - 1 >= from then k - 1 - from else k - 1 - from + n
  }

  ghost predicate IsNext(n: nat, marks: set<nat>, from: nat, k: nat) {
    k in marks && forall j :: j in marks ==> Distance(n, from, k) <= Distance(n, from, j)
  }

  // The port d places after the start of the scan.
  function Candidate(n: nat, from: nat, d: nat): nat {
    if from + d < n then from + d + 1 else from + d + 1 - n
  }

  function Scan(n: nat, marks: set<nat>, from: nat, d: nat): nat
    requires d <= n
    decreases n - d
  {
    if d == n then 0
    else if Candidate(n, from, d) in marks then Candidate(n, from, d)
    else Scan(n, marks, from, d + 1)
  }

  ghost predicate InRange(n: nat, marks: set<nat>) {
    forall k :: k in marks ==> 1 <= k <= n
  }

  // If any port is marked, the scan finds the marked port nearest to its start.
  lemma {:induction false} ScanFinds(n: nat, marks: set<nat>, from: nat, d: nat)
    requires from < n && d <= n && InRange(n, marks) && marks != {}
    requires forall j :: j in marks ==> d <= Distance(n, from, j)
    ensures IsNext(n, marks, from, Scan(n, marks, from, d))
    decreases n - d
  {
    if d < n {
      var c := Candidate(n, from, d);
      assert Distance(n, from, c) == d;
      if c !in marks {
        forall j | j in marks ensures d + 1 <= Distance(n, from, j) {
          assert Distance(n, from, j) == d ==> j == c;
        }
        ScanFinds(n, marks, from, d + 1);
      }
    }
  }

  function Next(h: Hub): nat {
    Scan(|h.ports|, h.marks, From(h), 0)
  }

  // ioc_fetch_work hands a port to user space.
  function Report(h: Hub): Hub {
    var k := Next(h);
    if IsPort(h, k) && |h.view| == |h.ports| then
      h.(marks := h.marks - {k}, offset := k, view := h.view[k - 1 := h.ports[k - 1]], reported := h.reported + [k])
    else h
  }

  // --- Operations ---

  // The request that an operation makes to port k, if any.
  function RequestTo(h: Hub, op: Op, k: nat): seq<Request> {
    match op
    case Control(ClearPortFeature, value, index, length) =>
      if h.accessible && index == k && length == 0 then [Clear(value)] else []
    case Control(SetPortFeature, value, index, length) =>
      if h.accessible && index == k && length == 0 then [Set(value)] else []
    case PortStat(status, change, index) => if index == k then [Stat(status, change)] else []
    case SuspendBus => [BusSuspend]
    case _ => []
  }

  function Apply(h: Hub, op: Op): Hub {
    match op
    case Control(ClearPortFeature, value, index, length) =>
      if h.accessible && IsPort(h, index) && length == 0 then OnPort(h, index, Clear(value)) else h
    case Control(SetPortFeature, value, index, length) =>
      if h.accessible && IsPort(h, index) && length == 0 then OnPort(h, index, Set(value)) else h
    case Control(_, _, _, _) => h
    case PortStat(status, change, index) =>
      if IsPort(h, index) then OnPort(h, index, Stat(status, change)) else h
    case SuspendBus => SuspendPorts(h, |h.ports|).(power := Sleeping)
    case ResumeBus => if h.accessible then h.(power := Running) else h
    case SuspendDevice => if h.power.Running? then h else h.(accessible := false)
    case ResumeDevice => h.(accessible := true)
    case Fetch => Report(h)
  }

  // The hub with n ports after any interleaving of operations.
  function Play(n: nat, ops: seq<Op>): Hub {
    if ops == [] then Start(n) else Apply(Play(n, Init(ops)), Last(ops))
  }

  // --- What holds after every interleaving of operations ---

  // Marks name ports; an unmarked port is as user space saw it last, or as it was at the start.
  ghost predicate Coherent(h: Hub) {
    && |h.view| == |h.ports|
    && InRange(|h.ports|, h.marks)
    && h.offset <= |h.ports|
    && forall k :: 1 <= k <= |h.ports| && k !in h.marks ==> h.ports[k - 1] == h.view[k - 1]
  }

  lemma OnPortCoherent(h: Hub, k: nat, r: Request)
    requires Coherent(h) && IsPort(h, k)
    ensures Coherent(OnPort(h, k, r)) && |OnPort(h, k, r).ports| == |h.ports|
  {
  }

  lemma {:induction false} SuspendCoherent(h: Hub, k: nat)
    requires Coherent(h) && k <= |h.ports|
    ensures Coherent(SuspendPorts(h, k)) && |SuspendPorts(h, k).ports| == |h.ports|
    decreases k
  {
    if k > 0 {
      SuspendCoherent(h, k - 1);
      OnPortCoherent(SuspendPorts(h, k - 1), k, BusSuspend);
    }
  }

  lemma ApplyCoherent(h: Hub, op: Op)
    requires Coherent(h)
    ensures Coherent(Apply(h, op)) && |Apply(h, op).ports| == |h.ports|
  {
    match op
    case Control(ClearPortFeature, value, index, length) =>
      if h.accessible && IsPort(h, index) && length == 0 { OnPortCoherent(h, index, Clear(value)); }
    case Control(SetPortFeature, value, index, length) =>
      if h.accessible && IsPort(h, index) && length == 0 { OnPortCoherent(h, index, Set(value)); }
    case PortStat(status, change, index) =>
      if IsPort(h, index) { OnPortCoherent(h, index, Stat(status, change)); }
    case SuspendBus => SuspendCoherent(h, |h.ports|);
    case _ =>
  }

  // Reporting is coherent after every interleaving of mutators and fetches.
  lemma {:induction false} AlwaysCoherent(n: nat, ops: seq<Op>)
    ensures Coherent(Play(n, ops)) && |Play(n, ops).ports| == n
  {
    if ops != [] {
      AlwaysCoherent(n, Init(ops));
      ApplyCoherent(Play(n, Init(ops)), Last(ops));
    }
  }

  // --- Each port by itself ---

  // All requests made to port k.
  function RequestsTo(n: nat, ops: seq<Op>, k: nat): seq<Request> {
    if ops == [] then [] else RequestsTo(n, Init(ops), k) + RequestTo(Play(n, Init(ops)), Last(ops), k)
  }

  lemma {:induction false} SuspendEach(h: Hub, k: nat, j: nat)
    requires k <= |h.ports| && IsPort(h, j)
    ensures |SuspendPorts(h, k).ports| == |h.ports|
    ensures SuspendPorts(h, k).ports[j - 1]
            == if j <= k then Result(h.ports[j - 1], Handle(h.ports[j - 1], BusSuspend)) else h.ports[j - 1]
    ensures j <= k && Handle(h.ports[j - 1], BusSuspend).Changed? ==> j in SuspendPorts(h, k).marks
    decreases k
  {
    if k > 0 {
      SuspendEach(h, k - 1, j);
    }
  }

  lemma ApplyToPort(h: Hub, op: Op, k: nat)
    requires IsPort(h, k)
    ensures |Apply(h, op).ports| == |h.ports| && |RequestTo(h, op, k)| <= 1
    ensures Apply(h, op).ports[k - 1]
            == if RequestTo(h, op, k) == [] then h.ports[k - 1]
               else Result(h.ports[k - 1], Handle(h.ports[k - 1], RequestTo(h, op, k)[0]))
  {
    hide Handle;
    if op.SuspendBus? {
      SuspendEach(h, |h.ports|, k);
    }
  }

  // After every interleaving of operations a port of the hub is what its own requests made of it. So what is
  // proved of Ports.After holds of every port in every run of the hub.
  lemma {:induction false} PortsAreIndependent(n: nat, ops: seq<Op>, k: nat)
    requires 1 <= k <= n
    ensures |Play(n, ops).ports| == n
    ensures Play(n, ops).ports[k - 1] == After(RequestsTo(n, ops, k))
  {
    if ops != [] {
      hide Apply, RequestTo, Handle;
      PortsAreIndependent(n, Init(ops), k);
      var h := Play(n, Init(ops));
      ApplyToPort(h, Last(ops), k);
      var before, last := RequestsTo(n, Init(ops), k), RequestTo(h, Last(ops), k);
      if last == [] {
        assert before + last == before;
      } else {
        assert (before + last)[..|before + last| - 1] == before;
      }
    }
  }

  // So every port of the hub is in a state the specification allows, in every run.
  lemma EveryPortLegal(n: nat, ops: seq<Op>, k: nat)
    requires 1 <= k <= n
    ensures |Play(n, ops).ports| == n && Legal(Play(n, ops).ports[k - 1])
  {
    PortsAreIndependent(n, ops, k);
    AlwaysLegal(RequestsTo(n, ops, k));
  }

  // --- Fairness ---

  // Ports of a scan in the order in which it comes to them.
  ghost predicate InScanOrder(n: nat, from: nat, r: seq<nat>) {
    forall i, j :: 0 <= i < j < |r| ==> Distance(n, from, r[i]) < Distance(n, from, r[j])
  }

  // What was reported while port k waited: ports between the start of the scan and k, in scan order.
  ghost predicate Waiting(n: nat, from: nat, k: nat, h: Hub, r: seq<nat>) {
    && k in h.marks
    && Distance(n, From(h), k) + |r| <= Distance(n, from, k)
    && InScanOrder(n, from, r)
    && forall i :: 0 <= i < |r| ==>
         1 <= r[i] <= n && Distance(n, from, r[i]) + Distance(n, From(h), k) < Distance(n, from, k)
  }

  lemma ReportNearer(n: nat, from: nat, k: nat, h: Hub, r: seq<nat>)
    requires Coherent(h) && |h.ports| == n && from < n && 1 <= k <= n && Waiting(n, from, k, h, r) && Next(h) != k
    ensures Report(h).reported == h.reported + [Next(h)]
    ensures Waiting(n, from, k, Report(h), r + [Next(h)])
  {
    var j := Next(h);
    ScanFinds(n, h.marks, From(h), 0);
    assert Distance(n, From(h), j) < Distance(n, From(h), k);
    assert Distance(n, from, j) == Distance(n, from, k) - Distance(n, From(h), k) + Distance(n, From(h), j);
  }

  lemma OtherOpsKeepMarks(h: Hub, op: Op)
    requires !op.Fetch?
    ensures h.marks <= Apply(h, op).marks && Apply(h, op).offset == h.offset && Apply(h, op).reported == h.reported
  {
    hide Handle;
    if op.SuspendBus? {
      SuspendKeepsMarks(h, |h.ports|);
    }
  }

  lemma {:induction false} SuspendKeepsMarks(h: Hub, k: nat)
    requires k <= |h.ports|
    ensures var g := SuspendPorts(h, k); h.marks <= g.marks && g.offset == h.offset && g.reported == h.reported
    decreases k
  {
    hide Handle;
    if k > 0 {
      SuspendKeepsMarks(h, k - 1);
    }
  }

  lemma {:induction false} WaitingRun(n: nat, ops: seq<Op>, more: seq<Op>, k: nat)
    requires k in Play(n, ops).marks
    ensures var s, t := Play(n, ops), Play(n, ops + more);
            && s.reported <= t.reported
            && var r := t.reported[|s.reported|..];
               k !in r ==> 1 <= k <= n && Waiting(n, From(s), k, t, r)
  {
    AlwaysCoherent(n, ops);
    AlwaysCoherent(n, ops + more);
    var s, t := Play(n, ops), Play(n, ops + more);
    if more == [] {
      assert ops + more == ops;
    } else {
      hide Apply, Coherent, Waiting, Next;
      WaitingRun(n, ops, Init(more), k);
      assert Init(ops + more) == ops + Init(more);
      AlwaysCoherent(n, ops + Init(more));
      WaitingStep(n, From(s), k, Play(n, ops + Init(more)), s.reported, Last(more));
    }
  }

  lemma WaitingStep(n: nat, from: nat, k: nat, h: Hub, past: seq<nat>, op: Op)
    requires Coherent(h) && |h.ports| == n && past <= h.reported
    requires k !in h.reported[|past|..] ==> from < n && 1 <= k <= n && Waiting(n, from, k, h, h.reported[|past|..])
    ensures var t := Apply(h, op);
            && past <= t.reported
            && (k !in t.reported[|past|..] ==> 1 <= k <= n && Waiting(n, from, k, t, t.reported[|past|..]))
  {
    var r := h.reported[|past|..];
    if op.Fetch? {
      hide Waiting;
      var t := Report(h);
      if t.reported == h.reported + [Next(h)] {
        assert t.reported[|past|..] == r + [Next(h)];
        assert t.reported[|past|..][|r|] == Next(h);
        if k !in t.reported[|past|..] {
          assert k !in r;
          ReportNearer(n, from, k, h, r);
        }
      }
    } else {
      ApplyCoherent(h, op);
      OtherOpsKeepMarks(h, op);
    }
  }

  // A marked port is reported after at most n - 1 reports of other ports, no two of them of the same port, even if
  // other ports are marked again and again. Until then it stays marked.
  lemma Fairness(n: nat, ops: seq<Op>, more: seq<Op>, k: nat)
    requires k in Play(n, ops).marks
    ensures var s, t := Play(n, ops), Play(n, ops + more);
            && s.reported <= t.reported
            && var r := t.reported[|s.reported|..];
               k !in r ==>
                 && k in t.marks
                 && |r| <= Distance(n, From(s), k) <= n - 1
                 && forall i, j :: 0 <= i < j < |r| ==> r[i] != r[j]
  {
    WaitingRun(n, ops, more, k);
    AlwaysCoherent(n, ops);
    AlwaysCoherent(n, ops + more);
  }

  // Every fetch while a port is marked reports a port.
  lemma MarkedMeansReport(n: nat, ops: seq<Op>)
    requires Play(n, ops).marks != {}
    ensures var h := Play(n, ops); Next(h) in h.marks && Apply(h, Fetch).reported == h.reported + [Next(h)]
  {
    AlwaysCoherent(n, ops);
    var h := Play(n, ops);
    var k :| k in h.marks;
    ScanFinds(n, h.marks, From(h), 0);
  }
}
