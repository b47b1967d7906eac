/** The calls of user space that fetch work, on the root hub and the URB lists together. */
module UserInterfaceDriver {
  import opened Errno
  import opened Urbs
  import P = Ports
  import H = HubMachine
  import U = UrbMachine
  import BitSet
  import opened Payload
  import opened UrbInvariant
  import opened UrbRuns
  import opened UrbQueuesDriver
  import opened RootHubDriver

  const TIMEOUT_INFINITE := -1

  // What a fetch hands to user space.
  datatype Work =
    | Nothing
    | CancelUrb(handle: Handle)
    | PortStat(index: nat, port: P.Port)
    | ProcessUrb(handle: Handle, bufferLength: nat, packets: nat)

  // --- What a fetch finds in the inbox ---

  predicate Bad(subs: seq<Urb>, id: nat) {
    id < |subs| && !Acceptable(subs[id])
  }

  // How many URBs at the head of the list fail the test.
  function Invalid(subs: seq<Urb>, q: seq<nat>): (n: nat)
    ensures n <= |q|
    ensures forall i :: 0 <= i < n ==> Bad(subs, q[i])
    ensures n < |q| ==> !Bad(subs, q[n])
  {
    if q == [] || !Bad(subs, q[0]) then 0 else 1 + Invalid(subs, q[1..])
  }

  // The steps that give back these URBs, which are at the head of the inbox.
  function Rejections(q: seq<nat>): seq<U.Step> {
    if q == [] then [] else Rejections(q[..|q| - 1]) + Finish(U.Reject, q[|q| - 1])
  }

  // --- The rotating scan ---

  lemma Times(n: int, q: int)
    requires n >= 0
    ensures q >= 2 ==> n * q >= n + n
    ensures q < 0 ==> n * q <= -n
    ensures q == 0 ==> n * q == 0
    ensures q == 1 ==> n * q == n
    decreases if q < 0 then -q else q
  {
    if q > 2 {
      Times(n, q - 1);
      assert n * q == n * (q - 1) + n;
    } else if q < -1 {
      Times(n, q + 1);
      assert n * q == n * (q + 1) - n;
    }
  }

  lemma Remainder(x: nat, n: nat)
    requires x < n + n
    ensures n > 0 && x % n == if x < n then x else x - n
  {
    Times(n, x / n);
  }

  // The driver computes the port of a scan with a remainder.
  lemma CandidateIsRemainder(n: nat, from: nat, d: nat)
    requires from < n && d < n
    ensures (d + from) % n + 1 == H.Candidate(n, from, d)
  {
    Remainder(d + from, n);
  }

  class UserInterface {
    const hub: RootHub
    const queues: UrbQueues
    var portSchedOffset: nat

    ghost predicate Valid()
      reads this, hub, hub.ports, queues
    {
      hub.Valid() && queues.Valid() && portSchedOffset == hub.model.offset
    }

    constructor (n: nat)
      requires n <= 31
      ensures Valid() && hub.ports.Length == n && hub.ops == [] && queues.trace == [] && portSchedOffset == 0
    {
      hub := new RootHub(n);
      queues := new UrbQueues();
      portSchedOffset := 0;
    }

    // usb_vhci_hcd_has_work
    method HasWork() returns (r: bool)
      requires Valid()
      ensures r <==> hub.model.marks != {} || queues.cancel != [] || queues.inbox != []
    {
      BitSet.ZeroIsEmpty(hub.portUpdate);
      r := hub.portUpdate != 0 || queues.cancel != [] || queues.inbox != [];
    }

    // The loop that looks for a marked port, beginning at port_sched_offset
    method ScanPorts() returns (k: nat)
      requires hub.Valid() && portSchedOffset == H.From(hub.model) < hub.ports.Length
      ensures k == H.Next(hub.model)
    {
      hide BitSet.Members, BitSet.Has, H.Coherent;
      var n := hub.ports.Length;
      ghost var marks := hub.model.marks;
      for i := 0 to n
        invariant H.Scan(n, marks, portSchedOffset, 0) == H.Scan(n, marks, portSchedOffset, i)
      {
        CandidateIsRemainder(n, portSchedOffset, i);
        var port := (i + portSchedOffset) % n;
        Member(hub.portUpdate, port + 1);
        if BitSet.Has(hub.portUpdate, port + 1) {
          return port + 1;
        }
      }
      k := 0;
    }

    // The part of ioc_fetch_work that reports a port
    method ReportPort() returns (w: Work)
      requires Valid() && hub.model.marks != {}
      modifies this, hub
      ensures Valid() && hub.model == H.Report(old(hub.model))
      ensures var k := H.Next(old(hub.model));
              1 <= k <= hub.ports.Length && w == PortStat(k, hub.ports[k - 1]) && hub.model.view[k - 1] == hub.ports[k - 1]
              && hub.model.marks == old(hub.model.marks) - {k} && k in old(hub.model.marks)
    {
      hide BitSet.Members, H.Report, H.Next, H.Coherent, H.Play;
      NextIsMarked(hub.model);
      if portSchedOffset >= hub.ports.Length {
        portSchedOffset := 0;
      }
      var k := ScanPorts();
      var p := hub.Fetched(k);
      portSchedOffset := k;
      w := PortStat(k, p);
    }

    // The part of ioc_fetch_work that looks for an URB. copied is the outcome of the copy to user space.
    method NextUrb(copied: bool) returns (ret: int, w: Work)
      requires Valid()
      modifies queues
      ensures Valid() && queues.urbs == old(queues.urbs)
      ensures Drawn(U.Play(old(queues.trace)), old(queues.trace), queues.trace)
      ensures var m := U.Play(old(queues.trace));
              var n := Invalid(m.subs, m.inbox);
              if n < |m.inbox| then
                && ret == (if copied then 0 else -EFAULT)
                && m.inbox[n] < |m.subs| && Acceptable(m.subs[m.inbox[n]])
                && w == ProcessUrb(m.subs[m.inbox[n]].handle, DataLength(m.subs[m.inbox[n]]), m.subs[m.inbox[n]].packets)
              else
                ret == -ENODATA && w == Nothing
    {
      hide Acceptable, Infos, Finish, U.Play;
      ghost var m := U.Play(queues.trace);
      ghost var k := 0;
      assert m.inbox[..0] == [];
      while queues.inbox != []
        invariant queues.Valid() && queues.urbs == old(queues.urbs)
        invariant k <= |m.inbox| && queues.inbox == m.inbox[k..]
        invariant Dropped(m, old(queues.trace), queues.trace, k)
        decreases |queues.inbox|
      {
        OnlyInInbox(queues.trace, queues.inbox[0]);
        var u := queues.urbs[queues.inbox[0]];
        var valid, bufferLength := TestUrb(u);
        if valid {
          DropsAll(m, old(queues.trace), queues.trace, k);
          queues.FetchFirst();
          return if copied then 0 else -EFAULT, ProcessUrb(u.info.handle, bufferLength, u.info.packets);
        }
        ghost var before := queues.trace;
        queues.LookUp();
        queues.RejectFirst();
        queues.LookUp();
        DropOneMore(m, old(queues.trace), before, k, queues.trace);
        k := k + 1;
      }
      DropsAll(m, old(queues.trace), queues.trace, k);
      return -ENODATA, Nothing;
    }

    // The work that user space has not yet fetched
    ghost function Pending(): nat
      requires Valid()
      reads this, hub, hub.ports, queues
    {
      |queues.cancel| + |hub.model.marks| + |queues.inbox|
    }

    // The locked part of ioc_fetch_work: cancel requests come before ports, and ports before URBs. Another fetcher may
    // have taken the work in the meantime, so there need not be any.
    method Serve(copied: bool) returns (ret: int, w: Work)
      requires Valid()
      modifies this, hub, queues
      ensures Valid() && queues.urbs == old(queues.urbs)
      ensures Served(old(queues.trace), old(hub.model), copied, queues.trace, hub.model, ret, w)
      ensures ret == -ENODATA <==>
                old(queues.cancel) == [] && old(hub.model.marks) == {}
                && forall i :: 0 <= i < |old(queues.inbox)| ==> Bad(U.Play(old(queues.trace)).subs, old(queues.inbox)[i])
      ensures if old(queues.cancel == [] && hub.model.marks == {} && queues.inbox == []) then Pending() == old(Pending())
              else Pending() < old(Pending())
    {
      hide BitSet.Members, H.Report, H.Next, H.Coherent, U.Play, Infos, Acceptable;
      queues.LookUp();
      BitSet.ZeroIsEmpty(hub.portUpdate);
      if queues.cancel != [] {
        var h := queues.ReportFirstCancel();
        return 0, CancelUrb(h);
      }
      if hub.portUpdate != 0 {
        w := ReportPort();
        return 0, w;
      }
      ret, w := NextUrb(copied);
    }

    // ioc_fetch_work, when no other thread interferes. signal says whether a signal ends a wait without work.
    method FetchWork(timeout: int, signal: bool, copied: bool) returns (ret: int, w: Work)
      requires Valid()
      modifies this, hub, queues
      ensures Valid()
      ensures var work := old(hub.model.marks != {} || queues.cancel != [] || queues.inbox != []);
              if Awaited(timeout, work, signal) != 0 then
                && ret == Awaited(timeout, work, signal) && w == Nothing
                && hub.model == old(hub.model) && queues.trace == old(queues.trace)
              else
                Served(old(queues.trace), old(hub.model), copied, queues.trace, hub.model, ret, w)
      ensures timeout >= 0 && old(queues.cancel) != [] ==>
                && ret == 0 && old(queues.cancel[0]) < |queues.urbs|
                && w == CancelUrb(queues.urbs[old(queues.cancel[0])].info.handle)
                && queues.cancel == old(queues.cancel[1..]) && queues.canceling == old(queues.canceling + [queues.cancel[0]])
                && queues.inbox == old(queues.inbox) && queues.fetched == old(queues.fetched) && hub.model == old(hub.model)
      ensures timeout >= 0 && old(queues.cancel) == [] && old(hub.model.marks) != {} ==>
                && ret == 0 && w.PortStat? && w.index in old(hub.model.marks) && 1 <= w.index <= hub.ports.Length
                && w.port == hub.ports[w.index - 1] && hub.ports[..] == old(hub.ports[..])
                && hub.model.marks == old(hub.model.marks) - {w.index} && queues.trace == old(queues.trace)
      ensures timeout >= 0 && old(queues.cancel) == [] && old(hub.model.marks) == {} && old(queues.inbox) != [] ==>
                && hub.model == old(hub.model) && old(queues.inbox[0]) < |queues.urbs|
                && var id, u := old(queues.inbox[0]), queues.urbs[old(queues.inbox[0])].info;
                   if Acceptable(u) then
                     && ret == (if copied then 0 else -EFAULT) && w == ProcessUrb(u.handle, DataLength(u), u.packets)
                     && queues.inbox == old(queues.inbox[1..]) && queues.fetched == old(queues.fetched) + [id]
                   else
                     && id in U.Play(queues.trace).delivered
                     && U.Play(queues.trace).delivered[id] == (if u.status == -EINPROGRESS then -EPIPE else u.status)
                     && id !in queues.inbox && id !in queues.fetched
      ensures Pending() < old(Pending()) <==>
                timeout >= 0 && old(hub.model.marks != {} || queues.cancel != [] || queues.inbox != [])
    {
      hide U.Play, Served, H.Report, H.Next, H.Coherent, H.Play, Infos, Acceptable, BitSet.Members;
      var work := HasWork();
      queues.LookUp();
      var wret := Wait(timeout, work, signal);
      if wret < 0 {
        return if wret == -ERESTARTSYS then -EINTR else wret, Nothing;
      } else if wret == 0 {
        return -ETIMEDOUT, Nothing;
      }
      ghost var before := hub.model;
      CoherentHub();
      ret, w := Serve(copied);
      queues.LookUp();
      ServedMeans(old(queues.trace), before, copied, queues.trace, hub.model, ret, w);
    }

    lemma CoherentHub()
      requires Valid()
      ensures H.Coherent(hub.model) && hub.model.ports == hub.ports[..]
    {
    }
  }

  lemma Member(u: bv32, k: nat)
    requires k < 32
    ensures BitSet.Has(u, k) <==> k in BitSet.Members(u)
  {
  }

  lemma NextIsMarked(h: H.Hub)
    requires H.Coherent(h) && h.marks != {}
    ensures var k := H.Next(h);
            && k in h.marks && 1 <= k <= |h.ports| && H.Coherent(H.Report(h))
            && H.Report(h) == h.(marks := h.marks - {k}, offset := k, view := h.view[k - 1 := h.ports[k - 1]],
                reported := h.reported + [k])
  {
    var k :| k in h.marks;
    H.ScanFinds(|h.ports|, h.marks, H.From(h), 0);
    H.ApplyCoherent(h, H.Fetch);
  }

  // The test of an URB, branch by branch
  method TestUrb(u: UrbObject) returns (valid: bool, bufferLength: nat)
    requires u.Wellformed()
    ensures valid <==> Acceptable(u.info)
    ensures valid ==> bufferLength == DataLength(u.info)
  {
    bufferLength := u.info.length;
    if u.info.kind.Control? {
      if u.info.setup.NoSetup? { return false, 0; }
      var wLength := u.info.setup.wLength;
      if wLength > u.info.length { return false, 0; }
      if u.info.setup.toHost {
        if wLength == 0 || u.buffer == null { return false, 0; }
      } else {
        if wLength != 0 && u.buffer == null { return false, 0; }
      }
      bufferLength := wLength;
    } else {
      if u.info.pipeIn {
        if u.info.length == 0 || u.buffer == null { return false, 0; }
      } else {
        if u.info.length != 0 && u.buffer == null { return false, 0; }
      }
    }
    valid := true;
  }

  // The first k URBs of the inbox failed the test and were given back with -EPIPE; nothing else moved.
  ghost predicate Dropped(m: U.State, trace0: seq<U.Step>, trace: seq<U.Step>, k: nat)
    requires k <= |m.inbox|
  {
    var t := U.Play(trace);
    && trace == trace0 + Rejections(m.inbox[..k])
    && t.subs == m.subs && t.fetched == m.fetched && t.cancel == m.cancel && t.canceling == m.canceling
    && t.inbox == m.inbox[k..]
    && forall i :: 0 <= i < k ==>
         Bad(m.subs, m.inbox[i]) && m.inbox[i] in t.delivered
         && t.delivered[m.inbox[i]] == U.MaybeSetStatus(m.subs[m.inbox[i]].status, -EPIPE)
  }

  // Exactly the maximal invalid prefix of the inbox was given back with -EPIPE, and the URB behind it was fetched.
  ghost predicate Drawn(m: U.State, trace0: seq<U.Step>, trace: seq<U.Step>) {
    var n := Invalid(m.subs, m.inbox);
    if n == |m.inbox| then Dropped(m, trace0, trace, n)
    else
      && trace != [] && trace[|trace| - 1] == U.ReportProcess
      && Dropped(m, trace0, trace[..|trace| - 1], n)
      && U.Play(trace).inbox == m.inbox[n + 1..]
      && U.Play(trace).fetched == m.fetched + [m.inbox[n]]
      && U.Play(trace).cancel == m.cancel && U.Play(trace).canceling == m.canceling
  }

  // What a fetch hands out and leaves behind: a cancel request if there is one, else a port if one is marked, else
  // the first valid URB of the inbox.
  ghost predicate Served(trace0: seq<U.Step>, h: H.Hub, copied: bool, trace: seq<U.Step>, g: H.Hub, ret: int, w: Work) {
    var m := U.Play(trace0);
    if m.cancel != [] then
      && ret == 0 && g == h && trace == trace0 + [U.ReportCancel]
      && m.cancel[0] < |m.subs| && w == CancelUrb(m.subs[m.cancel[0]].handle)
    else if h.marks != {} then
      && ret == 0 && g == H.Report(h) && trace == trace0
      && var k := H.Next(h); 1 <= k <= |h.ports| && w == PortStat(k, h.ports[k - 1])
    else
      && g == h && Drawn(m, trace0, trace)
      && var n := Invalid(m.subs, m.inbox);
         if n == |m.inbox| then ret == -ENODATA && w == Nothing
         else
           && ret == (if copied then 0 else -EFAULT)
           && m.inbox[n] < |m.subs| && Acceptable(m.subs[m.inbox[n]])
           && var u := m.subs[m.inbox[n]]; w == ProcessUrb(u.handle, DataLength(u), u.packets)
  }

  // What a fetch has served, list by list.
  lemma ServedMeans(trace0: seq<U.Step>, h: H.Hub, copied: bool, trace: seq<U.Step>, g: H.Hub, ret: int, w: Work)
    requires Served(trace0, h, copied, trace, g, ret, w) && H.Coherent(h)
    ensures var m, t := U.Play(trace0), U.Play(trace);
            m.cancel != [] ==>
              && ret == 0 && m.cancel[0] < |m.subs| && w == CancelUrb(m.subs[m.cancel[0]].handle) && g == h
              && t.cancel == m.cancel[1..] && t.canceling == m.canceling + [m.cancel[0]]
              && t.inbox == m.inbox && t.fetched == m.fetched
    ensures U.Play(trace0).cancel == [] && h.marks != {} ==>
              && ret == 0 && w.PortStat? && w.index in h.marks && 1 <= w.index <= |h.ports| && w.port == h.ports[w.index - 1]
              && g.ports == h.ports && g.marks == h.marks - {w.index} && trace == trace0
    ensures var m, t := U.Play(trace0), U.Play(trace);
            m.cancel == [] && h.marks == {} && m.inbox != [] ==>
              && g == h && m.inbox[0] < |m.subs|
              && var id, u := m.inbox[0], m.subs[m.inbox[0]];
                 if Acceptable(u) then
                   && ret == (if copied then 0 else -EFAULT) && w == ProcessUrb(u.handle, DataLength(u), u.packets)
                   && t.inbox == m.inbox[1..] && t.fetched == m.fetched + [id]
                 else
                   && id in t.delivered && t.delivered[id] == (if u.status == -EINPROGRESS then -EPIPE else u.status)
                   && id !in t.inbox && id !in t.fetched
  {
    hide U.Play, H.Report, H.Next, H.Coherent, Acceptable, Drawn;
    var m := U.Play(trace0);
    if m.cancel != [] {
      CancelServed(trace0);
    } else if h.marks != {} {
      NextIsMarked(h);
    } else if m.inbox != [] {
      OnlyInInbox(trace0, m.inbox[0]);
      HeadDrawn(trace0, trace);
    }
  }

  lemma CancelServed(trace0: seq<U.Step>)
    requires U.Play(trace0).cancel != []
    ensures var m, t := U.Play(trace0), U.Play(trace0 + [U.ReportCancel]);
            && t.cancel == m.cancel[1..] && t.canceling == m.canceling + [m.cancel[0]]
            && t.inbox == m.inbox && t.fetched == m.fetched
  {
    hide U.Play, U.Without;
    WithoutHead(trace0);
    PlayAppend(trace0, U.ReportCancel);
  }

  // What becomes of the first URB of the inbox
  lemma HeadDrawn(trace0: seq<U.Step>, trace: seq<U.Step>)
    requires var m := U.Play(trace0); m.inbox != [] && m.inbox[0] < |m.subs| && Drawn(m, trace0, trace)
    ensures var m, t := U.Play(trace0), U.Play(trace);
            var id, u := m.inbox[0], m.subs[m.inbox[0]];
            if Acceptable(u) then
              && Invalid(m.subs, m.inbox) == 0 && t.inbox == m.inbox[1..] && t.fetched == m.fetched + [id]
            else
              && id in t.delivered && t.delivered[id] == (if u.status == -EINPROGRESS then -EPIPE else u.status)
              && id !in t.inbox && id !in t.fetched
  {
    hide U.Play, Acceptable, Rejections;
    var m := U.Play(trace0);
    var n := Invalid(m.subs, m.inbox);
    OnlyInInbox(trace0, m.inbox[0]);
    HeadOnlyOnce(trace0);
    if 0 < n < |m.inbox| {
      assert Bad(m.subs, m.inbox[0]);
      KeepsDelivered(trace);
    } else if n > 0 {
      assert Bad(m.subs, m.inbox[0]);
    }
  }

  lemma HeadOnlyOnce(trace0: seq<U.Step>)
    requires U.Play(trace0).inbox != []
    ensures var q := U.Play(trace0).inbox; forall k :: 0 < k < |q| ==> q[k] != q[0]
  {
    hide U.Play;
    AlwaysInv(trace0);
  }

  lemma KeepsDelivered(trace: seq<U.Step>)
    requires trace != [] && trace[|trace| - 1] == U.ReportProcess
    ensures U.Play(trace).delivered == U.Play(trace[..|trace| - 1]).delivered
  {
    hide U.Play, U.Without;
    assert trace == trace[..|trace| - 1] + [U.ReportProcess];
    PlayAppend(trace[..|trace| - 1], U.ReportProcess);
  }

  lemma DropsAll(m: U.State, trace0: seq<U.Step>, trace: seq<U.Step>, k: nat)
    requires k <= |m.inbox| && Dropped(m, trace0, trace, k) && (k < |m.inbox| ==> !Bad(m.subs, m.inbox[k]))
    ensures Invalid(m.subs, m.inbox) == k
  {
    hide Bad, U.Play;
  }

  lemma DropOneMore(m: U.State, trace0: seq<U.Step>, trace: seq<U.Step>, k: nat, next: seq<U.Step>)
    requires k < |m.inbox| && Dropped(m, trace0, trace, k) && Bad(m.subs, m.inbox[k])
    requires next == trace + Finish(U.Reject, m.inbox[k])
    requires var s, t := U.Play(trace), U.Play(next);
             && t.subs == s.subs && t.fetched == s.fetched && t.cancel == s.cancel && t.canceling == s.canceling
             && t.inbox == s.inbox[1..]
             && t.delivered == s.delivered[m.inbox[k] := U.MaybeSetStatus(m.subs[m.inbox[k]].status, -EPIPE)]
    ensures Dropped(m, trace0, next, k + 1)
  {
    hide Bad, U.Play, Finish;
    assert m.inbox[..k + 1][..k] == m.inbox[..k];
    assert next == trace0 + Rejections(m.inbox[..k + 1]);
  }

  // wait_event_interruptible_timeout and wait_event_interruptible, with the values they return: a wait with a time
  // limit that finds work returns the time left, but a wait without one returns 0. Without a wait the value is that
  // of the test for work.
  function Wait(timeout: int, work: bool, signal: bool): int {
    if timeout > 0 then (if work then 1 else if signal then -ERESTARTSYS else 0)
    else if timeout < 0 then (if work then 0 else -ERESTARTSYS)
    else if work then 1 else 0
  }

  // What the wait makes of a fetch: an error, or 0 if the fetch goes on.
  function Awaited(timeout: int, work: bool, signal: bool): (r: int)
    ensures r == 0 <==> timeout >= 0 && work
    ensures r == -EINTR <==> !work && (timeout < 0 || (timeout > 0 && signal))
    ensures r == -ETIMEDOUT <==> if work then timeout < 0 else timeout == 0 || (timeout > 0 && !signal)
  {
    var wret := Wait(timeout, work, signal);
    if wret == -ERESTARTSYS then -EINTR else if wret == 0 then -ETIMEDOUT else 0
  }

  // A fetch that waits without a time limit never gets any work: the return value of its wait is taken for a timeout.
  lemma InfiniteTimeoutNeverServes(signal: bool)
    ensures Awaited(TIMEOUT_INFINITE, true, signal) == -ETIMEDOUT
    ensures Awaited(TIMEOUT_INFINITE, false, signal) == -EINTR
  {
  }
}
