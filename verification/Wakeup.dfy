/** Fetchers of work and the wait queue they sleep on. */
module Wakeup {
  import Urbs
  import U = UrbMachine
  import H = HubMachine
  import P = Ports

  // A fetcher in wait_event_interruptible: it is on the wait queue and has yet to look for work; it looked, found
  // none and sleeps; or it was woken since it entered the queue.
  datatype Waiter = Registered | Asleep | Woken

  // late counts the calls of vhci_urb_enqueue that have released the lock and not yet issued their wakeup.
  datatype System = System(urbs: U.State, hub: H.Hub, waiters: map<nat, Waiter>, late: nat)

  datatype Action =
    | OnUrbs(step: U.Step)
    | OnHub(op: H.Op)
    | LateWakeup
    | Prepare(thread: nat)
    | Check(thread: nat)
    | Leave(thread: nat)

  // usb_vhci_hcd_has_work
  predicate HasWork(s: System) {
    s.hub.marks != {} || s.urbs.cancel != [] || s.urbs.inbox != []
  }

  // wake_up_interruptible wakes everyone on the queue.
  function WakeAll(s: System): System {
    s.(waiters := map t | t in s.waiters :: Woken)
  }

  // Whether an operation of the hub calls vhci_port_update.
  predicate Updates(h: H.Hub, op: H.Op) {
    exists k :: 1 <= k <= |h.ports| && H.RequestTo(h, op, k) != [] && P.Handle(h.ports[k - 1], H.RequestTo(h, op,
        k)[0]).Changed?
  }

  function Apply(s: System, a: Action): System {
    match a
    case OnUrbs(step) =>
      var t := s.(urbs := U.Try(s.urbs, step));
      if !U.Enabled(s.urbs, step) then t
      else if step.Enqueue? then t.(late := s.late + 1)
      else if step.DequeueFetched? then WakeAll(t)
      else t
    case OnHub(op) =>
      var t := s.(hub := H.Apply(s.hub, op));
      if Updates(s.hub, op) then WakeAll(t) else t
    case LateWakeup => if s.late > 0 then WakeAll(s).(late := s.late - 1) else s
    case Prepare(t) => if t in s.waiters && s.waiters[t].Asleep? then s else s.(waiters := s.waiters[t := Registered])
    case Check(t) =>
      if t !in s.waiters then s
      else if HasWork(s) then s.(waiters := s.waiters - {t})
      else if s.waiters[t].Registered? then s.(waiters := s.waiters[t := Asleep])
      else s
    case Leave(t) => s.(waiters := s.waiters - {t})
  }

  function Play(n: nat, actions: seq<Action>): System {
    if actions == [] then System(U.Start, H.Start(n), map[], 0)
    else Apply(Play(n, actions[..|actions| - 1]), actions[|actions| - 1])
  }

  // Only an enqueue and a dequeue of a fetched URB put URBs where a fetcher looks for them.
  lemma UrbWorkAppears(s: U.State, a: U.Step)
    requires U.Enabled(s, a) && !a.Enqueue? && !a.DequeueFetched?
    ensures s.inbox == [] ==> U.Apply(s, a).inbox == []
    ensures s.cancel == [] ==> U.Apply(s, a).cancel == []
  {
  }

  // Only an operation that calls vhci_port_update marks a port.
  lemma PortWorkAppears(h: H.Hub, op: H.Op)
    requires !Updates(h, op)
    ensures H.Apply(h, op).marks <= h.marks
  {
    hide P.Handle;
    match op
    case SuspendBus =>
      NoneSuspended(h, |h.ports|);
    case PortStat(status, change, index) =>
      assert 1 <= index <= |h.ports| ==> H.RequestTo(h, op, index) != [];
    case Control(kind, value, index, length) =>
      assert 1 <= index <= |h.ports| && h.accessible && length == 0 && (kind.ClearPortFeature? || kind.SetPortFeature?)
             ==> H.RequestTo(h, op, index) != [];
    case _ =>
  }

  lemma {:induction false} NoneSuspended(h: H.Hub, k: nat)
    requires !Updates(h, H.SuspendBus) && k <= |h.ports|
    ensures H.SuspendPorts(h, k) == h
    decreases k
  {
    hide P.Handle;
    if k > 0 {
      NoneSuspended(h, k - 1);
      assert H.RequestTo(h, H.SuspendBus, k) != [];
    }
  }

  ghost predicate NobodyMissesWork(s: System) {
    forall t :: t in s.waiters && s.waiters[t].Asleep? && HasWork(s) ==> s.late > 0
  }

  lemma ApplyMissesNothing(s: System, a: Action)
    requires NobodyMissesWork(s)
    ensures NobodyMissesWork(Apply(s, a))
  {
    hide U.Apply, H.Apply, Updates, U.Enabled;
    match a
    case OnUrbs(step) =>
      if U.Enabled(s.urbs, step) && !step.Enqueue? && !step.DequeueFetched? {
        UrbWorkAppears(s.urbs, step);
      }
    case OnHub(op) =>
      if !Updates(s.hub, op) {
        PortWorkAppears(s.hub, op);
      }
    case _ =>
  }

  lemma {:induction false} AlwaysMissesNothing(n: nat, actions: seq<Action>)
    ensures NobodyMissesWork(Play(n, actions))
  {
    hide Apply, NobodyMissesWork;
    if actions != [] {
      AlwaysMissesNothing(n, actions[..|actions| - 1]);
      ApplyMissesNothing(Play(n, actions[..|actions| - 1]), actions[|actions| - 1]);
    } else {
      NobodyAtStart(n);
    }
  }

  lemma NobodyAtStart(n: nat)
    ensures NobodyMissesWork(System(U.Start, H.Start(n), map[], 0))
  {
  }

  // No wakeup is lost: after every interleaving, if a fetcher sleeps while there is work, then some enqueuer has yet
  // to issue the wakeup that will wake it.
  lemma NoLostWakeup(n: nat, actions: seq<Action>, t: nat)
    ensures var s := Play(n, actions);
            t in s.waiters && s.waiters[t].Asleep? && (s.hub.marks != {} || s.urbs.cancel != [] || s.urbs.inbox != []) ==>
              s.late > 0 && Apply(s, LateWakeup).waiters[t].Woken?
  {
    hide Play;
    AlwaysMissesNothing(n, actions);
  }

  // A fetcher that finds no work sleeps; an enqueue leaves it asleep until the enqueuer issues its wakeup, and then it
  // finds the work and leaves.
  lemma SleepUntilEnqueue(n: nat, t: nat, u: Urbs.Urb)
    requires Urbs.Submittable(u)
    ensures var s := Play(n, [Prepare(t), Check(t)]); s.waiters == map[t := Asleep]
    ensures var s := Play(n, [Prepare(t), Check(t), OnUrbs(U.Enqueue(u))]); s.waiters == map[t := Asleep] && s.late == 1
    ensures var s := Play(n, [Prepare(t), Check(t), OnUrbs(U.Enqueue(u)), LateWakeup]); s.waiters == map[t := Woken]
    ensures var s := Play(n, [Prepare(t), Check(t), OnUrbs(U.Enqueue(u)), LateWakeup, Check(t)]); s.waiters == map[]
  {
    hide Apply, Play;
    var a1, a2 := [Prepare(t)], [Prepare(t), Check(t)];
    var a3 := [Prepare(t), Check(t), OnUrbs(U.Enqueue(u))];
    var a4 := [Prepare(t), Check(t), OnUrbs(U.Enqueue(u)), LateWakeup];
    PlayOneMore(n, [], a1, Prepare(t));
    PlayOneMore(n, a1, a2, Check(t));
    PlayOneMore(n, a2, a3, OnUrbs(U.Enqueue(u)));
    PlayOneMore(n, a3, a4, LateWakeup);
    PlayOneMore(n, a4, [Prepare(t), Check(t), OnUrbs(U.Enqueue(u)), LateWakeup, Check(t)], Check(t));
    FirstActions(n, t, u);
  }

  lemma PlayOneMore(n: nat, before: seq<Action>, after: seq<Action>, a: Action)
    requires after == before + [a]
    ensures Play(n, after) == Apply(Play(n, before), a)
    ensures Play(n, []) == System(U.Start, H.Start(n), map[], 0)
  {
    assert after[..|after| - 1] == before;
  }

  lemma FirstActions(n: nat, t: nat, u: Urbs.Urb)
    requires Urbs.Submittable(u)
    ensures var s0 := System(U.Start, H.Start(n), map[], 0);
            var s1 := Apply(s0, Prepare(t));
            var s2 := Apply(s1, Check(t));
            var s3 := Apply(s2, OnUrbs(U.Enqueue(u)));
            var s4 := Apply(s3, LateWakeup);
            && s2.waiters == map[t := Asleep]
            && s3.waiters == map[t := Asleep] && s3.late == 1
            && s4.waiters == map[t := Woken]
            && Apply(s4, Check(t)).waiters == map[]
  {
    hide H.Start;
    NothingMarked(n);
    var s2 := Apply(Apply(System(U.Start, H.Start(n), map[], 0), Prepare(t)), Check(t));
    assert s2 == System(U.Start, H.Start(n), map[t := Asleep], 0);
  }

  lemma NothingMarked(n: nat)
    ensures H.Start(n).marks == {}
  {
  }
}
