/** Device removal empties the four lists while other threads keep working in the windows where it drops the lock.
    The shared state is the value s, which other threads change between two steps of this one; trace is the
    interleaving of all threads so far, so s is always Play(trace). */
module Drain {
  import opened Basics
  import opened Errno
  import opened UrbMachine
  import opened UrbInvariant
  import opened UrbRuns
  import G = GivebackRuns

  function Listings(s: State): nat {
    |s.inbox| + |s.fetched| + |s.cancel| + |s.canceling|
  }

  // Whether another thread can take the step: the callback and the put of a giveback are taken by its own thread.
  predicate ByOthers(a: Step, mine: nat) {
    a != Callback(mine) && a != PutDevice(mine)
  }

  // The number of enqueues that other threads make in the windows to come.
  function Enqueues(window: seq<Step>): nat {
    if window == [] then 0 else (if window[0].Enqueue? then 1 else 0) + Enqueues(window[1..])
  }

  function AllEnqueues(windows: seq<seq<Step>>): nat {
    if windows == [] then 0 else Enqueues(windows[0]) + AllEnqueues(windows[1..])
  }

  // How a state s, with some enqueues left to come, relates to an earlier state s1 with left1 enqueues to come.
  ghost predicate Later(s1: State, left1: nat, s: State, left: nat) {
    && Listings(s) + left <= Listings(s1) + left1
    && |s1.subs| <= |s.subs| && |s.subs| + left <= |s1.subs| + left1
    && Advanced(s1, s)
  }

  lemma LaterTwice(s1: State, left1: nat, s2: State, left2: nat, s3: State, left3: nat)
    requires Later(s1, left1, s2, left2) && Later(s2, left2, s3, left3)
    ensures Later(s1, left1, s3, left3)
  {
    forall id: nat | id < |s1.place| ensures Rank(s1.place[id]) <= Rank(s3.place[id]) {
      assert Rank(s2.place[id]) <= Rank(s3.place[id]);
    }
  }

  // Only an enqueue makes the lists longer.
  lemma StepListings(s: State, a: Step)
    requires Enabled(s, a)
    ensures Listings(Apply(s, a)) <= Listings(s) + if a.Enqueue? then 1 else 0
    ensures a.Shutdown? && IsList(a.list) ==> Listings(Apply(s, a)) < Listings(s)
    ensures |Apply(s, a).subs| == |s.subs| + if a.Enqueue? then 1 else 0
  {
    hide Without;
  }

  // Nothing happened to any submission but one.
  ghost predicate OthersKept(s1: State, s: State, mine: nat) {
    forall id: nat :: id < |s1.place| && id != mine ==> G.Kept(s1, s, id)
  }

  lemma OthersKeptTwice(s1: State, s2: State, s3: State, mine: nat)
    requires OthersKept(s1, s2, mine) && OthersKept(s2, s3, mine) && |s1.place| <= |s2.place|
    ensures OthersKept(s1, s3, mine)
  {
    forall id: nat | id < |s1.place| && id != mine ensures G.Kept(s1, s3, id) {
      assert G.Kept(s1, s2, id) && G.Kept(s2, s3, id);
    }
  }

  lemma StepKeepsOthers(trace: seq<Step>, a: Step, mine: nat)
    requires Enabled(Play(trace), a) && Subject(Play(trace), a) == Some(mine)
    ensures OthersKept(Play(trace), Apply(Play(trace), a), mine)
  {
    hide Play, G.Kept, Enabled, Apply, Subject;
    PlayListedAt(trace, Inbox, mine);
    forall id: nat | id < |Play(trace).place| && id != mine ensures G.Kept(Play(trace), Apply(Play(trace), a), id) {
      G.OthersKeep(Play(trace), a, id);
    }
  }

  // The proposal that a submission has after a step of its giveback
  lemma StepProposal(s: State, a: Step, mine: nat)
    requires Enabled(s, a) && Subject(s, a) == Some(mine) && (a.Shutdown? || a.Callback? || a.PutDevice?)
    ensures Apply(s, a).subs == s.subs
    ensures G.At(Apply(s, a).proposed, mine) == if a.Shutdown? then Some(-ESHUTDOWN) else G.At(s.proposed, mine)
  {
    hide Without;
  }

  // One step, taken by this thread or another one.
  method Perform(s: State, a: Step, ghost trace: seq<Step>) returns (t: State)
    requires s == Play(trace) && Enabled(s, a)
    ensures t == Play(trace + [a]) == Apply(s, a)
    ensures Later(s, if a.Enqueue? then 1 else 0, t, 0)
    ensures a.Shutdown? ==> Listings(t) < Listings(s)
    ensures forall id: nat :: id < |s.place| ==>
              t.place[id] == if Subject(s, a) == Some(id) then Destination(a) else s.place[id]
  {
    StepListings(s, a);
    StepAdvances(trace, a);
    assert Init(trace + [a]) == trace;
    forall id: nat | id < |s.place|
      ensures id < |Apply(s, a).place|
      ensures Apply(s, a).place[id] == if Subject(s, a) == Some(id) then Destination(a) else s.place[id]
    {
      StepMovesForward(trace, a, id);
    }
    t := Apply(s, a);
  }

  // Other threads take the steps of one window, as far as they are enabled.
  method Interfere(s1: State, window: seq<Step>, mine: nat, ghost trace1: seq<Step>)
    returns (s: State, ghost trace: seq<Step>)
    requires s1 == Play(trace1) && GivenBack(s1, mine)
    ensures s == Play(trace) && trace1 <= trace
    ensures Later(s1, Enqueues(window), s, 0)
    ensures G.Kept(s1, s, mine)
    ensures window == [] ==> s == s1
  {
    hide Play, Apply, Enabled, Listings, Subject, Destination;
    PlayListedAt(trace1, Inbox, mine);
    s, trace := s1, trace1;
    var k := 0;
    assert window[0..] == window;
    while k < |window|
      invariant 0 <= k <= |window|
      invariant s == Play(trace) && trace1 <= trace
      invariant Later(s1, Enqueues(window), s, Enqueues(window[k..]))
      invariant G.Kept(s1, s, mine) && |s.place| == |s.subs|
      invariant k == 0 ==> s == s1
    {
      var a, r := window[k], s;
      assert window[k..][1..] == window[k + 1..];
      ghost var rest := Enqueues(window[k + 1..]);
      if ByOthers(a, mine) && Enabled(s, a) {
        StepMovesForward(trace, a, mine);
        G.OthersKeep(s, a, mine);
        s := Perform(s, a, trace);
        trace := trace + [a];
        PlayListedAt(trace, Inbox, mine);
        assert Later(r, rest + if a.Enqueue? then 1 else 0, s, rest);
        LaterTwice(s1, Enqueues(window), r, Enqueues(window[k..]), s, rest);
      }
      k := k + 1;
    }
  }

  function Window(windows: seq<seq<Step>>): seq<Step> {
    if windows == [] then [] else windows[0]
  }

  function Rest(windows: seq<seq<Step>>): (r: seq<seq<Step>>)
    ensures Enqueues(Window(windows)) + AllEnqueues(r) == AllEnqueues(windows)
  {
    if windows == [] then [] else windows[1..]
  }

  // This thread takes a step of its own giveback, and then others run in the window that follows.
  method StepThenWindow(s1: State, a: Step, mine: nat, windows1: seq<seq<Step>>, ghost trace1: seq<Step>)
    returns (s: State, windows: seq<seq<Step>>, ghost trace: seq<Step>)
    requires s1 == Play(trace1) && Enabled(s1, a) && mine < |s1.place|
    requires Subject(s1, a) == Some(mine) && (a.Shutdown? || a.Callback? || a.PutDevice?)
    ensures s == Play(trace) && trace1 <= trace
    ensures Later(s1, AllEnqueues(windows1), s, AllEnqueues(windows))
    ensures a.Shutdown? ==> Listings(s) + AllEnqueues(windows) < Listings(s1) + AllEnqueues(windows1)
    ensures mine < |s.place| && s.place[mine] == Destination(a)
    ensures mine < |s1.subs| <= |s.subs| && s.subs[mine] == s1.subs[mine]
    ensures G.At(s.proposed, mine) == if a.Shutdown? then Some(-ESHUTDOWN) else G.At(s1.proposed, mine)
    ensures windows1 == [] ==> windows == [] && OthersKept(s1, s, mine)
  {
    hide Play, Apply, Listings, Enabled, Subject;
    PlayListedAt(trace1, Inbox, mine);
    StepKeepsOthers(trace1, a, mine);
    StepProposal(s1, a, mine);
    var t := Perform(s1, a, trace1);
    s, trace := Interfere(t, Window(windows1), mine, trace1 + [a]);
    windows := Rest(windows1);
    LaterTwice(s1, Enqueues(Window(windows1)), t, Enqueues(Window(windows1)), s, 0);
  }

  // The unlocked half of a giveback: the callback and the put of the device, each followed by a window.
  method FinishGiveback(s1: State, id: nat, windows1: seq<seq<Step>>, ghost trace1: seq<Step>)
    returns (s: State, windows: seq<seq<Step>>, ghost trace: seq<Step>)
    requires s1 == Play(trace1) && id < |s1.place| && s1.place[id].Unlinked?
    ensures s == Play(trace) && trace1 <= trace
    ensures Later(s1, AllEnqueues(windows1), s, AllEnqueues(windows))
    ensures id < |s.place| && s.place[id].Done?
    ensures id < |s1.subs| <= |s.subs| && s.subs[id] == s1.subs[id] && G.At(s.proposed, id) == G.At(s1.proposed, id)
    ensures windows1 == [] ==> windows == [] && OthersKept(s1, s, id)
  {
    hide Play, Apply, Listings, Advanced, Later, AllEnqueues, OthersKept;
    var t, w;
    PlayListedAt(trace1, Unlinked, id);
    t, w, trace := StepThenWindow(s1, Callback(id), id, windows1, trace1);
    PlayListedAt(trace, Called, id);
    s, windows, trace := StepThenWindow(t, PutDevice(id), id, w, trace);
    LaterTwice(s1, AllEnqueues(windows1), t, AllEnqueues(w), s, AllEnqueues(windows));
    if windows1 == [] {
      NoFewer(s1, AllEnqueues(windows1), t, AllEnqueues(w));
      OthersKeptTwice(s1, t, s, id);
    }
  }

  lemma NoFewer(s1: State, left1: nat, s: State, left: nat)
    requires Later(s1, left1, s, left)
    ensures |s1.place| <= |s.place|
  {
  }

  // The submission was completed with -ESHUTDOWN, unless it came in with a status of its own.
  predicate ShutDown(s: State, id: nat) {
    id < |s.subs| && id in s.delivered
    && s.delivered[id] == if s.subs[id].status == -EINPROGRESS then -ESHUTDOWN else s.subs[id].status
  }

  lemma DoneIsShutDown(trace: seq<Step>, id: nat)
    requires var s := Play(trace); id < |s.place| && s.place[id].Done? && G.At(s.proposed, id) == Some(-ESHUTDOWN)
    ensures ShutDown(Play(trace), id)
  {
    hide Play;
    AlwaysInv(trace);
    assert RecordOk(Play(trace), id);
  }

  // One round: unlink the first entry with -ESHUTDOWN, and with the lock released call it back and put its device.
  method GiveBackHead(s1: State, l: Place, windows1: seq<seq<Step>>, ghost trace1: seq<Step>)
    returns (s: State, windows: seq<seq<Step>>, ghost trace: seq<Step>)
    requires s1 == Play(trace1) && IsList(l) && Listed(s1, l) != []
    ensures s == Play(trace) && trace1 <= trace
    ensures Later(s1, AllEnqueues(windows1), s, AllEnqueues(windows))
    ensures Listings(s) + AllEnqueues(windows) < Listings(s1) + AllEnqueues(windows1)
    ensures Listed(s1, l)[0] < |s.place| && s.place[Listed(s1, l)[0]].Done?
    ensures ShutDown(s, Listed(s1, l)[0])
    ensures windows1 == [] ==> windows == [] && OnlyShutDown(s1, s)
  {
    hide Play, Apply, Listings, Advanced, AllEnqueues, OthersKept, ShutDown;
    var id := Listed(s1, l)[0];
    PlayListedAt(trace1, l, id);
    var t, w;
    t, w, trace := StepThenWindow(s1, Shutdown(l), id, windows1, trace1);
    s, windows, trace := FinishGiveback(t, id, w, trace);
    LaterTwice(s1, AllEnqueues(windows1), t, AllEnqueues(w), s, AllEnqueues(windows));
    DoneIsShutDown(trace, id);
    if windows1 == [] {
      NoFewer(s1, AllEnqueues(windows1), t, AllEnqueues(w));
      OthersKeptTwice(s1, t, s, id);
      NoFewer(s1, AllEnqueues(windows1), s, AllEnqueues(windows));
      OneShutDown(s1, s, id);
    }
  }

  // Every submission was left alone or shut down.
  ghost predicate OnlyShutDown(s1: State, s: State) {
    |s1.place| <= |s.place| && forall id: nat :: id < |s1.place| ==> G.Kept(s1, s, id) || ShutDown(s, id)
  }

  lemma OneShutDown(s1: State, s: State, mine: nat)
    requires OthersKept(s1, s, mine) && ShutDown(s, mine) && |s1.place| <= |s.place|
    ensures OnlyShutDown(s1, s)
  {
    hide ShutDown, G.Kept;
  }

  lemma OnlyShutDownTwice(s1: State, s2: State, s3: State)
    requires OnlyShutDown(s1, s2) && OnlyShutDown(s2, s3)
    ensures OnlyShutDown(s1, s3)
  {
    forall id: nat | id < |s1.place| ensures G.Kept(s1, s3, id) || ShutDown(s3, id) {
      assert G.Kept(s1, s2, id) || ShutDown(s2, id);
      assert G.Kept(s2, s3, id) || ShutDown(s3, id);
    }
  }

  lemma AloneShutDown(trace: seq<Step>)
    ensures OnlyShutDown(Play(trace), Play(trace))
  {
    hide Play;
    forall id: nat | id < |Play(trace).place| ensures G.Kept(Play(trace), Play(trace), id) {
      PlayListedAt(trace, Inbox, id);
    }
  }

  // One of the four loops of vhci_hcd_remove.
  method DrainList(s1: State, l: Place, windows1: seq<seq<Step>>, ghost trace1: seq<Step>)
    returns (s: State, windows: seq<seq<Step>>, ghost trace: seq<Step>)
    requires s1 == Play(trace1) && IsList(l)
    ensures s == Play(trace) && trace1 <= trace
    ensures Listed(s, l) == []
    ensures Later(s1, AllEnqueues(windows1), s, AllEnqueues(windows))
    ensures windows1 == [] ==> windows == [] && OnlyShutDown(s1, s)
  {
    hide Play, Listings, Apply, Enabled, OnlyShutDown, ShutDown;
    AloneShutDown(trace1);
    s, windows, trace := s1, windows1, trace1;
    while Listed(s, l) != []
      invariant s == Play(trace) && trace1 <= trace
      invariant Later(s1, AllEnqueues(windows1), s, AllEnqueues(windows))
      invariant windows1 == [] ==> windows == [] && OnlyShutDown(s1, s)
      decreases Listings(s) + AllEnqueues(windows)
    {
      var r, w := s, windows;
      s, windows, trace := GiveBackHead(s, l, windows, trace);
      LaterTwice(s1, AllEnqueues(windows1), r, AllEnqueues(w), s, AllEnqueues(windows));
      if windows1 == [] {
        OnlyShutDownTwice(s1, r, s);
      }
    }
  }

  // All submissions below the cutoff have come at least as far as the given rank.
  ghost predicate Past(s: State, cutoff: nat, r: nat) {
    cutoff <= |s.place| && forall id: nat :: id < cutoff ==> r <= Rank(s.place[id])
  }

  lemma LoopLeavesPast(s1: State, trace: seq<Step>, l: Place, cutoff: nat)
    requires Past(s1, cutoff, Rank(l)) && Advanced(s1, Play(trace)) && Listed(Play(trace), l) == []
    ensures Past(Play(trace), cutoff, Rank(l) + 1)
  {
    hide Play;
    var s := Play(trace);
    forall id: nat | id < cutoff ensures Rank(l) + 1 <= Rank(s.place[id]) {
      assert Rank(s1.place[id]) <= Rank(s.place[id]);
      PlayListedAt(trace, l, id);
    }
  }

  lemma OnlyLate(trace: seq<Step>, cutoff: nat)
    requires Past(Play(trace), cutoff, 4)
    ensures var s := Play(trace);
            && (forall p: Place, id: nat :: IsList(p) && id in Listed(s, p) ==> cutoff <= id)
            && (cutoff == |s.subs| ==> s.inbox == s.fetched == s.cancel == s.canceling == [])
  {
    hide Play;
    var s := Play(trace);
    forall p: Place, id: nat | IsList(p) && id in Listed(s, p) ensures cutoff <= id < |s.subs| {
      PlayListedAt(trace, p, id);
    }
    forall p: Place | IsList(p) ensures cutoff == |s.subs| ==> Listed(s, p) == [] {
      if Listed(s, p) != [] {
        assert Listed(s, p)[0] in Listed(s, p);
      }
    }
    assert cutoff == |s.subs| ==> Listed(s, Inbox) == Listed(s, Fetched) == Listed(s, Cancel) == Listed(s, Canceling) == [];
  }

  // vhci_hcd_remove, with whatever other threads do in its unlocked windows. It ends, and every submission accepted
  // before its first loop saw the inbox empty has left the lists; so if no URB is enqueued after that, the four
  // lists are empty.
  method Remove(s0: State, windows0: seq<seq<Step>>, ghost trace0: seq<Step>)
    returns (s: State, cutoff: nat, ghost trace: seq<Step>)
    requires s0 == Play(trace0)
    ensures s == Play(trace) && trace0 <= trace
    ensures |s0.subs| <= cutoff <= |s.subs|
    ensures forall p: Place, id: nat :: IsList(p) && id in Listed(s, p) ==> cutoff <= id
    ensures cutoff == |s.subs| ==> s.inbox == s.fetched == s.cancel == s.canceling == []
    ensures AllEnqueues(windows0) == 0 ==> cutoff == |s.subs| == |s0.subs|
    ensures windows0 == [] ==> forall p: Place, id: nat :: IsList(p) && id in Listed(s0, p) ==> ShutDown(s, id)
  {
    hide Play, Listings, Apply, Enabled, OnlyShutDown, ShutDown;
    var t, windows;
    t, windows, trace := DrainList(s0, Inbox, windows0, trace0);
    ghost var t1 := t;
    cutoff := |t.subs|;
    PlayListedAt(trace, Inbox, 0);
    LoopLeavesPast(t, trace, Inbox, cutoff);
    s, windows, trace := DrainList(t, Fetched, windows, trace);
    LoopLeavesPast(t, trace, Fetched, cutoff);
    t, windows, trace := DrainList(s, Cancel, windows, trace);
    LoopLeavesPast(s, trace, Cancel, cutoff);
    ghost var s2, t3 := s, t;
    s, windows, trace := DrainList(t, Canceling, windows, trace);
    LoopLeavesPast(t, trace, Canceling, cutoff);
    OnlyLate(trace, cutoff);
    if windows0 == [] {
      OnlyShutDownTwice(s0, t1, s2);
      OnlyShutDownTwice(s0, s2, t3);
      OnlyShutDownTwice(s0, t3, s);
      AllShutDown(trace0, trace);
    }
  }

  // If the four lists are empty and nothing but shutdowns happened, then all that was listed is shut down.
  lemma AllShutDown(trace0: seq<Step>, trace: seq<Step>)
    requires OnlyShutDown(Play(trace0), Play(trace))
    requires var s := Play(trace); s.inbox == s.fetched == s.cancel == s.canceling == []
    ensures forall p: Place, id: nat :: IsList(p) && id in Listed(Play(trace0), p) ==> ShutDown(Play(trace), id)
  {
    hide Play, ShutDown;
    forall p: Place, id: nat | IsList(p) && id in Listed(Play(trace0), p) ensures ShutDown(Play(trace), id) {
      PlayListedAt(trace0, p, id);
      PlayListedAt(trace, p, id);
      assert G.Kept(Play(trace0), Play(trace), id) || ShutDown(Play(trace), id);
    }
  }
}
