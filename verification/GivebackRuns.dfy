/** The giveback of one URB by user space, with other threads running in all of its unlocked windows. */
module GivebackRuns {
  import opened Basics
  import opened Errno
  import opened Urbs
  import opened UrbMachine
  import opened UrbInvariant
  import opened UrbRuns
  import opened Payload

  // --- A submission in the hands of a giveback ---

  // Taken off its list by a giveback, or unlinked by one.
  predicate Held(s: State, id: nat) {
    id < |s.place| && !IsList(s.place[id])
  }

  // The steps that only the thread which holds a submission takes.
  predicate Own(a: Step, id: nat) {
    (a.Answer? && a.id == id) || a == Return(id) || a == Callback(id) || a == PutDevice(id)
  }

  ghost predicate ByOthers(window: seq<Step>, id: nat) {
    forall k :: 0 <= k < |window| ==> !Own(window[k], id)
  }

  function At(cells: map<nat, int>, id: nat): Option<int> {
    if id in cells then Some(cells[id]) else None
  }

  // The submission is where it was, with the same proposal and the same completion.
  predicate Kept(s: State, t: State, id: nat) {
    && id < |s.place| <= |t.place| && id < |s.subs| <= |t.subs|
    && t.place[id] == s.place[id] && t.subs[id] == s.subs[id]
    && At(t.proposed, id) == At(s.proposed, id) && At(t.delivered, id) == At(s.delivered, id)
  }

  // No other thread can get hold of a held submission.
  lemma HeldBySelf(s: State, a: Step, id: nat)
    requires ListsMatch(s) && Held(s, id) && Enabled(s, a) && Subject(s, a) == Some(id)
    ensures Own(a, id)
  {
    ListedAt(s, Inbox, id);
    ListedAt(s, Fetched, id);
    ListedAt(s, Cancel, id);
    ListedAt(s, Canceling, id);
  }

  lemma CancelMovesKeep(s: State, x: nat, id: nat)
    requires |s.subs| == |s.place| && id < |s.place| && x != id
    ensures Kept(s, MoveToCancel(s, x), id)
    ensures s.cancel != [] && s.cancel[0] == x ==> Kept(s, MoveToCanceling(s), id)
  {
    hide Without, At;
  }

  lemma FetchMovesKeep(s: State, x: nat, id: nat)
    requires |s.subs| == |s.place| && id < |s.place| && x != id
    ensures Kept(s, TakeOff(s, x), id)
    ensures s.inbox != [] && s.inbox[0] == x ==> Kept(s, MoveToFetched(s), id)
  {
    hide Without, At;
  }

  lemma ProposalsKeep(s: State, x: nat, id: nat, p: Option<int>, status: int)
    requires |s.subs| == |s.place| && id < |s.place| && x != id
    ensures Kept(s, Unlink(s, x, p), id) && Kept(s, Propose(s, x, status), id)
  {
    hide Without, Proposed;
  }

  lemma CallbacksKeep(s: State, x: nat, id: nat)
    requires |s.subs| == |s.place| && id < |s.place| && x != id
    ensures Kept(s, CallBack(s, x), id) && Kept(s, Put(s, x), id)
  {
    hide Without;
  }

  lemma AcceptKeeps(s: State, u: Urb, id: nat)
    requires |s.subs| == |s.place| && id < |s.place|
    ensures Kept(s, Accept(s, u), id)
  {
    hide At;
  }

  lemma UnlinksKeep(s: State, a: Step, id: nat)
    requires |s.subs| == |s.place| && id < |s.place| && Enabled(s, a) && Subject(s, a) != Some(id)
    requires a.DequeueWaiting? || a.Reject? || a.Return? || a.Acknowledge? || a.Shutdown?
    ensures Kept(s, Apply(s, a), id)
  {
    hide Kept, Unlink;
    ProposalsKeep(s, Subject(s, a).value, id,
                  if a.Reject? then Some(-EPIPE) else if a.Shutdown? then Some(-ESHUTDOWN) else None, 0);
  }

  lemma OthersKeep(s: State, a: Step, id: nat)
    requires |s.subs| == |s.place| && id < |s.place| && Enabled(s, a) && Subject(s, a) != Some(id)
    ensures Kept(s, Apply(s, a), id)
  {
    hide Kept, Accept, Unlink, MoveToCancel, MoveToCanceling, MoveToFetched, TakeOff, Propose, CallBack, Put;
    match a
    case Enqueue(u) => AcceptKeeps(s, u, id);
    case DequeueFetched(x) => CancelMovesKeep(s, x, id);
    case ReportCancel => CancelMovesKeep(s, s.cancel[0], id);
    case ReportProcess => FetchMovesKeep(s, s.inbox[0], id);
    case Take(x) => FetchMovesKeep(s, x, id);
    case Answer(x, status) => ProposalsKeep(s, x, id, None, status);
    case Callback(x) => CallbacksKeep(s, x, id);
    case PutDevice(x) => CallbacksKeep(s, x, id);
    case _ => UnlinksKeep(s, a, id);
  }

  lemma {:induction false} WindowKeeps(steps: seq<Step>, window: seq<Step>, id: nat)
    requires Held(Play(steps), id) && ByOthers(window, id)
    ensures Kept(Play(steps), Play(steps + window), id)
  {
    hide Apply, Enabled;
    AlwaysInv(steps);
    if window == [] {
      assert steps + window == steps;
    } else {
      WindowKeeps(steps, Init(window), id);
      assert Init(steps + window) == steps + Init(window);
      var s, a := Play(steps + Init(window)), Last(window);
      AlwaysInv(steps + Init(window));
      if Enabled(s, a) {
        assert Subject(s, a) != Some(id) by {
          if Subject(s, a) == Some(id) { HeldBySelf(s, a, id); }
        }
        OthersKeep(s, a, id);
      }
    }
  }

  // --- The steps of the giveback itself ---

  predicate SameLists(s: State, t: State) {
    t.inbox == s.inbox && t.fetched == s.fetched && t.cancel == s.cancel && t.canceling == s.canceling
  }

  // One entry left the three lists of what user space has; the others kept their order.
  predicate OnlyRemoves(s: State, t: State, id: nat) {
    && t.inbox == s.inbox && t.fetched == Without(s.fetched, id)
    && t.cancel == Without(s.cancel, id) && t.canceling == Without(s.canceling, id)
  }

  lemma VoidRemoval(s: State, id: nat, status: int)
    requires id !in s.inbox && id !in s.fetched && id !in s.cancel && id !in s.canceling
    ensures SameLists(s, Unlink(s, id, None)) && SameLists(s, Propose(s, id, status))
    ensures SameLists(s, CallBack(s, id)) && SameLists(s, Put(s, id))
  {
    hide Without;
  }

  // list_del of a record that is in no list: after the first list_del, and whatever others did since, the second one
  // finds the record alone.
  lemma SecondRemovalIsVoid(steps: seq<Step>, a: Step, id: nat)
    requires Held(Play(steps), id) && Own(a, id)
    ensures SameLists(Play(steps), Play(steps + [a]))
  {
    hide Play, SameLists, Unlink, Propose, CallBack, Put;
    PlayAppend(steps, a);
    PlayListedAt(steps, Inbox, id);
    PlayListedAt(steps, Fetched, id);
    PlayListedAt(steps, Cancel, id);
    PlayListedAt(steps, Canceling, id);
    VoidRemoval(Play(steps), id, if a.Answer? then a.status else 0);
    SameListsRefl(Play(steps));
  }

  lemma SameListsRefl(s: State)
    ensures SameLists(s, s)
  {
  }

  // What is known of the submission in the course of its giveback.
  ghost predicate Holds(steps: seq<Step>, id: nat, u: Urb, p: Place, proposal: Option<int>) {
    var s := Play(steps);
    id < |s.place| && id < |s.subs| && s.place[id] == p && s.subs[id] == u && At(s.proposed, id) == proposal
  }

  lemma HoldsThroughWindow(steps: seq<Step>, id: nat, u: Urb, p: Place, proposal: Option<int>, window: seq<Step>)
    requires Holds(steps, id, u, p, proposal) && !IsList(p) && ByOthers(window, id)
    ensures Holds(steps + window, id, u, p, proposal)
  {
    hide Play;
    WindowKeeps(steps, window, id);
  }

  // How a state function moves a submission
  predicate Moves(s: State, t: State, id: nat, p: Place, proposal: Option<int>) {
    t.subs == s.subs && id < |t.place| == |s.place| && t.place[id] == p && At(t.proposed, id) == proposal
  }

  lemma TakeMoves(s: State, id: nat)
    requires id < |s.place|
    ensures Moves(s, TakeOff(s, id), id, Taken, At(s.proposed, id))
  {
    hide Without, At;
  }

  lemma AnswerMoves(s: State, id: nat, status: int)
    requires id < |s.place|
    ensures Moves(s, Propose(s, id, status), id, Answered, Some(status))
    ensures Moves(s, Unlink(s, id, None), id, Unlinked, At(s.proposed, id))
  {
    hide Without;
  }

  lemma CallbackMoves(s: State, id: nat)
    requires id < |s.place|
    ensures Moves(s, CallBack(s, id), id, Called, At(s.proposed, id))
    ensures Moves(s, Put(s, id), id, Done, At(s.proposed, id))
  {
    hide Without, At;
  }

  lemma OwnStepMoves(s: State, a: Step, id: nat)
    requires id < |s.place| && (a == Take(id) || Own(a, id)) && Enabled(s, a)
    ensures Moves(s, Apply(s, a), id, Destination(a), if a.Answer? then Some(a.status) else At(s.proposed, id))
  {
    hide Moves, At, TakeOff, Propose, Unlink, CallBack, Put;
    TakeMoves(s, id);
    AnswerMoves(s, id, if a.Answer? then a.status else 0);
    CallbackMoves(s, id);
  }

  lemma OwnStep(steps: seq<Step>, a: Step, id: nat, u: Urb, p: Place, proposal: Option<int>)
    requires Holds(steps, id, u, p, proposal) && (a == Take(id) || Own(a, id)) && Enabled(Play(steps), a)
    ensures Holds(steps + [a], id, u, Destination(a), if a.Answer? then Some(a.status) else proposal)
  {
    PlayAppend(steps, a);
    hide Play, Apply;
    PlayListedAt(steps, p, id);
    OwnStepMoves(Play(steps), a, id);
  }

  // The thread takes its next step, which it can, and then others run.
  lemma OwnStepThenWindow(steps: seq<Step>, a: Step, id: nat, u: Urb, p: Place, proposal: Option<int>, window: seq<Step>)
    requires Holds(steps, id, u, p, proposal) && Own(a, id) && ByOthers(window, id)
    requires (p.Taken? && (a.Answer? || a.Return?)) || (p.Answered? && a.Return?) || (p.Unlinked? && a.Callback?)
             || (p.Called? && a.PutDevice?)
    ensures Enabled(Play(steps), a) && SameLists(Play(steps), Play(steps + [a]))
    ensures Holds(steps + [a], id, u, Destination(a), if a.Answer? then Some(a.status) else proposal)
    ensures Holds(steps + [a] + window, id, u, Destination(a), if a.Answer? then Some(a.status) else proposal)
  {
    hide Play, SameLists;
    PlayListedAt(steps, p, id);
    OwnStep(steps, a, id, u, p, proposal);
    SecondRemovalIsVoid(steps, a, id);
    HoldsThroughWindow(steps + [a], id, u, Destination(a), if a.Answer? then Some(a.status) else proposal, window);
  }

  // --- The whole giveback ---

  // What other threads do after the record was taken off its list, after its answer was stored, after it was unlinked
  // and after the callback.
  datatype Windows = Windows(taken: seq<Step>, stored: seq<Step>, unlinked: seq<Step>, called: seq<Step>)

  ghost predicate AllByOthers(w: Windows, id: nat) {
    ByOthers(w.taken, id) && ByOthers(w.stored, id) && ByOthers(w.unlinked, id) && ByOthers(w.called, id)
  }

  function Proposal(subs: seq<Urb>, id: nat, a: Answer): seq<Step> {
    if Judged(subs, id, a) == 0 then [Step.Answer(id, a.status)] else []
  }

  // The run up to the answer, the return, the callback, the put of the device, and the end.
  function ToAnswer(trace: seq<Step>, id: nat, w: Windows): seq<Step> {
    trace + [Take(id)] + w.taken
  }

  function ToReturn(trace: seq<Step>, id: nat, a: Answer, w: Windows): seq<Step> {
    ToAnswer(trace, id, w) + Proposal(Play(trace).subs, id, a) + w.stored
  }

  function ToCallback(trace: seq<Step>, id: nat, a: Answer, w: Windows): seq<Step> {
    ToReturn(trace, id, a, w) + [Return(id)] + w.unlinked
  }

  function ToPut(trace: seq<Step>, id: nat, a: Answer, w: Windows): seq<Step> {
    ToCallback(trace, id, a, w) + [Callback(id)] + w.called
  }

  function ToEnd(trace: seq<Step>, id: nat, a: Answer, w: Windows): seq<Step> {
    ToPut(trace, id, a, w) + [PutDevice(id)]
  }

  // A step that finds what it needs, in spite of the others, and leaves the four lists alone
  ghost predicate Quiet(steps: seq<Step>, a: Step) {
    Enabled(Play(steps), a) && SameLists(Play(steps), Play(steps + [a]))
  }

  // Every step of the giveback can be taken. The first removes the submission from its list and nothing else, and the
  // others leave the lists as they find them.
  ghost predicate ListsRespected(trace: seq<Step>, id: nat, a: Answer, w: Windows) {
    && Enabled(Play(trace), Take(id)) && OnlyRemoves(Play(trace), Play(trace + [Take(id)]), id)
    && (Judged(Play(trace).subs, id, a) == 0 ==> Quiet(ToAnswer(trace, id, w), Step.Answer(id, a.status)))
    && Quiet(ToReturn(trace, id, a, w), Return(id))
    && Quiet(ToCallback(trace, id, a, w), Callback(id))
    && Quiet(ToPut(trace, id, a, w), PutDevice(id))
  }

  // The status that a giveback delivers
  function Outcome(u: Urb, err: int, a: Answer): int {
    if u.status == -EINPROGRESS && err == 0 then a.status else u.status
  }

  predicate Listed3(s: State, id: nat) {
    id in s.fetched || id in s.cancel || id in s.canceling
  }

  lemma BeforeTake(trace: seq<Step>, id: nat)
    requires Listed3(Play(trace), id)
    ensures var s := Play(trace);
            && id < |s.subs| && id < |s.place| && Holds(trace, id, s.subs[id], s.place[id], None)
            && IsList(s.place[id]) && id !in s.inbox && id !in s.delivered
  {
    hide Play;
    AlwaysInv(trace);
    PlayListedAt(trace, Inbox, id);
    PlayListedAt(trace, Fetched, id);
    PlayListedAt(trace, Cancel, id);
    PlayListedAt(trace, Canceling, id);
    assert RecordOk(Play(trace), id);
  }

  lemma TakeThenWindow(trace: seq<Step>, id: nat, window: seq<Step>)
    requires Listed3(Play(trace), id) && ByOthers(window, id)
    ensures Enabled(Play(trace), Take(id)) && OnlyRemoves(Play(trace), Play(trace + [Take(id)]), id)
    ensures id < |Play(trace).subs| && Holds(trace + [Take(id)] + window, id, Play(trace).subs[id], Taken, None)
  {
    BeforeTake(trace, id);
    PlayAppend(trace, Take(id));
    hide Play;
    var s := Play(trace);
    OwnStep(trace, Take(id), id, s.subs[id], s.place[id], None);
    HoldsThroughWindow(trace + [Take(id)], id, s.subs[id], Taken, None, window);
  }

  lemma AnswerThenWindow(trace: seq<Step>, id: nat, a: Answer, w: Windows)
    requires Listed3(Play(trace), id) && AllByOthers(w, id)
    ensures id < |Play(trace).subs|
    ensures var err := Judged(Play(trace).subs, id, a);
            && (err == 0 ==> Quiet(ToAnswer(trace, id, w), Step.Answer(id, a.status)))
            && Holds(ToReturn(trace, id, a, w), id, Play(trace).subs[id], if err == 0 then Answered else Taken,
                     if err == 0 then Some(a.status) else None)
  {
    hide Play, Judged, Enabled, SameLists, Holds, OnlyRemoves, ByOthers;
    var u := (BeforeTake(trace, id); Play(trace).subs[id]);
    var asked := ToAnswer(trace, id, w);
    TakeThenWindow(trace, id, w.taken);
    if Judged(Play(trace).subs, id, a) == 0 {
      OwnStepThenWindow(asked, Step.Answer(id, a.status), id, u, Taken, None, w.stored);
    } else {
      assert ToReturn(trace, id, a, w) == asked + w.stored;
      HoldsThroughWindow(asked, id, u, Taken, None, w.stored);
    }
  }

  // Whatever other threads do in between, the giveback of a listed submission goes through: its creator is called back
  // exactly once, even in all runs that go on after it, and gets the status that the answer and the initial status
  // determine.
  lemma GivebackInterleaved(trace: seq<Step>, id: nat, a: Answer, w: Windows, more: seq<Step>)
    requires Listed3(Play(trace), id) && AllByOthers(w, id)
    ensures ListsRespected(trace, id, a, w)
    ensures Completions(ToCallback(trace, id, a, w), id) == 0
    ensures Completions(ToCallback(trace, id, a, w) + [Callback(id)], id) == 1
    ensures Completions(ToEnd(trace, id, a, w) + more, id) == 1
    ensures var t := Play(ToEnd(trace, id, a, w));
            && id < |Play(trace).subs| && id in t.delivered && id < |t.place| && t.place[id].Done?
            && t.delivered[id] == Outcome(Play(trace).subs[id], Judged(Play(trace).subs, id, a), a)
  {
    hide Play, Judged, Enabled, SameLists, OnlyRemoves, Completions, Proposals, ToReturn, Holds, Own;
    var u := (BeforeTake(trace, id); Play(trace).subs[id]);
    var err := Judged(Play(trace).subs, id, a);
    var proposal := if err == 0 then Some(a.status) else None;
    TakeThenWindow(trace, id, w.taken);
    AnswerThenWindow(trace, id, a, w);
    FinishThenWindows(trace, id, a, w, u, if err == 0 then Answered else Taken, proposal);
    NotYet(ToCallback(trace, id, a, w), id, u, proposal);
    Once(ToCallback(trace, id, a, w) + [Callback(id)], [], id, u, Called, proposal);
    assert ToCallback(trace, id, a, w) + [Callback(id)] + [] == ToCallback(trace, id, a, w) + [Callback(id)];
    Once(ToEnd(trace, id, a, w), more, id, u, Done, proposal);
    AtPlace(ToEnd(trace, id, a, w), id, u, Done, proposal);
  }

  lemma AtPlace(steps: seq<Step>, id: nat, u: Urb, p: Place, proposal: Option<int>)
    requires Holds(steps, id, u, p, proposal)
    ensures id < |Play(steps).place| && Play(steps).place[id] == p
  {
  }

  lemma FinishThenWindows(trace: seq<Step>, id: nat, a: Answer, w: Windows, u: Urb, p: Place, proposal: Option<int>)
    requires AllByOthers(w, id) && Holds(ToReturn(trace, id, a, w), id, u, p, proposal) && (p.Taken? || p.Answered?)
    ensures Quiet(ToReturn(trace, id, a, w), Return(id)) && Holds(ToCallback(trace, id, a, w), id, u, Unlinked, proposal)
    ensures Quiet(ToCallback(trace, id, a, w), Callback(id))
    ensures Holds(ToCallback(trace, id, a, w) + [Callback(id)], id, u, Called, proposal)
    ensures Quiet(ToPut(trace, id, a, w), PutDevice(id)) && Holds(ToEnd(trace, id, a, w), id, u, Done, proposal)
  {
    hide Play, Enabled, SameLists, ToReturn, Holds;
    OwnStepThenWindow(ToReturn(trace, id, a, w), Return(id), id, u, p, proposal, w.unlinked);
    OwnStepThenWindow(ToCallback(trace, id, a, w), Callback(id), id, u, Unlinked, proposal, w.called);
    OwnStepThenWindow(ToPut(trace, id, a, w), PutDevice(id), id, u, Called, proposal, []);
  }

  lemma NotYet(steps: seq<Step>, id: nat, u: Urb, proposal: Option<int>)
    requires Holds(steps, id, u, Unlinked, proposal)
    ensures Completions(steps, id) == 0
  {
    hide Play, Completions;
    AlwaysInv(steps);
    assert RecordOk(Play(steps), id);
    HistoryCounts(steps, id);
  }

  lemma Once(steps: seq<Step>, more: seq<Step>, id: nat, u: Urb, p: Place, proposal: Option<int>)
    requires Holds(steps, id, u, p, proposal) && (p.Called? || p.Done?)
    ensures Completions(steps + more, id) == 1
    ensures var s := Play(steps);
            id in s.delivered && s.delivered[id] == if proposal.Some?
                && u.status == -EINPROGRESS then proposal.value else u.status
  {
    hide Play, Completions, Proposals;
    AlwaysInv(steps);
    assert RecordOk(Play(steps), id);
    AlwaysInv(steps + more);
    assert RecordOk(Play(steps + more), id);
    RunAdvances(steps, more);
    HistoryCounts(steps + more, id);
  }

  // A handle that is in none of the three lists is answered with -ENOENT and nothing else. Any other handle names one
  // submission, and its giveback goes through as GivebackInterleaved says.
  lemma GivebackContract(trace: seq<Step>, h: Handle, a: Answer, w: Windows, more: seq<Step>)
    ensures var m := Play(trace);
            FindThree(m, h).None? <==> forall id: nat :: Listed3(m, id) ==> id < |m.subs| && m.subs[id].handle != h
    ensures var m := Play(trace);
            var r := FindThree(m, h);
            r.Some? && AllByOthers(w, r.value) ==>
              && r.value < |m.subs| && m.subs[r.value].handle == h
              && ListsRespected(trace, r.value, a, w)
              && Completions(trace, r.value) == 0
              && Completions(ToEnd(trace, r.value, a, w) + more, r.value) == 1
              && var t := Play(ToEnd(trace, r.value, a, w));
                 r.value in t.delivered && t.delivered[r.value] == Outcome(m.subs[r.value], Judged(m.subs, r.value, a), a)
  {
    hide Play, FindHandle, Judged, Completions, ListsRespected, ToEnd, AllByOthers;
    var m := Play(trace);
    FindMeaning(m.subs, m.fetched, h);
    FindMeaning(m.subs, m.canceling, h);
    FindMeaning(m.subs, m.cancel, h);
    forall id: nat | Listed3(m, id) ensures id < |m.subs| {
      BeforeTake(trace, id);
    }
    var r := FindThree(m, h);
    if r.Some? && AllByOthers(w, r.value) {
      BeforeTake(trace, r.value);
      HistoryCounts(trace, r.value);
      GivebackInterleaved(trace, r.value, a, w, more);
    }
  }
}
