/** What holds after every interleaving of steps of the URB machine. */
module UrbRuns {
  import opened Basics
  import opened Errno
  import opened Urbs
  import opened UrbMachine
  import opened UrbInvariant

  // --- Runs ---

  lemma PlayAppend(trace: seq<Step>, a: Step)
    ensures Play(trace + [a]) == Try(Play(trace), a)
  {
    assert Init(trace + [a]) == trace;
  }

  // --- Ownership ---

  lemma PlayListedAt(steps: seq<Step>, p: Place, id: nat)
    ensures var s := Play(steps); id in Listed(s, p) <==> id < |s.place| && s.place[id] == p
    ensures |Play(steps).place| == |Play(steps).subs|
  {
    hide Play;
    AlwaysInv(steps);
    ListedAt(Play(steps), p, id);
  }

  // Each accepted submission is in exactly one place, once.
  lemma OneOwner(steps: seq<Step>, id: nat)
    ensures var s := Play(steps);
            if id < |s.subs| then
              exists p: Place :: Count(Listed(s, p), id) == 1 && forall q: Place :: q != p ==> id !in Listed(s, q)
            else
              forall p: Place :: id !in Listed(s, p)
  {
    hide Play, Listed, Count;
    var s := Play(steps);
    AlwaysInv(steps);
    forall p: Place ensures id in Listed(s, p) <==> id < |s.place| && s.place[id] == p {
      PlayListedAt(steps, p, id);
    }
    if id < |s.subs| {
      assert Counted(s, s.place[id], id);
    }
  }

  // A record is allocated, and urb->hcpriv points to it, exactly as long as the submission is in one of the four
  // lists or held by a running giveback; so no two live submissions have the same handle.
  lemma HcprivWhileLive(steps: seq<Step>, id: nat)
    ensures var s := Play(steps);
            id in s.inbox || id in s.fetched || id in s.cancel || id in s.canceling || id in s.taken || id in s.answered
            <==> id in s.record
    ensures var s := Play(steps);
            id in s.record <==> id < |s.subs| && s.subs[id].handle in s.hcpriv && s.hcpriv[s.subs[id].handle] == id
  {
    hide Play;
    var s := Play(steps);
    AlwaysInv(steps);
    assert RecordOk(s, id) && Points(s, id);
    assert id < |s.subs| ==> Pointed(s, s.subs[id].handle);
    ListedAt(s, Inbox, id);
    ListedAt(s, Fetched, id);
    ListedAt(s, Cancel, id);
    ListedAt(s, Canceling, id);
    ListedAt(s, Taken, id);
    ListedAt(s, Answered, id);
  }

  // --- Movement ---

  function Rank(p: Place): nat {
    match p
    case Inbox => 0
    case Fetched => 1
    case Cancel => 2
    case Canceling => 3
    case Taken => 4
    case Answered => 5
    case Unlinked => 6
    case Called => 7
    case Done => 8
  }

  // The submission a step works on.
  function Subject(s: State, a: Step): Option<nat>
    requires Enabled(s, a)
  {
    match a
    case Enqueue(_) => None
    case DequeueWaiting(id) => Some(id)
    case DequeueFetched(id) => Some(id)
    case ReportCancel => Some(s.cancel[0])
    case ReportProcess => Some(s.inbox[0])
    case Reject => Some(s.inbox[0])
    case Take(id) => Some(id)
    case Answer(id, _) => Some(id)
    case Return(id) => Some(id)
    case Acknowledge(id) => Some(id)
    case Shutdown(l) => Some(Listed(s, l)[0])
    case Callback(id) => Some(id)
    case PutDevice(id) => Some(id)
  }

  // Where a step puts the submission it works on.
  function Destination(a: Step): Place {
    match a
    case Enqueue(_) => Inbox
    case DequeueFetched(_) => Cancel
    case ReportCancel => Canceling
    case ReportProcess => Fetched
    case Take(_) => Taken
    case Answer(_, _) => Answered
    case Callback(_) => Called
    case PutDevice(_) => Done
    case _ => Unlinked
  }

  lemma SubjectIsListed(s: State, a: Step)
    requires ListsMatch(s) && RecordsMatch(s) && Enabled(s, a) && !a.Enqueue?
    ensures var id := Subject(s, a).value;
            && id < |s.place| && RecordOk(s, id)
            && Rank(s.place[id]) < Rank(Destination(a))
            && (s.place[id].Unlinked? <==> a.Callback?)
            && (s.place[id].Called? <==> a.PutDevice?)
            && (Destination(a).Unlinked? || a.Take? ==> Live(s, id))
  {
    var id := Subject(s, a).value;
    match a
    case DequeueWaiting(_) => Found(s, Inbox, id);
    case DequeueFetched(_) => Found(s, Fetched, id);
    case ReportCancel => Found(s, Cancel, id);
    case ReportProcess => Found(s, Inbox, id);
    case Reject => Found(s, Inbox, id);
    case Take(_) => FoundIn3(s, Fetched, Cancel, Canceling, id);
    case Answer(_, _) => Found(s, Taken, id);
    case Return(_) => FoundIn3(s, Taken, Taken, Answered, id);
    case Acknowledge(_) => FoundIn3(s, Cancel, Cancel, Canceling, id);
    case Shutdown(l) => Found(s, l, id);
    case Callback(_) => Found(s, Unlinked, id);
    case PutDevice(_) => Found(s, Called, id);
  }

  lemma StepPlace(s: State, a: Step)
    requires ListsMatch(s) && RecordsMatch(s) && Enabled(s, a) && !a.Enqueue? && Subject(s, a).value < |s.place|
    ensures Apply(s, a).place == s.place[Subject(s, a).value := Destination(a)]
  {
  }

  // A step moves its own submission forward and leaves every other one where it is. It works on an allocated
  // record, unless it is the callback or the final put of an unlinked submission.
  lemma StepMovesForward(steps: seq<Step>, a: Step, id: nat)
    requires Enabled(Play(steps), a) && id < |Play(steps).place|
    ensures var s, t := Play(steps), Apply(Play(steps), a);
            if Subject(s, a) == Some(id) then
              && id < |t.place| && t.place[id] == Destination(a) && Rank(s.place[id]) < Rank(t.place[id])
              && (id in s.record || a == Callback(id) || a == PutDevice(id))
              && (GivenBack(s, id) ==> a == Callback(id) || a == PutDevice(id))
            else
              id < |t.place| && t.place[id] == s.place[id]
  {
    hide Play;
    AlwaysInv(steps);
    var s := Play(steps);
    if !a.Enqueue? {
      SubjectIsListed(s, a);
      StepPlace(s, a);
    }
  }

  // No submission moved back.
  ghost predicate Advanced(s: State, t: State) {
    && |s.place| <= |t.place|
    && forall id: nat :: id < |s.place| ==> Rank(s.place[id]) <= Rank(t.place[id])
  }

  lemma StepAdvances(steps: seq<Step>, a: Step)
    ensures Advanced(Play(steps), Try(Play(steps), a))
  {
    hide Play, Apply, Enabled, Subject, Destination;
    var s := Play(steps);
    if Enabled(s, a) {
      forall id: nat | id < |s.place| ensures id < |Apply(s, a).place| && Rank(s.place[id]) <= Rank(Apply(s, a).place[id]) {
        StepMovesForward(steps, a, id);
      }
      if |s.place| > 0 {
        StepMovesForward(steps, a, |s.place| - 1);
      }
    }
  }

  lemma {:induction false} RunAdvances(steps: seq<Step>, more: seq<Step>)
    ensures Advanced(Play(steps), Play(steps + more))
  {
    hide Apply, Enabled;
    if more == [] {
      assert steps + more == steps;
    } else {
      RunAdvances(steps, Init(more));
      assert Init(steps + more) == steps + Init(more);
      StepAdvances(steps + Init(more), Last(more));
    }
  }

  // --- Completion and status ---

  // How often the creator of a submission was called back.
  function Completions(steps: seq<Step>, id: nat): nat {
    if steps == [] then 0 else
      Completions(Init(steps), id) + if Last(steps) == Callback(id) && Enabled(Play(Init(steps)), Last(steps)) then 1 else 0
  }

  // Whether a step proposes a status for a submission.
  predicate Proposes(s: State, a: Step, id: nat) {
    Enabled(s, a) && Subject(s, a) == Some(id) && (a.Answer? || a.Reject? || a.Shutdown?)
  }

  function Proposals(steps: seq<Step>, id: nat): nat {
    if steps == [] then 0 else
      Proposals(Init(steps), id) + if Proposes(Play(Init(steps)), Last(steps), id) then 1 else 0
  }

  lemma StepDelivers(s: State, a: Step, id: nat)
    requires ListsMatch(s) && RecordsMatch(s) && Enabled(s, a)
    ensures a == Callback(id) ==> id !in s.delivered && id in Apply(s, a).delivered
    ensures a != Callback(id) ==> (id in Apply(s, a).delivered <==> id in s.delivered)
  {
    if a == Callback(id) {
      Found(s, Unlinked, id);
    }
  }

  lemma StepProposes(s: State, a: Step, id: nat)
    requires ListsMatch(s) && RecordsMatch(s) && Enabled(s, a)
    ensures Proposes(s, a, id) ==> id !in s.proposed && id in Apply(s, a).proposed
    ensures !Proposes(s, a, id) ==> (id in Apply(s, a).proposed <==> id in s.proposed)
  {
    if Proposes(s, a, id) {
      match a
      case Reject => Found(s, Inbox, id);
      case Answer(_, _) => Found(s, Taken, id);
      case Shutdown(l) => Found(s, l, id);
      case _ =>
    }
  }

  lemma {:induction false} HistoryCounts(steps: seq<Step>, id: nat)
    ensures Completions(steps, id) == if id in Play(steps).delivered then 1 else 0
    ensures Proposals(steps, id) == if id in Play(steps).proposed then 1 else 0
  {
    hide Apply, Enabled;
    if steps != [] {
      HistoryCounts(Init(steps), id);
      AlwaysInv(Init(steps));
      if Enabled(Play(Init(steps)), Last(steps)) {
        StepDelivers(Play(Init(steps)), Last(steps), id);
        StepProposes(Play(Init(steps)), Last(steps), id);
      }
    }
  }

  // A submission is called back at most once and gets at most one status proposal. The status delivered is that
  // proposal if the URB came in with -EINPROGRESS, and otherwise the status it came in with.
  lemma CompletedOnce(steps: seq<Step>, id: nat)
    ensures Completions(steps, id) <= 1 && Proposals(steps, id) <= 1
    ensures Completions(steps, id) == 1 <==> id in Play(steps).delivered
    ensures var s := Play(steps);
            id in s.delivered ==>
              && id < |s.subs|
              && s.delivered[id] == if Proposals(steps, id) == 1 && id in s.proposed && s.subs[id].status == -EINPROGRESS
                                    then s.proposed[id] else s.subs[id].status
  {
    hide Play, Completions, Proposals;
    HistoryCounts(steps, id);
    AlwaysInv(steps);
    assert RecordOk(Play(steps), id);
  }

  // --- Device references ---

  function Gets(steps: seq<Step>, d: Device): nat {
    if steps == [] then 0 else
      Gets(Init(steps), d)
      + if Enabled(Play(Init(steps)), Last(steps)) && Last(steps).Enqueue? && Last(steps).urb.device == d then 1 else 0
  }

  predicate PutsDevice(s: State, a: Step, d: Device) {
    Enabled(s, a) && a.PutDevice? && a.id < |s.subs| && s.subs[a.id].device == d
  }

  function Puts(steps: seq<Step>, d: Device): nat {
    if steps == [] then 0 else
      Puts(Init(steps), d) + if PutsDevice(Play(Init(steps)), Last(steps), d) then 1 else 0
  }

  lemma StepRefs(s: State, a: Step, d: Device)
    requires ListsMatch(s) && RecordsMatch(s) && Enabled(s, a)
    ensures Refs(Apply(s, a), d) == Refs(s, d) + (if a.Enqueue? && a.urb.device == d then 1 else 0)
                                    - (if PutsDevice(s, a, d) then 1 else 0)
  {
    if a.PutDevice? {
      Found(s, Called, a.id);
    }
  }

  lemma {:induction false} RefsCount(steps: seq<Step>, d: Device)
    ensures Refs(Play(steps), d) == Gets(steps, d) - Puts(steps, d)
  {
    hide Apply, Enabled;
    if steps != [] {
      RefsCount(Init(steps), d);
      AlwaysInv(Init(steps));
      if Enabled(Play(Init(steps)), Last(steps)) {
        StepRefs(Play(Init(steps)), Last(steps), d);
      }
    }
  }

  // Gets minus puts is the number of live submissions of the device plus the number of its givebacks that were
  // unlinked and have not yet put the device.
  lemma ReferencesConserved(steps: seq<Step>, d: Device)
    ensures var s := Play(steps);
            Gets(steps, d) - Puts(steps, d)
            == |set id: nat | id < |s.subs| && s.subs[id].device == d
                              && (id in s.record || id in s.unlinked || id in s.called)|
  {
    hide Play, Gets, Puts;
    var s := Play(steps);
    RefsCount(steps, d);
    AlwaysInv(steps);
    assert Balanced(s, d);
    forall id: nat | id < |s.subs|
      ensures !s.place[id].Done? <==> id in s.record || id in s.unlinked || id in s.called
    {
      assert RecordOk(s, id);
      PlayListedAt(steps, Unlinked, id);
      PlayListedAt(steps, Called, id);
    }
    assert Holders(s.subs, s.place, d)
        == set id: nat | id < |s.subs| && s.subs[id].device == d && (id in s.record || id in s.unlinked || id in s.called);
  }

  // --- Reports ---

  // Process reports come in acceptance order and cancel notices in dequeue order, each at most once per submission.
  // Every cancel notice comes after the process report of its submission.
  lemma ReportsOrdered(steps: seq<Step>)
    ensures var r := Play(steps).reports;
            forall i, j :: 0 <= i < j < |r| ==> r[i] != r[j] && (r[i].Process? && r[j].Process? ==> r[i].id < r[j].id)
    ensures var r, order := Play(steps).reports, Play(steps).dequeued;
            forall i, j :: 0 <= i < j < |r| && r[i].CancelNotice? && r[j].CancelNotice? ==>
              r[i].id in order && r[j].id in order && order[r[i].id] < order[r[j].id]
    ensures var r := Play(steps).reports;
            forall j :: 0 <= j < |r| && r[j].CancelNotice? ==> exists k :: 0 <= k < j && r[k] == Process(r[j].id)
  {
    hide Play, ListsMatch, HandlesMatch, RecordsMatch, OutAreTracked, RefsBalance;
    AlwaysInv(steps);
    var r := Play(steps).reports;
    forall j | 0 <= j < |r| && r[j].CancelNotice? ensures exists k :: 0 <= k < j && r[k] == Process(r[j].id) {
      assert Process(r[j].id) in r[..j];
    }
  }

  // Everything user space has passed the test made at fetch time.
  lemma HandedOutWasTested(steps: seq<Step>, id: nat)
    ensures var s := Play(steps);
            id in s.fetched || id in s.cancel || id in s.canceling || id in s.taken || id in s.answered ==>
              id < |s.subs| && Acceptable(s.subs[id]) && Submittable(s.subs[id]) && Process(id) in s.reports
  {
    hide Play, HandlesMatch, RecordsMatch, ReportsInOrder, RefsBalance;
    var s := Play(steps);
    AlwaysInv(steps);
    PlayListedAt(steps, Fetched, id);
    PlayListedAt(steps, Cancel, id);
    PlayListedAt(steps, Canceling, id);
    PlayListedAt(steps, Taken, id);
    PlayListedAt(steps, Answered, id);
    assert Tracked(s, id);
  }

  // --- Search by handle ---

  // The search of giveback (fetched, canceling, cancel) and of fetch-data (fetched, cancel, canceling) find the same
  // record: the one that urb->hcpriv points to, if it is in one of the three lists.
  lemma SearchOrdersAgree(steps: seq<Step>, h: Handle)
    ensures var s := Play(steps);
            && FindTwo(s, s.canceling, s.cancel, h) == FindTwo(s, s.cancel, s.canceling, h)
            && FindThree(s, h) == if h in s.hcpriv && (s.hcpriv[h] in s.fetched || s.hcpriv[h] in s.cancel
                || s.hcpriv[h] in s.canceling)
                                  then Some(s.hcpriv[h]) else None
  {
    hide Play, FindHandle;
    var s := Play(steps);
    AlwaysInv(steps);
    FindIsHcpriv(s, Fetched, h);
    FindIsHcpriv(s, Cancel, h);
    FindIsHcpriv(s, Canceling, h);
  }
}
