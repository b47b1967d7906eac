/** Every step of the URB machine keeps its invariant. */
module UrbInvariant {
  import opened Basics
  import opened Errno
  import opened Urbs
  import opened UrbMachine

  lemma {:induction false} AppendCount(q: seq<nat>, id: nat, x: nat)
    ensures Count(q + [id], x) == Count(q, x) + if x == id then 1 else 0
  {
    if q == [] {
      assert q + [id] == [id];
    } else {
      AppendCount(q[1..], id, x);
      assert (q + [id])[1..] == q[1..] + [id];
    }
  }

  // w is what is left of q without id.
  predicate Leaves(q: seq<nat>, id: nat, w: seq<nat>) {
    if q == [] then w == []
    else if q[0] == id then Leaves(q[1..], id, w)
    else w != [] && w[0] == q[0] && Leaves(q[1..], id, w[1..])
  }

  lemma {:induction false} WithoutLeaves(q: seq<nat>, id: nat)
    ensures Leaves(q, id, Without(q, id))
  {
    if q != [] {
      WithoutLeaves(q[1..], id);
      assert Without(q, id) == if q[0] == id then Without(q[1..], id) else [q[0]] + Without(q[1..], id);
    }
  }

  lemma {:induction false} LeavesCount(q: seq<nat>, id: nat, w: seq<nat>, x: nat)
    requires Leaves(q, id, w)
    ensures Count(w, x) == if x == id then 0 else Count(q, x)
  {
    if q != [] {
      LeavesCount(q[1..], id, if q[0] == id then w else w[1..], x);
    }
  }

  lemma WithoutCount(q: seq<nat>, id: nat, x: nat)
    ensures Count(Without(q, id), x) == if x == id then 0 else Count(q, x)
  {
    hide Without, Count;
    WithoutLeaves(q, id);
    LeavesCount(q, id, Without(q, id), x);
  }

  lemma {:induction false} LeavesAt(q: seq<nat>, id: nat, w: seq<nat>, i: nat) returns (a: nat)
    requires Leaves(q, id, w) && i < |w|
    ensures a < |q| && q[a] == w[i]
  {
    if q[0] != id && i == 0 {
      a := 0;
    } else {
      if q[0] == id {
        a := LeavesAt(q[1..], id, w, i);
      } else {
        a := LeavesAt(q[1..], id, w[1..], i - 1);
      }
      a := a + 1;
    }
  }

  // list_del keeps the order of what is left.
  lemma {:induction false} LeavesOrder(q: seq<nat>, id: nat, w: seq<nat>, i: nat, j: nat) returns (a: nat, b: nat)
    requires Leaves(q, id, w) && i < j < |w|
    ensures a < b < |q| && q[a] == w[i] && q[b] == w[j]
  {
    if q[0] == id {
      a, b := LeavesOrder(q[1..], id, w, i, j);
      a, b := a + 1, b + 1;
    } else if i == 0 {
      b := LeavesAt(q[1..], id, w[1..], j - 1);
      a, b := 0, b + 1;
    } else {
      a, b := LeavesOrder(q[1..], id, w[1..], i - 1, j - 1);
      a, b := a + 1, b + 1;
    }
  }

  // One submission leaves its place for the tail of another.
  lemma MovedLists(s: State, t: State, id: nat, to: Place)
    requires ListsMatch(s) && id < |s.place| && s.place[id] != to
    requires t.subs == s.subs && t.place == s.place[id := to]
    requires forall p: Place :: Listed(t, p) == if p == to then Listed(s, p) + [id] else Without(Listed(s, p), id)
    ensures ListsMatch(t)
  {
    forall p: Place, x: nat ensures Counted(t, p, x) {
      assert Counted(s, p, x);
      assert Listed(t, p) == if p == to then Listed(s, p) + [id] else Without(Listed(s, p), id);
      WithoutCount(Listed(s, p), id, x);
      AppendCount(Listed(s, p), id, x);
    }
  }

  lemma OnlyAt(s: State, id: nat)
    requires ListsMatch(s) && id < |s.place|
    ensures forall p: Place :: p != s.place[id] ==> Without(Listed(s, p), id) == Listed(s, p)
  {
    forall p: Place | p != s.place[id] ensures Without(Listed(s, p), id) == Listed(s, p) {
      ListedAt(s, p, id);
    }
  }

  lemma AcceptLists(s: State, u: Urb)
    requires ListsMatch(s)
    ensures ListsMatch(Accept(s, u))
  {
    var t := Accept(s, u);
    forall p: Place, x: nat ensures Counted(t, p, x) {
      assert Counted(s, p, x);
      AppendCount(s.inbox, |s.subs|, x);
    }
  }

  lemma UnlinkLists(s: State, id: nat, q: Option<int>)
    requires ListsMatch(s) && id < |s.subs| && id in s.record && Live(s, id)
    ensures ListsMatch(Unlink(s, id, q))
  {
    hide Without, Counted;
    OnlyAt(s, id);
    MovedLists(s, Unlink(s, id, q), id, Unlinked);
  }

  lemma MoveToCancelLists(s: State, id: nat)
    requires ListsMatch(s) && id < |s.place| && s.place[id].Fetched?
    ensures ListsMatch(MoveToCancel(s, id))
  {
    hide Without, Counted;
    OnlyAt(s, id);
    MovedLists(s, MoveToCancel(s, id), id, Cancel);
  }

  lemma MoveToCancelingLists(s: State)
    requires ListsMatch(s) && s.cancel != [] && s.cancel[0] < |s.place| && s.place[s.cancel[0]].Cancel?
    ensures ListsMatch(MoveToCanceling(s))
  {
    hide Without, Counted;
    OnlyAt(s, s.cancel[0]);
    MovedLists(s, MoveToCanceling(s), s.cancel[0], Canceling);
  }

  lemma MoveToFetchedLists(s: State)
    requires ListsMatch(s) && s.inbox != [] && s.inbox[0] < |s.place| && s.place[s.inbox[0]].Inbox?
    ensures ListsMatch(MoveToFetched(s))
  {
    hide Without, Counted;
    OnlyAt(s, s.inbox[0]);
    MovedLists(s, MoveToFetched(s), s.inbox[0], Fetched);
  }

  lemma TakeOffLists(s: State, id: nat)
    requires ListsMatch(s) && Out(s, id) && IsList(s.place[id])
    ensures ListsMatch(TakeOff(s, id))
  {
    hide Without, Counted;
    OnlyAt(s, id);
    MovedLists(s, TakeOff(s, id), id, Taken);
  }

  lemma ProposeLists(s: State, id: nat, status: int)
    requires ListsMatch(s) && id < |s.place| && id in s.record && s.place[id].Taken?
    ensures ListsMatch(Propose(s, id, status))
  {
    hide Without, Counted;
    OnlyAt(s, id);
    MovedLists(s, Propose(s, id, status), id, Answered);
  }

  lemma CallBackLists(s: State, id: nat)
    requires ListsMatch(s) && id < |s.place| && id in s.outgoing && s.place[id].Unlinked?
    ensures ListsMatch(CallBack(s, id))
  {
    hide Without, Counted;
    OnlyAt(s, id);
    MovedLists(s, CallBack(s, id), id, Called);
  }

  lemma PutLists(s: State, id: nat)
    requires ListsMatch(s) && id < |s.place| && s.place[id].Called?
    ensures ListsMatch(Put(s, id))
  {
    hide Without, Counted;
    OnlyAt(s, id);
    MovedLists(s, Put(s, id), id, Done);
  }

  // --- Handles and records ---

  lemma AcceptRecords(s: State, u: Urb)
    requires HandlesMatch(s) && RecordsMatch(s) && u.handle !in s.hcpriv
    ensures HandlesMatch(Accept(s, u)) && RecordsMatch(Accept(s, u))
  {
    var t := Accept(s, u);
    forall h: Handle ensures Pointed(t, h) {
      assert Pointed(s, h);
    }
    forall x: nat ensures Points(t, x) && RecordOk(t, x) {
      assert Points(s, x) && RecordOk(s, x);
    }
  }

  lemma UnlinkHandles(s: State, id: nat, p: Option<int>)
    requires HandlesMatch(s) && Live(s, id) && Points(s, id)
    ensures HandlesMatch(Unlink(s, id, p))
  {
    hide Without, Proposed;
    var t := Unlink(s, id, p);
    forall h: Handle ensures Pointed(t, h) {
      assert Pointed(s, h);
    }
    forall x: nat ensures Points(t, x) {
      assert Points(s, x);
    }
  }

  lemma UnlinkRecords(s: State, id: nat, p: Option<int>)
    requires RecordsMatch(s) && Live(s, id) && RecordOk(s, id)
    requires p.Some? ==> IsList(s.place[id])
    ensures RecordsMatch(Unlink(s, id, p))
  {
    hide Without;
    var t := Unlink(s, id, p);
    forall x: nat ensures RecordOk(t, x) {
      assert RecordOk(s, x);
    }
  }

  // A move within the lists, or out of them into a call of giveback, touches no record.
  lemma MovedRecords(s: State, t: State, id: nat, p: Place)
    requires HandlesMatch(s) && RecordsMatch(s) && id < |s.place| && IsList(s.place[id]) && (IsList(p) || p.Taken?)
    requires t.subs == s.subs && t.hcpriv == s.hcpriv && t.record == s.record && t.outgoing == s.outgoing
    requires t.proposed == s.proposed && t.delivered == s.delivered && t.place == s.place[id := p]
    ensures HandlesMatch(t) && RecordsMatch(t)
  {
    forall h: Handle ensures Pointed(t, h) {
      assert Pointed(s, h);
    }
    forall x: nat ensures Points(t, x) && RecordOk(t, x) {
      assert Points(s, x) && RecordOk(s, x);
    }
  }

  lemma ProposeRecords(s: State, id: nat, status: int)
    requires HandlesMatch(s) && RecordsMatch(s) && id < |s.place| && s.place[id].Taken? && RecordOk(s, id)
    ensures HandlesMatch(Propose(s, id, status)) && RecordsMatch(Propose(s, id, status))
  {
    var t := Propose(s, id, status);
    forall h: Handle ensures Pointed(t, h) {
      assert Pointed(s, h);
    }
    forall x: nat ensures Points(t, x) && RecordOk(t, x) {
      assert Points(s, x) && RecordOk(s, x);
    }
  }

  lemma CallBackRecords(s: State, id: nat)
    requires HandlesMatch(s) && RecordsMatch(s) && id < |s.place| && s.place[id].Unlinked? && RecordOk(s, id)
    ensures HandlesMatch(CallBack(s, id)) && RecordsMatch(CallBack(s, id))
  {
    var t := CallBack(s, id);
    forall h: Handle ensures Pointed(t, h) {
      assert Pointed(s, h);
    }
    forall x: nat ensures Points(t, x) && RecordOk(t, x) {
      assert Points(s, x) && RecordOk(s, x);
    }
  }

  lemma PutRecords(s: State, id: nat)
    requires HandlesMatch(s) && RecordsMatch(s) && id < |s.place| && s.place[id].Called? && RecordOk(s, id)
    ensures HandlesMatch(Put(s, id)) && RecordsMatch(Put(s, id))
  {
    var t := Put(s, id);
    forall h: Handle ensures Pointed(t, h) {
      assert Pointed(s, h);
    }
    forall x: nat ensures Points(t, x) && RecordOk(t, x) {
      assert Points(s, x) && RecordOk(s, x);
    }
  }

  // --- Tests, reports and stamps of single submissions ---

  lemma TrackedStays(s: State, t: State)
    requires OutAreTracked(s) && t.subs == s.subs && |t.place| == |s.place|
    requires t.reports == s.reports && t.dequeued == s.dequeued
    requires forall x: nat :: x < |t.place| ==> t.place[x] == s.place[x] || (!t.place[x].Inbox? && !t.place[x].Fetched?)
    requires forall x: nat :: Out(t, x) ==> Out(s, x)
    ensures OutAreTracked(t)
  {
    forall x: nat ensures Tracked(t, x) {
      assert Tracked(s, x);
    }
  }

  lemma AcceptTracked(s: State, u: Urb)
    requires OutAreTracked(s) && Submittable(u)
    ensures OutAreTracked(Accept(s, u))
  {
    forall x: nat ensures Tracked(Accept(s, u), x) {
      assert Tracked(s, x);
    }
  }

  lemma MoveToFetchedTracked(s: State)
    requires OutAreTracked(s) && s.inbox != [] && s.inbox[0] < |s.place| && s.place[s.inbox[0]].Inbox?
    requires Acceptable(s.subs[s.inbox[0]])
    ensures OutAreTracked(MoveToFetched(s))
  {
    var t := MoveToFetched(s);
    assert t.reports[|s.reports|] == Process(s.inbox[0]);
    forall x: nat ensures Tracked(t, x) {
      assert Tracked(s, x);
    }
  }

  lemma MoveToCancelTracked(s: State, id: nat)
    requires OutAreTracked(s) && id < |s.place| && s.place[id].Fetched?
    ensures OutAreTracked(MoveToCancel(s, id))
  {
    forall x: nat ensures Tracked(MoveToCancel(s, id), x) {
      assert Tracked(s, x);
    }
  }

  lemma MoveToCancelingTracked(s: State)
    requires OutAreTracked(s) && s.cancel != [] && s.cancel[0] < |s.place| && s.place[s.cancel[0]].Cancel?
    ensures OutAreTracked(MoveToCanceling(s))
  {
    forall x: nat ensures Tracked(MoveToCanceling(s), x) {
      assert Tracked(s, x);
    }
  }

  // --- Order of reports ---

  // Taking a submission off keeps the order of the rest.
  lemma RemovalKeepsProcess(inbox: seq<nat>, id: nat, reports: seq<Report>)
    requires ProcessInOrder(inbox, reports)
    ensures ProcessInOrder(Without(inbox, id), reports)
  {
    var q := Without(inbox, id);
    forall i, j | 0 <= i < j < |q| ensures q[i] < q[j] {
      WithoutLeaves(inbox, id);
      var a, b := LeavesOrder(inbox, id, q, i, j);
    }
    forall i | 0 <= i < |q| ensures q[i] in inbox {
      WithoutLeaves(inbox, id);
      var a := LeavesAt(inbox, id, q, i);
    }
  }

  lemma RemovalKeepsCancel(cancel: seq<nat>, id: nat, reports: seq<Report>, stamp: map<nat, nat>)
    requires CancelInOrder(cancel, reports, stamp)
    ensures CancelInOrder(Without(cancel, id), reports, stamp)
  {
    var q := Without(cancel, id);
    forall i | 0 <= i < |q| ensures q[i] in cancel {
      WithoutLeaves(cancel, id);
      var a := LeavesAt(cancel, id, q, i);
    }
    forall i, j | 0 <= i < j < |q| ensures stamp[q[i]] < stamp[q[j]] {
      WithoutLeaves(cancel, id);
      var a, b := LeavesOrder(cancel, id, q, i, j);
    }
  }

  lemma ProcessHead(inbox: seq<nat>, reports: seq<Report>)
    requires ProcessInOrder(inbox, reports) && inbox != []
    ensures ProcessInOrder(Without(inbox, inbox[0]), reports + [Process(inbox[0])])
  {
    RemovalKeepsProcess(inbox, inbox[0], reports);
    var q := Without(inbox, inbox[0]);
    forall i | 0 <= i < |q| ensures inbox[0] < q[i] {
      assert q[i] in inbox && q[i] != inbox[0];
      var k :| 0 < k < |inbox| && inbox[k] == q[i];
    }
    AfterHead(q, reports, inbox[0]);
  }

  lemma AfterHead(q: seq<nat>, reports: seq<Report>, id: nat)
    requires ProcessInOrder(q, reports)
    requires forall i :: 0 <= i < |q| ==> id < q[i]
    requires forall k :: 0 <= k < |reports| && reports[k].Process? ==> reports[k].id < id
    ensures ProcessInOrder(q, reports + [Process(id)])
  {
  }

  lemma CancelHead(cancel: seq<nat>, reports: seq<Report>, stamp: map<nat, nat>)
    requires CancelInOrder(cancel, reports, stamp) && cancel != []
    ensures CancelInOrder(Without(cancel, cancel[0]), reports + [CancelNotice(cancel[0])], stamp)
  {
    RemovalKeepsCancel(cancel, cancel[0], reports, stamp);
    var q := Without(cancel, cancel[0]);
    forall i | 0 <= i < |q| ensures stamp[cancel[0]] < stamp[q[i]] {
      assert q[i] in cancel && q[i] != cancel[0];
      var k :| 0 < k < |cancel| && cancel[k] == q[i];
    }
    NoticeOfHead(q, reports, stamp, cancel[0]);
  }

  lemma NoticeOfHead(q: seq<nat>, reports: seq<Report>, stamp: map<nat, nat>, id: nat)
    requires CancelInOrder(q, reports, stamp) && id in stamp
    requires forall i :: 0 <= i < |q| ==> stamp[id] < stamp[q[i]]
    requires forall k :: 0 <= k < |reports| && reports[k].CancelNotice? ==> stamp[reports[k].id] < stamp[id]
    ensures CancelInOrder(q, reports + [CancelNotice(id)], stamp)
  {
  }

  lemma NoticeAppended(reports: seq<Report>, r: Report)
    requires NoticeAfterProcess(reports)
    requires r.CancelNotice? ==> Process(r.id) in reports
    ensures NoticeAfterProcess(reports + [r])
  {
    var t := reports + [r];
    forall j | 0 <= j < |t| && t[j].CancelNotice? ensures Process(t[j].id) in t[..j] {
      assert t[..j] == reports[..j];
      assert reports[..|reports|] == reports;
    }
  }

  lemma AcceptOrder(s: State, u: Urb)
    requires ListsMatch(s) && OutAreTracked(s) && ReportsInOrder(s)
    ensures ReportsInOrder(Accept(s, u))
  {
    forall i | 0 <= i < |s.inbox| ensures s.inbox[i] < |s.subs| {
      ListedAt(s, Inbox, s.inbox[i]);
    }
  }

  lemma MoveToCancelOrder(s: State, id: nat)
    requires OutAreTracked(s) && ReportsInOrder(s) && id < |s.place| && s.place[id].Fetched?
    ensures ReportsInOrder(MoveToCancel(s, id))
  {
    assert Tracked(s, id);
    assert |MoveToCancel(s, id).dequeued| == |s.dequeued| + 1;
  }

  lemma MoveToFetchedOrder(s: State)
    requires OutAreTracked(s) && ReportsInOrder(s) && s.inbox != [] && s.inbox[0] < |s.place|
    ensures ReportsInOrder(MoveToFetched(s))
  {
    ProcessHead(s.inbox, s.reports);
    NoticeAppended(s.reports, Process(s.inbox[0]));
  }

  lemma MoveToCancelingOrder(s: State)
    requires OutAreTracked(s) && ReportsInOrder(s)
    requires s.cancel != [] && s.cancel[0] < |s.place| && s.place[s.cancel[0]].Cancel?
    ensures ReportsInOrder(MoveToCanceling(s))
  {
    assert Tracked(s, s.cancel[0]);
    CancelHead(s.cancel, s.reports, s.dequeued);
    NoticeAppended(s.reports, CancelNotice(s.cancel[0]));
  }

  // --- Device references ---

  lemma SameHolders(s: State, t: State)
    requires RefsBalance(s) && t.subs == s.subs && t.refs == s.refs && |t.place| == |s.place|
    requires forall x: nat :: x < |t.place| ==> (t.place[x].Done? <==> s.place[x].Done?)
    ensures RefsBalance(t)
  {
    forall d: Device ensures Balanced(t, d) {
      assert Holders(t.subs, t.place, d) == Holders(s.subs, s.place, d);
      assert Balanced(s, d);
    }
  }

  lemma AcceptHolders(s: State, u: Urb)
    requires RefsBalance(s)
    ensures RefsBalance(Accept(s, u))
  {
    var t := Accept(s, u);
    forall d: Device ensures Balanced(t, d) {
      OneMoreHolder(s.subs, s.place, u, d);
      assert Balanced(s, d);
    }
  }

  lemma OneMoreHolder(subs: seq<Urb>, place: seq<Place>, u: Urb, d: Device)
    requires |subs| == |place|
    ensures |Holders(subs + [u], place + [Inbox], d)| == |Holders(subs, place, d)| + if d == u.device then 1 else 0
  {
    var h := Holders(subs, place, d);
    if d == u.device {
      assert Holders(subs + [u], place + [Inbox], d) == h + {|subs|};
    } else {
      assert Holders(subs + [u], place + [Inbox], d) == h;
    }
  }

  lemma OneHolderLess(subs: seq<Urb>, place: seq<Place>, id: nat, d: Device)
    requires id < |subs| == |place| && !place[id].Done?
    ensures |Holders(subs, place[id := Done], d)| == |Holders(subs, place, d)| - if d == subs[id].device then 1 else 0
  {
    var h := Holders(subs, place, d);
    if d == subs[id].device {
      assert id in h;
      assert Holders(subs, place[id := Done], d) == h - {id};
    } else {
      assert Holders(subs, place[id := Done], d) == h;
    }
  }

  lemma PutHolders(s: State, id: nat)
    requires RefsBalance(s) && id < |s.place| && s.place[id].Called?
    ensures RefsBalance(Put(s, id))
  {
    forall d: Device ensures Balanced(Put(s, id), d) {
      OneHolderLess(s.subs, s.place, id, d);
      assert Balanced(s, d);
    }
  }

  // --- The whole invariant ---

  lemma UnlinkTracked(s: State, id: nat, p: Option<int>)
    requires OutAreTracked(s) && Live(s, id) && id in s.record
    ensures OutAreTracked(Unlink(s, id, p))
  {
    forall x: nat ensures Tracked(Unlink(s, id, p), x) {
      assert Tracked(s, x);
    }
  }

  lemma UnlinkOrder(s: State, id: nat, p: Option<int>)
    requires ReportsInOrder(s) && id < |s.place| == |s.subs| && id in s.record
    ensures ReportsInOrder(Unlink(s, id, p))
  {
    RemovalKeepsProcess(s.inbox, id, s.reports);
    RemovalKeepsCancel(s.cancel, id, s.reports, s.dequeued);
  }

  lemma UnlinkHolders(s: State, id: nat, p: Option<int>)
    requires RefsBalance(s) && Live(s, id) && id in s.record
    ensures RefsBalance(Unlink(s, id, p))
  {
    SameHolders(s, Unlink(s, id, p));
  }

  lemma UnlinkKeeps(s: State, id: nat, p: Option<int>)
    requires Inv(s) && Live(s, id) && RecordOk(s, id)
    requires p.Some? ==> IsList(s.place[id])
    ensures Inv(Unlink(s, id, p))
  {
    assert Points(s, id);
    UnlinkLists(s, id, p);
    UnlinkHandles(s, id, p);
    UnlinkRecords(s, id, p);
    UnlinkTracked(s, id, p);
    UnlinkOrder(s, id, p);
    UnlinkHolders(s, id, p);
  }

  lemma AcceptKeeps(s: State, u: Urb)
    requires Inv(s) && Submittable(u) && u.handle !in s.hcpriv
    ensures Inv(Accept(s, u))
  {
    AcceptLists(s, u);
    AcceptRecords(s, u);
    AcceptTracked(s, u);
    AcceptOrder(s, u);
    AcceptHolders(s, u);
  }

  lemma MoveToCancelKeeps(s: State, id: nat)
    requires Inv(s) && id < |s.place| && s.place[id].Fetched?
    ensures Inv(MoveToCancel(s, id))
  {
    MoveToCancelLists(s, id);
    MovedRecords(s, MoveToCancel(s, id), id, Cancel);
    MoveToCancelTracked(s, id);
    MoveToCancelOrder(s, id);
    SameHolders(s, MoveToCancel(s, id));
  }

  lemma MoveToCancelingKeeps(s: State)
    requires Inv(s) && s.cancel != [] && s.cancel[0] < |s.place| && s.place[s.cancel[0]].Cancel?
    ensures Inv(MoveToCanceling(s))
  {
    MoveToCancelingLists(s);
    MovedRecords(s, MoveToCanceling(s), s.cancel[0], Canceling);
    MoveToCancelingTracked(s);
    MoveToCancelingOrder(s);
    SameHolders(s, MoveToCanceling(s));
  }

  lemma MoveToFetchedKeeps(s: State)
    requires Inv(s) && s.inbox != [] && s.inbox[0] < |s.place| && s.place[s.inbox[0]].Inbox?
    requires Acceptable(s.subs[s.inbox[0]])
    ensures Inv(MoveToFetched(s))
  {
    MoveToFetchedLists(s);
    MovedRecords(s, MoveToFetched(s), s.inbox[0], Fetched);
    MoveToFetchedTracked(s);
    MoveToFetchedOrder(s);
    SameHolders(s, MoveToFetched(s));
  }

  lemma TakeOffKeeps(s: State, id: nat)
    requires Inv(s) && Out(s, id) && IsList(s.place[id])
    ensures Inv(TakeOff(s, id))
  {
    var t := TakeOff(s, id);
    hide Without;
    TakeOffLists(s, id);
    MovedRecords(s, t, id, Taken);
    TrackedStays(s, t);
    RemovalKeepsCancel(s.cancel, id, s.reports, s.dequeued);
    SameHolders(s, t);
  }

  lemma ProposeKeeps(s: State, id: nat, status: int)
    requires Inv(s) && id < |s.place| && s.place[id].Taken? && RecordOk(s, id)
    ensures Inv(Propose(s, id, status))
  {
    var t := Propose(s, id, status);
    hide Without;
    ProposeLists(s, id, status);
    ProposeRecords(s, id, status);
    TrackedStays(s, t);
    SameHolders(s, t);
  }

  lemma CallBackKeeps(s: State, id: nat)
    requires Inv(s) && id < |s.place| && s.place[id].Unlinked? && RecordOk(s, id)
    ensures Inv(CallBack(s, id))
  {
    var t := CallBack(s, id);
    hide Without;
    CallBackLists(s, id);
    CallBackRecords(s, id);
    TrackedStays(s, t);
    SameHolders(s, t);
  }

  lemma PutKeeps(s: State, id: nat)
    requires Inv(s) && id < |s.place| && s.place[id].Called? && RecordOk(s, id)
    ensures Inv(Put(s, id))
  {
    PutLists(s, id);
    PutRecords(s, id);
    TrackedStays(s, Put(s, id));
    PutHolders(s, id);
  }

  lemma InvLists(s: State)
    requires Inv(s)
    ensures ListsMatch(s) && RecordsMatch(s)
  {
  }

  lemma UnlinkStepKeepsInv(s: State, a: Step)
    requires Inv(s) && Enabled(s, a) && (a.DequeueWaiting? || a.Reject? || a.Return? || a.Acknowledge? || a.Shutdown?)
    ensures Inv(Apply(s, a))
  {
    hide Inv, ListsMatch, RecordsMatch, RecordOk, Accept, Unlink, MoveToCancel, MoveToCanceling, MoveToFetched,
        TakeOff, Propose, CallBack, Put;
    InvLists(s);
    match a
    case DequeueWaiting(id) => Found(s, Inbox, id); UnlinkKeeps(s, id, None);
    case Reject => Found(s, Inbox, s.inbox[0]); UnlinkKeeps(s, s.inbox[0], Some(-EPIPE));
    case Return(id) => FoundIn3(s, Taken, Taken, Answered, id); UnlinkKeeps(s, id, None);
    case Acknowledge(id) => FoundIn3(s, Cancel, Cancel, Canceling, id); UnlinkKeeps(s, id, None);
    case Shutdown(l) => Found(s, l, Listed(s, l)[0]); UnlinkKeeps(s, Listed(s, l)[0], Some(-ESHUTDOWN));
  }

  // Every step of every actor keeps the invariant.
  lemma StepKeepsInv(s: State, a: Step)
    requires Inv(s) && Enabled(s, a)
    ensures Inv(Apply(s, a))
  {
    hide Inv, ListsMatch, RecordsMatch, RecordOk, Accept, Unlink, MoveToCancel, MoveToCanceling, MoveToFetched,
        TakeOff, Propose, CallBack, Put;
    InvLists(s);
    match a
    case Enqueue(u) => AcceptKeeps(s, u);
    case DequeueFetched(id) => Found(s, Fetched, id); MoveToCancelKeeps(s, id);
    case ReportCancel => Found(s, Cancel, s.cancel[0]); MoveToCancelingKeeps(s);
    case ReportProcess => Found(s, Inbox, s.inbox[0]); MoveToFetchedKeeps(s);
    case Take(id) => FoundIn3(s, Fetched, Cancel, Canceling, id); TakeOffKeeps(s, id);
    case Answer(id, status) => Found(s, Taken, id); ProposeKeeps(s, id, status);
    case Callback(id) => Found(s, Unlinked, id); CallBackKeeps(s, id);
    case PutDevice(id) => Found(s, Called, id); PutKeeps(s, id);
    case _ => UnlinkStepKeepsInv(s, a);
  }

  lemma StartHoldsInv()
    ensures Inv(Start)
  {
    forall d: Device ensures Balanced(Start, d) {
      assert Holders([], [], d) == {};
    }
    forall p: Place, id: nat ensures Counted(Start, p, id) {}
  }

  // The invariant holds after every interleaving of steps.
  lemma {:induction false} AlwaysInv(steps: seq<Step>)
    ensures Inv(Play(steps))
  {
    hide Inv, Apply, Enabled, Start;
    if steps == [] {
      StartHoldsInv();
    } else {
      AlwaysInv(Init(steps));
      if Enabled(Play(Init(steps)), Last(steps)) {
        StepKeepsInv(Play(Init(steps)), Last(steps));
      }
    }
  }
}
