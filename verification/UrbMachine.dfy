/** The life of every URB submission, as a labelled transition system.
    One step is one critical section of the driver, or one action it does with the lock released.
    A submission is named by its index in acceptance order, since an URB address can be submitted again. */
module UrbMachine {
  import opened Basics
  import opened Errno
  import opened Urbs

  datatype Report = Process(id: nat) | CancelNotice(id: nat)

  // Where a submission is: in one of the four lists of the host controller; held by a call of giveback that took
  // it off its list, before and after that call proposes a status; unlinked and waiting for its callback; called
  // back and waiting for usb_put_dev; or finished.
  datatype Place = Inbox | Fetched | Cancel | Canceling | Taken | Answered | Unlinked | Called | Done

  datatype State = State(
    // every accepted submission
    subs: seq<Urb>,
    // the four lists of the host controller
    inbox: seq<nat>, fetched: seq<nat>, cancel: seq<nat>, canceling: seq<nat>,
    // the submissions that running and finished givebacks hold
    taken: seq<nat>, answered: seq<nat>, unlinked: seq<nat>, called: seq<nat>, done: seq<nat>,
    // urb->hcpriv, the status cell of each allocated record, and the status read at unlink time
    hcpriv: map<Handle, nat>, record: map<nat, int>, outgoing: map<nat, int>,
    // device reference counts held by the driver
    refs: map<Device, int>,
    // history: where each submission is, status proposals, completed submissions, reports to user space, and
    // the order of cancellations
    place: seq<Place>, proposed: map<nat, int>, delivered: map<nat, int>, reports: seq<Report>, dequeued: map<nat, nat>)

  datatype Step =
    | Enqueue(urb: Urb)
    | DequeueWaiting(id: nat)
    | DequeueFetched(id: nat)
    | ReportCancel
    | ReportProcess
    | Reject
    | Take(id: nat)
    | Answer(id: nat, status: int)
    | Return(id: nat)
    | Acknowledge(id: nat)
    | Shutdown(list: Place)
    | Callback(id: nat)
    | PutDevice(id: nat)

  const Start := State([], [], [], [], [], [], [], [], [], [], map[], map[], map[], map[], [], map[], map[], [], map[])

  // list_del: the list without one record, order kept.
  function Without(q: seq<nat>, id: nat): (r: seq<nat>)
    ensures id !in q ==> r == q
    ensures |r| <= |q|
    ensures id in q ==> |r| < |q|
  {
    if q == [] then [] else (if q[0] == id then [] else [q[0]]) + Without(q[1..], id)
  }

  function Listed(s: State, p: Place): seq<nat> {
    match p
    case Inbox => s.inbox
    case Fetched => s.fetched
    case Cancel => s.cancel
    case Canceling => s.canceling
    case Taken => s.taken
    case Answered => s.answered
    case Unlinked => s.unlinked
    case Called => s.called
    case Done => s.done
  }

  function Refs(s: State, d: Device): int {
    if d in s.refs then s.refs[d] else 0
  }

  // usb_vhci_maybe_set_status: compare and exchange against -EINPROGRESS.
  function MaybeSetStatus(current: int, proposal: int): int {
    if current == -EINPROGRESS then proposal else current
  }

  function Proposed(current: int, proposal: Option<int>): int {
    match proposal
    case None => current
    case Some(p) => MaybeSetStatus(current, p)
  }

  function Moved(place: seq<Place>, id: nat, p: Place): seq<Place> {
    if id < |place| then place[id := p] else place
  }

  function StatusOf(cells: map<nat, int>, id: nat): int {
    if id in cells then cells[id] else 0
  }

  function Accept(s: State, u: Urb): State {
    var id := |s.subs|;
    s.(subs := s.subs + [u],
       inbox := s.inbox + [id],
       hcpriv := s.hcpriv[u.handle := id],
       record := s.record[id := u.status],
       place := s.place + [Inbox],
       refs := s.refs[u.device := Refs(s, u.device) + 1])
  }

  // A status proposal, if there is one, and then the locked half of usb_vhci_urb_giveback.
  function Unlink(s: State, id: nat, proposal: Option<int>): State {
    s.(inbox := Without(s.inbox, id),
       fetched := Without(s.fetched, id),
       cancel := Without(s.cancel, id),
       canceling := Without(s.canceling, id),
       taken := Without(s.taken, id),
       answered := Without(s.answered, id),
       unlinked := s.unlinked + [id],
       place := Moved(s.place, id, Unlinked),
       hcpriv := if id < |s.subs| then s.hcpriv - {s.subs[id].handle} else s.hcpriv,
       record := s.record - {id},
       outgoing := s.outgoing[id := Proposed(StatusOf(s.record, id), proposal)],
       proposed := if proposal.Some? then s.proposed[id := proposal.value] else s.proposed)
  }

  function MoveToCancel(s: State, id: nat): State {
    s.(fetched := Without(s.fetched, id),
       cancel := s.cancel + [id],
       place := Moved(s.place, id, Cancel),
       dequeued := s.dequeued[id := |s.dequeued|])
  }

  function MoveToCanceling(s: State): State
    requires s.cancel != []
  {
    s.(cancel := Without(s.cancel, s.cancel[0]),
       canceling := s.canceling + [s.cancel[0]],
       place := Moved(s.place, s.cancel[0], Canceling),
       reports := s.reports + [CancelNotice(s.cancel[0])])
  }

  function MoveToFetched(s: State): State
    requires s.inbox != []
  {
    s.(inbox := Without(s.inbox, s.inbox[0]),
       fetched := s.fetched + [s.inbox[0]],
       place := Moved(s.place, s.inbox[0], Fetched),
       reports := s.reports + [Process(s.inbox[0])])
  }

  function TakeOff(s: State, id: nat): State {
    s.(fetched := Without(s.fetched, id),
       cancel := Without(s.cancel, id),
       canceling := Without(s.canceling, id),
       taken := s.taken + [id],
       place := Moved(s.place, id, Taken))
  }

  function Propose(s: State, id: nat, status: int): State {
    s.(taken := Without(s.taken, id),
       answered := s.answered + [id],
       place := Moved(s.place, id, Answered),
       record := s.record[id := MaybeSetStatus(StatusOf(s.record, id), status)],
       proposed := s.proposed[id := status])
  }

  function CallBack(s: State, id: nat): State {
    s.(unlinked := Without(s.unlinked, id),
       called := s.called + [id],
       place := Moved(s.place, id, Called),
       delivered := s.delivered[id := StatusOf(s.outgoing, id)])
  }

  function Put(s: State, id: nat): State {
    s.(called := Without(s.called, id),
       done := s.done + [id],
       place := Moved(s.place, id, Done),
       refs := if id < |s.subs| then s.refs[s.subs[id].device := Refs(s, s.subs[id].device) - 1] else s.refs)
  }

  // What each step finds before it acts. The caller of Enqueue is usbcore, which hands in only URBs
  // whose hcpriv is null; everything else is decided by the driver's own lists.
  predicate Enabled(s: State, a: Step) {
    match a
    case Enqueue(u) => Submittable(u) && u.handle !in s.hcpriv
    case DequeueWaiting(id) => id in s.inbox
    case DequeueFetched(id) => id in s.fetched
    case ReportCancel => s.cancel != []
    case ReportProcess => s.inbox != [] && s.inbox[0] < |s.subs| && Acceptable(s.subs[s.inbox[0]])
    case Reject => s.inbox != [] && s.inbox[0] < |s.subs| && !Acceptable(s.subs[s.inbox[0]])
    case Take(id) => id in s.fetched || id in s.cancel || id in s.canceling
    case Answer(id, _) => id in s.taken
    case Return(id) => id in s.taken || id in s.answered
    case Acknowledge(id) => id in s.cancel || id in s.canceling
    case Shutdown(l) => IsList(l) && Listed(s, l) != []
    case Callback(id) => id in s.unlinked
    case PutDevice(id) => id in s.called
  }

  predicate IsList(p: Place) {
    p.Inbox? || p.Fetched? || p.Cancel? || p.Canceling?
  }

  // The record is allocated: it is in a list or held by a call of giveback.
  predicate Live(s: State, id: nat) {
    id < |s.place| && (IsList(s.place[id]) || s.place[id].Taken? || s.place[id].Answered?)
  }

  // Handed to user space and not yet unlinked.
  predicate Out(s: State, id: nat) {
    Live(s, id) && !s.place[id].Inbox?
  }

  predicate GivenBack(s: State, id: nat) {
    id < |s.place| && (s.place[id].Unlinked? || s.place[id].Called? || s.place[id].Done?)
  }

  predicate Completed(s: State, id: nat) {
    id < |s.place| && (s.place[id].Called? || s.place[id].Done?)
  }

  // How often a submission occurs in a list.
  function Count(q: seq<nat>, id: nat): nat {
    if q == [] then 0 else (if q[0] == id then 1 else 0) + Count(q[1..], id)
  }

  predicate Counted(s: State, p: Place, id: nat) {
    Count(Listed(s, p), id) == if id < |s.place| && s.place[id] == p then 1 else 0
  }

  // Every submission occurs once where it is and nowhere else.
  ghost predicate ListsMatch(s: State) {
    && |s.place| == |s.subs|
    && forall p: Place, id: nat :: Counted(s, p, id)
  }

  predicate Pointed(s: State, h: Handle) {
    h in s.hcpriv ==> s.hcpriv[h] < |s.subs| && s.subs[s.hcpriv[h]].handle == h && Live(s, s.hcpriv[h])
  }

  predicate Points(s: State, id: nat) {
    Live(s, id) ==> id < |s.subs| && s.subs[id].handle in s.hcpriv && s.hcpriv[s.subs[id].handle] == id
  }

  // urb->hcpriv points to a record exactly while the record is live.
  ghost predicate HandlesMatch(s: State) {
    && (forall h: Handle :: Pointed(s, h))
    && (forall id: nat :: Points(s, id))
  }

  // The status a submission carries: a proposal counts only if the URB came in with -EINPROGRESS.
  function Expected(s: State, id: nat): int
    requires id < |s.subs|
  {
    if id in s.proposed && s.subs[id].status == -EINPROGRESS then s.proposed[id] else s.subs[id].status
  }

  predicate RecordOk(s: State, id: nat)
    requires |s.place| == |s.subs|
  {
    && (id in s.record <==> Live(s, id))
    && (id in s.outgoing <==> GivenBack(s, id))
    && (id in s.delivered <==> Completed(s, id))
    && (id in s.record ==> s.record[id] == Expected(s, id))
    && (id in s.outgoing ==> s.outgoing[id] == Expected(s, id))
    && (id in s.delivered ==> s.delivered[id] == Expected(s, id))
    && (id in s.proposed ==> id < |s.place| && (s.place[id].Answered? || GivenBack(s, id)))
  }

  ghost predicate RecordsMatch(s: State) {
    && |s.place| == |s.subs|
    && forall id: nat :: RecordOk(s, id)
  }

  // Submissions that user space has were tested and reported to it; those dequeued are past the fetched list.
  predicate Tracked(s: State, id: nat)
    requires |s.place| == |s.subs|
  {
    && (id < |s.subs| ==> Submittable(s.subs[id]))
    && (Out(s, id) ==> Acceptable(s.subs[id]) && Process(id) in s.reports)
    && (id in s.dequeued ==> id < |s.place| && !s.place[id].Inbox? && !s.place[id].Fetched?)
  }

  ghost predicate OutAreTracked(s: State) {
    && |s.place| == |s.subs|
    && forall id: nat :: Tracked(s, id)
  }

  // Process reports and then the inbox, all in acceptance order.
  ghost predicate ProcessInOrder(inbox: seq<nat>, reports: seq<Report>) {
    && (forall i, j :: 0 <= i < j < |inbox| ==> inbox[i] < inbox[j])
    && (forall k, i :: 0 <= k < |reports| && 0 <= i < |inbox| && reports[k].Process? ==> reports[k].id < inbox[i])
    && (forall i, j :: 0 <= i < j < |reports| && reports[i].Process? && reports[j].Process? ==>
          reports[i].id < reports[j].id)
  }

  // Cancel notices and then the cancel list, all in the order in which the submissions were dequeued.
  ghost predicate CancelInOrder(cancel: seq<nat>, reports: seq<Report>, stamp: map<nat, nat>) {
    && (forall id :: id in stamp ==> stamp[id] < |stamp|)
    && (forall i :: 0 <= i < |cancel| ==> cancel[i] in stamp)
    && (forall k :: 0 <= k < |reports| && reports[k].CancelNotice? ==> reports[k].id in stamp)
    && (forall i, j :: 0 <= i < j < |cancel| ==> stamp[cancel[i]] < stamp[cancel[j]])
    && (forall k, i :: 0 <= k < |reports| && 0 <= i < |cancel| && reports[k].CancelNotice? ==>
          stamp[reports[k].id] < stamp[cancel[i]])
    && (forall i, j :: 0 <= i < j < |reports| && reports[i].CancelNotice? && reports[j].CancelNotice? ==>
          stamp[reports[i].id] < stamp[reports[j].id])
  }

  ghost predicate NoticeAfterProcess(reports: seq<Report>) {
    forall j :: 0 <= j < |reports| && reports[j].CancelNotice? ==> Process(reports[j].id) in reports[..j]
  }

  ghost predicate ReportsInOrder(s: State) {
    && (forall k :: 0 <= k < |s.reports| ==> s.reports[k].id < |s.subs|)
    && ProcessInOrder(s.inbox, s.reports)
    && CancelInOrder(s.cancel, s.reports, s.dequeued)
    && NoticeAfterProcess(s.reports)
  }

  // The submissions for which the driver holds a reference to their device.
  ghost function Holders(subs: seq<Urb>, place: seq<Place>, d: Device): set<nat>
    requires |subs| == |place|
  {
    set id: nat | id < |subs| && !place[id].Done? && subs[id].device == d
  }

  ghost predicate Balanced(s: State, d: Device)
    requires |s.subs| == |s.place|
  {
    Refs(s, d) == |Holders(s.subs, s.place, d)|
  }

  ghost predicate RefsBalance(s: State) {
    && |s.place| == |s.subs|
    && forall d: Device :: Balanced(s, d)
  }

  ghost predicate Inv(s: State) {
    && ListsMatch(s)
    && HandlesMatch(s)
    && RecordsMatch(s)
    && OutAreTracked(s)
    && ReportsInOrder(s)
    && RefsBalance(s)
  }

  // Listed submissions are where their list says.
  lemma {:induction false} CountMember(q: seq<nat>, id: nat)
    ensures Count(q, id) > 0 <==> id in q
  {
    if q != [] {
      CountMember(q[1..], id);
    }
  }

  lemma ListedAt(s: State, p: Place, id: nat)
    requires ListsMatch(s)
    ensures id in Listed(s, p) <==> id < |s.place| && s.place[id] == p
  {
    CountMember(Listed(s, p), id);
    assert Counted(s, p, id);
  }

  lemma Found(s: State, p: Place, id: nat)
    requires ListsMatch(s) && RecordsMatch(s) && id in Listed(s, p)
    ensures id < |s.place| && s.place[id] == p && RecordOk(s, id)
  {
    ListedAt(s, p, id);
  }

  // The first entry of a list whose URB has the given address.
  function FindHandle(subs: seq<Urb>, q: seq<nat>, h: Handle): Option<nat> {
    if q == [] then None
    else if q[0] < |subs| && subs[q[0]].handle == h then Some(q[0])
    else FindHandle(subs, q[1..], h)
  }

  function FindTwo(s: State, first: seq<nat>, second: seq<nat>, h: Handle): Option<nat> {
    var r := FindHandle(s.subs, first, h);
    if r.Some? then r else FindHandle(s.subs, second, h)
  }

  function FindThree(s: State, h: Handle): Option<nat> {
    var r := FindHandle(s.subs, s.fetched, h);
    if r.Some? then r else FindTwo(s, s.canceling, s.cancel, h)
  }

  lemma {:induction false} FindMeaning(subs: seq<Urb>, q: seq<nat>, h: Handle)
    ensures var r := FindHandle(subs, q, h);
            && (r.Some? ==> r.value in q && r.value < |subs| && subs[r.value].handle == h)
            && (r.None? ==> forall id :: id in q ==> id >= |subs| || subs[id].handle != h)
  {
    if q != [] {
      FindMeaning(subs, q[1..], h);
    }
  }

  lemma FindIsHcpriv(s: State, p: Place, h: Handle)
    requires ListsMatch(s) && HandlesMatch(s) && IsList(p)
    ensures FindHandle(s.subs, Listed(s, p), h)
            == if h in s.hcpriv && s.hcpriv[h] in Listed(s, p) then Some(s.hcpriv[h]) else None
  {
    var r := FindHandle(s.subs, Listed(s, p), h);
    FindMeaning(s.subs, Listed(s, p), h);
    assert Pointed(s, h);
    if r.Some? {
      ListedAt(s, p, r.value);
      assert Points(s, r.value);
    }
  }

  lemma FoundIn3(s: State, p: Place, q: Place, r: Place, id: nat)
    requires ListsMatch(s) && RecordsMatch(s)
    requires id in Listed(s, p) || id in Listed(s, q) || id in Listed(s, r)
    ensures id < |s.place| && s.place[id] in {p, q, r} && RecordOk(s, id)
  {
    ListedAt(s, p, id);
    ListedAt(s, q, id);
    ListedAt(s, r, id);
  }

  function Apply(s: State, a: Step): State
    requires Enabled(s, a)
  {
    match a
    case Enqueue(u) => Accept(s, u)
    case DequeueWaiting(id) => Unlink(s, id, None)
    case DequeueFetched(id) => MoveToCancel(s, id)
    case ReportCancel => MoveToCanceling(s)
    case ReportProcess => MoveToFetched(s)
    case Reject => Unlink(s, s.inbox[0], Some(-EPIPE))
    case Take(id) => TakeOff(s, id)
    case Answer(id, status) => Propose(s, id, status)
    case Return(id) => Unlink(s, id, None)
    case Acknowledge(id) => Unlink(s, id, None)
    case Shutdown(l) => Unlink(s, Listed(s, l)[0], Some(-ESHUTDOWN))
    case Callback(id) => CallBack(s, id)
    case PutDevice(id) => Put(s, id)
  }

  // A step that finds nothing to do changes nothing.
  function Try(s: State, a: Step): State {
    if Enabled(s, a) then Apply(s, a) else s
  }

  // The state after any interleaving of steps of any number of threads.
  function Play(steps: seq<Step>): State {
    if steps == [] then Start else Try(Play(Init(steps)), Last(steps))
  }
}
