/** The URB lists of the host controller driver, proved against the URB machine. */
module UrbQueuesDriver {
  import opened Basics
  import opened Errno
  import opened Urbs
  import opened UrbMachine
  import opened UrbInvariant
  import opened UrbRuns
  import opened GivebackRuns
  import opened Payload

  function Infos(urbs: seq<UrbObject>): (r: seq<Urb>)
    ensures |r| == |urbs| && forall i :: 0 <= i < |urbs| ==> r[i] == urbs[i].info
  {
    if urbs == [] then [] else Infos(urbs[..|urbs| - 1]) + [urbs[|urbs| - 1].info]
  }

  ghost predicate AllWellformed(urbs: seq<UrbObject>) {
    forall i :: 0 <= i < |urbs| ==> urbs[i].Wellformed()
  }

  lemma InfosAppend(urbs: seq<UrbObject>, u: UrbObject)
    ensures Infos(urbs + [u]) == Infos(urbs) + [u.info]
    ensures AllWellformed(urbs) && u.Wellformed() ==> AllWellformed(urbs + [u])
  {
    assert (urbs + [u])[..|urbs|] == urbs;
  }

  // The three steps of usb_vhci_urb_giveback: unlink under the lock, call back, put the device.
  function Finish(unlink: Step, id: nat): seq<Step> {
    [unlink, Callback(id), PutDevice(id)]
  }

  lemma CallbackNext(m: State, id: nat, p: Option<int>)
    ensures Enabled(Unlink(m, id, p), Callback(id))
  {
    assert Unlink(m, id, p).unlinked[|m.unlinked|] == id;
  }

  lemma PutNext(m: State, id: nat)
    ensures Enabled(CallBack(m, id), PutDevice(id))
  {
    assert CallBack(m, id).called[|m.called|] == id;
  }

  lemma PlayFinish(trace: seq<Step>, a: Step, id: nat, p: Option<int>)
    requires Enabled(Play(trace), a) && Apply(Play(trace), a) == Unlink(Play(trace), id, p)
    ensures Play(trace + Finish(a, id)) == Put(CallBack(Unlink(Play(trace), id, p), id), id)
  {
    var m := Play(trace);
    hide Play, Unlink, CallBack, Put, Enabled;
    PlayAppend(trace, a);
    CallbackNext(m, id, p);
    PlayAppend(trace + [a], Callback(id));
    PutNext(Unlink(m, id, p), id);
    PlayAppend(trace + [a] + [Callback(id)], PutDevice(id));
    assert trace + Finish(a, id) == trace + [a] + [Callback(id)] + [PutDevice(id)];
  }

  // The state after all three steps.
  ghost predicate Finished(m: State, id: nat, p: Option<int>, t: State) {
    && id < |m.subs| && id in m.record && t.subs == m.subs
    && t.inbox == Without(m.inbox, id) && t.fetched == Without(m.fetched, id)
    && t.cancel == Without(m.cancel, id) && t.canceling == Without(m.canceling, id)
    && t.hcpriv == m.hcpriv - {m.subs[id].handle} && t.record == m.record - {id}
    && t.refs == m.refs[m.subs[id].device := Refs(m, m.subs[id].device) - 1]
    && t.delivered == m.delivered[id := Proposed(m.record[id], p)]
    && t.done == m.done + [id]
  }

  lemma FinishState(m: State, id: nat, p: Option<int>)
    requires id < |m.subs| && id in m.record
    ensures Finished(m, id, p, Put(CallBack(Unlink(m, id, p), id), id))
  {
    hide Without, Proposed;
  }

  // An unlinked submission is called back with the status read at unlink time, and then its device is put.
  lemma FinishPlays(trace: seq<Step>, a: Step, id: nat, p: Option<int>)
    requires Enabled(Play(trace), a) && Apply(Play(trace), a) == Unlink(Play(trace), id, p)
    requires id in Play(trace).record
    ensures Finished(Play(trace), id, p, Play(trace + Finish(a, id)))
  {
    PlayFinish(trace, a, id, p);
    hide Play, Unlink, CallBack, Put, Finished, Enabled, Apply;
    HcprivWhileLive(trace, id);
    FinishState(Play(trace), id, p);
  }

  lemma DropCell(cells: map<nat, int>, id: nat, v: int)
    ensures cells[id := v] - {id} == cells - {id}
  {
  }

  class UrbQueues {
    var inbox: seq<nat>
    var fetched: seq<nat>
    var cancel: seq<nat>
    var canceling: seq<nat>
    // urbp->urb, urb->hcpriv and urbp->status of each record, and the device references held
    var urbs: seq<UrbObject>
    var hcpriv: map<Handle, nat>
    var record: map<nat, int>
    var refs: map<Device, int>
    // the steps taken so far
    ghost var trace: seq<Step>

    // The fields are those of a state of the machine, except for the status cells.
    ghost predicate Lists(m: State)
      reads this
    {
      && inbox == m.inbox && fetched == m.fetched && cancel == m.cancel && canceling == m.canceling
      && hcpriv == m.hcpriv && refs == m.refs
      && Infos(urbs) == m.subs
      && AllWellformed(urbs)
    }

    ghost predicate Valid()
      reads this
    {
      Lists(Play(trace)) && record == Play(trace).record
    }

    constructor ()
      ensures Valid() && trace == []
      ensures inbox == fetched == cancel == canceling == [] && hcpriv == map[] && refs == map[]
    {
      inbox, fetched, cancel, canceling := [], [], [], [];
      urbs, hcpriv, record, refs, trace := [], map[], map[], map[], [];
    }

    // vhci_urb_enqueue. memory and linkError are the outcomes of kzalloc and usb_hcd_link_urb_to_ep.
    method Enqueue(u: UrbObject, memory: bool, linkError: int) returns (ret: int)
      requires Valid() && u.Wellformed() && u.info.handle !in hcpriv
      modifies this
      ensures Valid()
      ensures ret == if !u.info.hasBuffer && u.info.length > 0 then -EINVAL else if !memory then -ENOMEM else linkError
      ensures trace == old(trace) + if ret == 0 then [Step.Enqueue(u.info)] else []
      ensures ret == 0 ==> inbox == old(inbox) + [|old(urbs)|] && urbs == old(urbs) + [u]
      ensures fetched == old(fetched) && cancel == old(cancel) && canceling == old(canceling)
    {
      hide Play, Infos, AllWellformed;
      if u.buffer == null && u.info.length != 0 {
        return -EINVAL;
      }
      if !memory {
        return -ENOMEM;
      }
      if linkError != 0 {
        return linkError;
      }
      PlayAppend(trace, Step.Enqueue(u.info));
      InfosAppend(urbs, u);
      AddRecord(u);
      trace := trace + [Step.Enqueue(u.info)];
      ret := 0;
    }

    // The locked part of vhci_urb_enqueue
    method AddRecord(u: UrbObject)
      modifies this`inbox, this`urbs, this`hcpriv, this`record, this`refs
      ensures inbox == old(inbox) + [|old(urbs)|] && urbs == old(urbs) + [u]
      ensures hcpriv == old(hcpriv)[u.info.handle := |old(urbs)|] && record == old(record)[|old(urbs)| := u.info.status]
      ensures var d := u.info.device; refs == old(refs)[d := (if d in old(refs) then old(refs)[d] else 0) + 1]
    {
      var id, d := |urbs|, u.info.device;
      refs := refs[d := (if d in refs then refs[d] else 0) + 1];
      inbox := inbox + [id];
      urbs := urbs + [u];
      record := record[id := u.info.status];
      hcpriv := hcpriv[u.info.handle := id];
    }

    // usb_vhci_maybe_set_status
    method MaybeSetStatus(id: nat, status: int)
      requires id in record
      modifies this`record
      ensures record == old(record)[id := UrbMachine.MaybeSetStatus(old(record[id]), status)]
    {
      record := record[id := if record[id] == -EINPROGRESS then status else record[id]];
    }

    // The locked half of usb_vhci_urb_giveback, and the reference that is put at its end
    method DropRecord(id: nat)
      requires id < |urbs| && id in record
      modifies this`inbox, this`fetched, this`cancel, this`canceling, this`hcpriv, this`record, this`refs
      ensures inbox == Without(old(inbox), id) && fetched == Without(old(fetched), id)
      ensures cancel == Without(old(cancel), id) && canceling == Without(old(canceling), id)
      ensures hcpriv == old(hcpriv) - {urbs[id].info.handle} && record == old(record) - {id}
      ensures var d := urbs[id].info.device; refs == old(refs)[d := (if d in old(refs) then old(refs)[d] else 0) - 1]
    {
      hide Without;
      var u := urbs[id];
      hcpriv := hcpriv - {u.info.handle};
      inbox, fetched, cancel, canceling := Without(inbox, id), Without(fetched, id), Without(cancel, id),
          Without(canceling, id);
      record := record - {id};
      refs := refs[u.info.device := (if u.info.device in refs then refs[u.info.device] else 0) - 1];
    }

    // usb_vhci_urb_giveback, when no other thread interferes. a is the step of the machine that the caller is
    // taking, and p the status it has proposed.
    method Giveback(id: nat, ghost a: Step, ghost p: Option<int>) returns (status: int)
      requires Lists(Play(trace)) && id in Play(trace).record
      requires record == Play(trace).record[id := Proposed(Play(trace).record[id], p)]
      requires Enabled(Play(trace), a) && Apply(Play(trace), a) == Unlink(Play(trace), id, p)
      modifies this
      ensures Valid() && trace == old(trace) + Finish(a, id)
      ensures id in Play(trace).delivered && status == Play(trace).delivered[id] == old(record[id])
      ensures id in Play(trace).done && urbs == old(urbs)
      ensures inbox == Without(old(inbox), id) && fetched == Without(old(fetched), id)
      ensures cancel == Without(old(cancel), id) && canceling == Without(old(canceling), id)
    {
      hide Play, Unlink, Enabled, Apply, Proposed, Without, Infos, Finish, AllWellformed;
      FinishPlays(trace, a, id, p);
      DropCell(Play(trace).record, id, Proposed(Play(trace).record[id], p));
      status := record[id];
      assert (Play(trace).done + [id])[|Play(trace).done|] == id;
      DropRecord(id);
      trace := trace + Finish(a, id);
    }

    // list_for_each_entry over one of the lists, looking for an URB
    method Find(list: seq<nat>, h: Handle) returns (r: Option<nat>)
      ensures r == FindHandle(Infos(urbs), list, h)
    {
      var k := 0;
      while k < |list|
        invariant 0 <= k <= |list|
        invariant FindHandle(Infos(urbs), list, h) == FindHandle(Infos(urbs), list[k..], h)
      {
        if list[k] < |urbs| && urbs[list[k]].info.handle == h {
          return Some(list[k]);
        }
        assert list[k..][1..] == list[k + 1..];
        k := k + 1;
      }
      r := None;
    }

    // vhci_urb_dequeue. unlinkError is the outcome of usb_hcd_check_unlink_urb.
    method Dequeue(h: Handle, unlinkError: int) returns (ret: int)
      requires Valid()
      modifies this
      ensures Valid() && ret == unlinkError
      ensures var m := Play(old(trace));
              var waiting, fetched := FindHandle(m.subs, m.inbox, h), FindHandle(m.subs, m.fetched, h);
              trace == old(trace) + if unlinkError != 0 then []
                                    else if waiting.Some? then Finish(DequeueWaiting(waiting.value), waiting.value)
                                    else if fetched.Some? then [DequeueFetched(fetched.value)]
                                    else []
      ensures urbs == old(urbs) && canceling == old(canceling)
      ensures forall id :: unlinkError == 0 && id in old(inbox) && HasHandle(id, h) ==>
                && inbox == Without(old(inbox), id) && fetched == old(fetched) && cancel == old(cancel)
                && Finally(id, urbs[id].info.status)
      ensures forall id :: unlinkError == 0 && id in old(fetched) && HasHandle(id, h) ==>
                inbox == old(inbox) && fetched == Without(old(fetched), id) && cancel == old(cancel) + [id]
    {
      hide Play, Lists, Without, FindHandle;
      OnlyOne(h);
      if unlinkError != 0 {
        return unlinkError;
      }
      ret := 0;
      LookUp();
      var r := Find(inbox, h);
      FindMeaning(Play(trace).subs, inbox, h);
      if r.Some? {
        OnlyInInbox(trace, r.value);
        LookUp();
        var _ := Giveback(r.value, DequeueWaiting(r.value), None);
      } else {
        r := Find(fetched, h);
        FindMeaning(Play(trace).subs, fetched, h);
        if r.Some? {
          MoveFetched(r.value);
        }
      }
    }

    lemma LookUp()
      requires Valid()
      ensures Infos(urbs) == Play(trace).subs
      ensures inbox == Play(trace).inbox && fetched == Play(trace).fetched
      ensures cancel == Play(trace).cancel && canceling == Play(trace).canceling && record == Play(trace).record
    {
    }

    predicate HasHandle(id: nat, h: Handle)
      reads this
    {
      id < |urbs| && urbs[id].info.handle == h
    }

    // User space has the submission.
    predicate Has(id: nat)
      reads this
    {
      id in fetched || id in cancel || id in canceling
    }

    // The submission was called back with this status, and its device was put.
    ghost predicate Finally(id: nat, status: int)
      reads this
    {
      id in Play(trace).delivered && Play(trace).delivered[id] == status && id in Play(trace).done
    }

    // No submission that user space has goes by this handle.
    ghost predicate Unknown(h: Handle)
      reads this
    {
      forall id: nat :: Has(id) ==> id < |urbs| && urbs[id].info.handle != h
    }

    // A handle stands for one listed submission at most, and the searches find it.
    lemma OnlyOne(h: Handle)
      requires Valid()
      ensures forall id :: id in inbox && HasHandle(id, h) ==>
                FindHandle(Play(trace).subs, Play(trace).inbox, h) == Some(id)
      ensures forall id :: id in fetched && HasHandle(id, h) ==>
                FindHandle(Play(trace).subs, Play(trace).inbox, h) == None
                && FindHandle(Play(trace).subs, Play(trace).fetched, h) == Some(id)
      ensures forall id: nat :: Has(id) && HasHandle(id, h) ==>
                && FindThree(Play(trace), h) == Some(id)
                && (FindHandle(Play(trace).subs, Play(trace).fetched, h).None? <==> id !in fetched)
      ensures FindThree(Play(trace), h).None? <==> Unknown(h)
    {
      hide Play, FindHandle, FindThree;
      LookUp();
      forall id: nat | (id in inbox || Has(id)) && HasHandle(id, h)
        ensures FindHandle(Play(trace).subs, Play(trace).inbox, h) == if id in inbox then Some(id) else None
        ensures FindHandle(Play(trace).subs, Play(trace).fetched, h) == if id in fetched then Some(id) else None
        ensures id in inbox ==> !Has(id)
        ensures Has(id) ==> FindThree(Play(trace), h) == Some(id)
      {
        FoundById(trace, h, id);
      }
      NoneFound(trace, h);
      forall id: nat ensures Has(id) <==> Listed3(Play(trace), id) {}
    }

    // list_move_tail into the cancel list
    method MoveFetched(id: nat)
      requires Valid() && id in fetched
      modifies this
      ensures Valid() && trace == old(trace) + [DequeueFetched(id)] && urbs == old(urbs)
      ensures inbox == old(inbox) && fetched == Without(old(fetched), id) && cancel == old(cancel) + [id]
      ensures canceling == old(canceling)
    {
      hide Play, Without, Infos, AllWellformed;
      PlayAppend(trace, DequeueFetched(id));
      fetched := Without(fetched, id);
      cancel := cancel + [id];
      trace := trace + [DequeueFetched(id)];
    }

    // list_del of a record that giveback works on with the lock released
    method TakeOffLists(id: nat)
      requires Valid() && (id in fetched || id in cancel || id in canceling)
      modifies this
      ensures Valid() && trace == old(trace) + [Take(id)] && urbs == old(urbs)
      ensures inbox == old(inbox) && fetched == Without(old(fetched), id)
      ensures cancel == Without(old(cancel), id) && canceling == Without(old(canceling), id)
    {
      hide Play, Without, Infos, AllWellformed;
      PlayAppend(trace, Take(id));
      fetched, cancel, canceling := Without(fetched, id), Without(cancel, id), Without(canceling, id);
      trace := trace + [Take(id)];
    }

    // The status that a giveback proposes
    method Propose(id: nat, status: int)
      requires Valid() && id in record && id in Play(trace).taken
      modifies this
      ensures Valid() && trace == old(trace) + [Step.Answer(id, status)] && urbs == old(urbs)
      ensures inbox == old(inbox) && fetched == old(fetched) && cancel == old(cancel) && canceling == old(canceling)
    {
      hide Play;
      PlayAppend(trace, Step.Answer(id, status));
      MaybeSetStatus(id, status);
      trace := trace + [Step.Answer(id, status)];
    }

    // The search of ioc_giveback_common: fetched, then canceling, then cancel
    method FindHandedOut(h: Handle) returns (r: Option<nat>, canceled: bool)
      requires Valid()
      ensures r == FindThree(Play(trace), h)
      ensures canceled <==> r.Some? && FindHandle(Play(trace).subs, Play(trace).fetched, h).None?
      ensures r.Some? ==> Has(r.value) && HasHandle(r.value, h)
    {
      hide Play, Lists;
      LookUp();
      FindMeaning(Infos(urbs), fetched, h);
      FindMeaning(Infos(urbs), canceling, h);
      FindMeaning(Infos(urbs), cancel, h);
      hide FindHandle;
      canceled := false;
      r := Find(fetched, h);
      if r.None? {
        r := Find(canceling, h);
        if r.None? {
          r := Find(cancel, h);
        }
        canceled := r.Some?;
      }
    }

    // The record goes back to its creator with the status it has. It is in no list any more, so list_del finds nothing.
    method ReturnTaken(id: nat)
      requires Valid() && id in record && (id in Play(trace).taken || id in Play(trace).answered)
      modifies this
      ensures Valid() && urbs == old(urbs) && trace == old(trace) + Finish(Return(id), id)
      ensures inbox == old(inbox) && fetched == old(fetched) && cancel == old(cancel) && canceling == old(canceling)
    {
      hide Play, Unlink, Without;
      InNoList(trace, id);
      var _ := Giveback(id, Return(id), None);
    }

    // The record is taken off its list, and its answer is tested and stored with the lock released.
    method StoreAnswer(id: nat, a: Answer) returns (err: int)
      requires Valid() && (id in fetched || id in cancel || id in canceling)
      modifies this, if id < |urbs| then Cells(urbs[id]) else {}
      ensures Valid() && urbs == old(urbs) && trace == old(trace) + [Take(id)]
      ensures id < |urbs| && (urbs[id].info.kind.Control? ==> urbs[id].info.setup.Setup?)
      ensures err == Verdict(urbs[id].info, a) == Judged(Play(old(trace)).subs, id, a)
      ensures err == 0 <==> Right(urbs[id].info, a)
      ensures err == 0 ==> Arrived(urbs[id], a)
      ensures Snapshot(urbs[id]) == Written(urbs[id].info, a, old(SnapshotOf(urbs, id)))
      ensures inbox == old(inbox) && fetched == Without(old(fetched), id)
      ensures cancel == Without(old(cancel), id) && canceling == Without(old(canceling), id)
    {
      hide Play, Lists, Verdict, Acceptable, Written, Without, Right, Arrived;
      HandedOut(id);
      TakeOffLists(id);
      err := TakeAnswer(urbs[id], a);
    }

    // The status of a right answer is proposed, and the record goes back to its creator whatever the answer was.
    method Conclude(id: nat, a: Answer, err: int)
      requires Valid() && id in Play(trace).taken && id in record
      modifies this
      ensures Valid() && urbs == old(urbs)
      ensures trace == old(trace) + (if err == 0 then [Step.Answer(id, a.status)] else []) + Finish(Return(id), id)
      ensures inbox == old(inbox) && fetched == old(fetched) && cancel == old(cancel) && canceling == old(canceling)
    {
      hide Play, Lists, Finish;
      if err == 0 {
        AnsweredHasRecord(trace, id, a.status);
        Propose(id, a.status);
      }
      ReturnTaken(id);
    }

    // What ioc_giveback_common does with a record it has found. No other URB is touched.
    method AnswerUrb(id: nat, a: Answer) returns (err: int)
      requires Valid() && (id in fetched || id in cancel || id in canceling)
      modifies this, if id < |urbs| then Cells(urbs[id]) else {}
      ensures Valid() && urbs == old(urbs) && id < |urbs| && (urbs[id].info.kind.Control? ==> urbs[id].info.setup.Setup?)
      ensures err == Verdict(urbs[id].info, a)
      ensures err == 0 <==> Right(urbs[id].info, a)
      ensures err == 0 ==> Arrived(urbs[id], a)
      ensures Finally(id, if err == 0 && urbs[id].info.status == -EINPROGRESS then a.status else urbs[id].info.status)
      ensures trace == ToEnd(old(trace), id, a, Alone)
      ensures Snapshot(urbs[id]) == Written(urbs[id].info, a, old(SnapshotOf(urbs, id)))
      ensures inbox == old(inbox) && fetched == Without(old(fetched), id)
      ensures cancel == Without(old(cancel), id) && canceling == Without(old(canceling), id)
    {
      hide Play, Lists, Verdict, Judged, Finish, Written, Without, Snapshot, ToEnd, Right, Arrived;
      LookUp();
      GivebackAlone(trace, id, a);
      StepsAlone(trace, id, a);
      err := StoreAnswer(id, a);
      Conclude(id, a, err);
    }

    // The objects of the URB that a handle names, if user space has one of that name
    ghost function Named(h: Handle): set<object>
      reads this
    {
      var r := FindThree(Play(trace), h);
      if r.Some? && r.value < |urbs| then Cells(urbs[r.value]) else {}
    }

    // ioc_giveback_common, when no other thread interferes. who is the submission that the handle stands for.
    method GivebackIoctl(h: Handle, a: Answer) returns (ret: int, ghost who: Option<nat>)
      requires Valid()
      modifies this, Named(h)
      ensures Valid() && urbs == old(urbs)
      ensures who.None? <==> old(Unknown(h))
      ensures forall id: nat :: old(Has(id) && HasHandle(id, h)) ==> who == Some(id)
      ensures ret == -ENOENT <==> who.None?
      ensures trace == if who.None? then old(trace) else ToEnd(old(trace), who.value, a, Alone)
      ensures who.Some? ==>
                && who.value < |urbs| && urbs[who.value].info.handle == h
                && (urbs[who.value].info.kind.Control? ==> urbs[who.value].info.setup.Setup?)
                && inbox == old(inbox) && fetched == Without(old(fetched), who.value)
                && cancel == Without(old(cancel), who.value) && canceling == Without(old(canceling), who.value)
                && Snapshot(urbs[who.value]) == Written(urbs[who.value].info, a, old(SnapshotOf(urbs, who.value)))
      ensures who.Some? && Right(urbs[who.value].info, a) ==>
                && ret == (if who.value in old(fetched) then 0 else -ECANCELED)
                && Arrived(urbs[who.value], a)
                && Finally(who.value, if urbs[who.value].info.status == -EINPROGRESS then a.status
                                      else urbs[who.value].info.status)
      ensures who.Some? && !Right(urbs[who.value].info, a) ==>
                && ret == Verdict(urbs[who.value].info, a)
                && Finally(who.value, urbs[who.value].info.status)
    {
      hide Play, Lists, FindThree, FindHandle, Written, Without, ToEnd, Right, Arrived, Snapshot;
      OnlyOne(h);
      var r, canceled := FindHandedOut(h);
      who := r;
      if r.None? {
        ret := -ENOENT;
        return;
      }
      ret := AnswerUrb(r.value, a);
      if ret == 0 && canceled {
        ret := -ECANCELED;
      }
    }

    // The search of ioc_fetch_data_common: fetched, then cancel, then canceling
    method FindForData(h: Handle) returns (r: Option<nat>, canceled: bool)
      requires Valid()
      ensures r == FindThree(Play(trace), h)
      ensures canceled <==> r.Some? && FindHandle(Play(trace).subs, Play(trace).fetched, h).None?
      ensures r.Some? ==> HasHandle(r.value, h)
      ensures r.Some? ==> if canceled then r.value in cancel || r.value in canceling else r.value in fetched
    {
      hide Play, Lists;
      LookUp();
      SearchOrdersAgree(trace, h);
      FindMeaning(Infos(urbs), fetched, h);
      FindMeaning(Infos(urbs), canceling, h);
      FindMeaning(Infos(urbs), cancel, h);
      hide FindHandle;
      canceled := false;
      r := Find(fetched, h);
      if r.None? {
        r := Find(cancel, h);
        if r.None? {
          r := Find(canceling, h);
        }
        canceled := r.Some?;
      }
    }

    // A reader that asks for the data of a canceled URB gives it back.
    method AcknowledgeCancel(id: nat)
      requires Valid() && (id in cancel || id in canceling)
      modifies this
      ensures Valid() && urbs == old(urbs) && trace == old(trace) + Finish(Acknowledge(id), id)
      ensures inbox == old(inbox) && fetched == old(fetched)
      ensures cancel == Without(old(cancel), id) && canceling == Without(old(canceling), id)
      ensures id < |urbs| && Finally(id, urbs[id].info.status)
    {
      hide Play, Unlink, Without, Infos, Acceptable;
      HandedOut(id);
      CanceledRecord(trace, id);
      var _ := Giveback(id, Acknowledge(id), None);
    }

    // ioc_fetch_data_common, when no other thread interferes. memory and copied are the outcomes of the allocations
    // and of the copies to user space; an allocation of a negative size fails. who is the submission that the handle
    // stands for, if the search was reached.
    method FetchDataIoctl(h: Handle, hasBuffer: bool, bufferLength: int, hasIso: bool, packets: int, memory: bool, copied: bool)
      returns (ret: int, data: seq<bv8>, iso: seq<IsoDescriptor>, ghost who: Option<nat>)
      requires Valid()
      modifies this
      ensures Valid() && urbs == old(urbs) && inbox == old(inbox) && fetched == old(fetched)
      ensures ret == -ENOMEM <==> bufferLength < 0 || packets < 0 || ((bufferLength > 0 || packets > 0) && !memory)
      ensures ret == -ENOMEM ==> trace == old(trace)
      ensures ret != -ENOMEM ==> (who.None? <==> old(Unknown(h)))
      ensures ret != -ENOMEM ==> forall id: nat :: old(Has(id) && HasHandle(id, h)) ==> who == Some(id)
      ensures ret == -ENOENT <==> ret != -ENOMEM && who.None?
      ensures ret == -ENOENT ==> trace == old(trace)
      ensures ret != -ENOMEM && who.Some? ==> who.value < |urbs| && urbs[who.value].info.handle == h
      ensures ret != -ENOMEM && who.Some? && who.value !in old(fetched) ==>
                && ret == -ECANCELED && trace == old(trace) + Finish(Acknowledge(who.value), who.value)
                && cancel == Without(old(cancel), who.value) && canceling == Without(old(canceling), who.value)
                && Finally(who.value, urbs[who.value].info.status)
      ensures ret != -ENOMEM && who.Some? && who.value in old(fetched) ==>
                && trace == old(trace) && ret != -ECANCELED
                && Fetches(urbs[who.value], hasBuffer, bufferLength, hasIso, packets, copied, ret, data, iso)
    {
      hide Play, Lists, FindThree, FindHandle, Acceptable, Fetches, Finish, Without;
      data, iso, who := [], [], None;
      if bufferLength < 0 || packets < 0 || ((bufferLength != 0 || packets != 0) && !memory) {
        ret := -ENOMEM;
        return;
      }
      OnlyOne(h);
      var r, canceled := FindForData(h);
      who := r;
      if canceled {
        AcknowledgeCancel(r.value);
        ret := -ECANCELED;
        return;
      }
      if r.None? {
        ret := -ENOENT;
        return;
      }
      HandedOut(r.value);
      ret, data, iso := Copy(urbs[r.value], hasBuffer, bufferLength, hasIso, packets, copied);
    }

    // list_move_tail of the first cancel request into the canceling list
    method ReportFirstCancel() returns (h: Handle)
      requires Valid() && cancel != []
      modifies this
      ensures Valid() && trace == old(trace) + [ReportCancel]
      ensures cancel == old(cancel[1..]) && inbox == old(inbox) && fetched == old(fetched)
      ensures canceling == old(canceling) + [old(cancel[0])]
      ensures old(cancel[0]) < |urbs| && h == urbs[old(cancel[0])].info.handle && urbs == old(urbs)
    {
      hide Play, Infos;
      HandedOut(cancel[0]);
      WithoutHead(trace);
      PlayAppend(trace, ReportCancel);
      h := urbs[cancel[0]].info.handle;
      canceling := canceling + [cancel[0]];
      cancel := cancel[1..];
      trace := trace + [ReportCancel];
    }

    // list_move_tail of the first waiting URB into the fetched list
    method FetchFirst()
      requires Valid() && inbox != [] && inbox[0] < |urbs| && Acceptable(urbs[inbox[0]].info)
      modifies this
      ensures Valid() && trace == old(trace) + [ReportProcess] && urbs == old(urbs)
      ensures inbox == old(inbox[1..]) && fetched == old(fetched) + [old(inbox[0])]
      ensures cancel == old(cancel) && canceling == old(canceling)
      ensures Play(trace).delivered == Play(old(trace)).delivered
    {
      hide Play, Infos, Acceptable, AllWellformed, Without;
      WithoutHead(trace);
      PlayAppend(trace, ReportProcess);
      fetched := fetched + [inbox[0]];
      inbox := inbox[1..];
      trace := trace + [ReportProcess];
    }

    // An invalid URB is given back at once.
    method RejectFirst()
      requires Valid() && inbox != [] && inbox[0] < |urbs| && !Acceptable(urbs[inbox[0]].info)
      modifies this
      ensures Valid() && trace == old(trace) + Finish(Reject, old(inbox[0])) && urbs == old(urbs)
      ensures inbox == old(inbox[1..]) && fetched == old(fetched) && cancel == old(cancel) && canceling == old(canceling)
      ensures Play(trace).delivered
              == Play(old(trace)).delivered[old(inbox[0]) := UrbMachine.MaybeSetStatus(urbs[old(inbox[0])].info.status,
                  -EPIPE)]
    {
      hide Play, Infos, Acceptable, Unlink, AllWellformed, Without, Finish;
      WithoutHead(trace);
      OnlyInInbox(trace, inbox[0]);
      var id := inbox[0];
      FinishPlays(trace, Reject, id, Some(-EPIPE));
      MaybeSetStatus(id, -EPIPE);
      var _ := Giveback(id, Reject, Some(-EPIPE));
    }

    // What the fetch has tested of a record that user space has
    lemma HandedOut(id: nat)
      requires Valid() && (id in fetched || id in cancel || id in canceling)
      ensures id < |urbs| == |Play(trace).subs| && urbs[id].info == Play(trace).subs[id]
      ensures urbs[id].Wellformed() && Acceptable(urbs[id].info)
      ensures urbs[id].info.kind.Control? ==> urbs[id].info.setup.Setup?
    {
      hide Play;
      HandedOutWasTested(trace, id);
    }
  }

  // The answer of fetch-data for an URB that was fetched and not canceled: what ReadVerdict says, unless there is
  // something to copy and the copy fails; and on success the data of an OUT transfer and all iso descriptors.
  ghost predicate Fetches(u: UrbObject, hasBuffer: bool, bufferLength: int, hasIso: bool, packets: int, copied: bool,
                          ret: int, data: seq<bv8>, iso: seq<IsoDescriptor>)
    reads u.buffer
  {
    && (u.info.kind.Control? ==> u.info.setup.Setup?)
    && var v := ReadVerdict(u.info, hasBuffer, bufferLength, hasIso, packets);
       && ret in {0, -EFAULT, -EINVAL, -ENODATA}
       && (v != 0 ==> ret == v)
       && (v == 0 ==>
             (ret == -EFAULT <==>
                !copied && ((u.info.kind.Iso? && packets > 0) || (!DirIn(u.info) && DataLength(u.info) > 0))))
       && (ret == 0 ==> v == 0)
       && (ret == 0 && !DirIn(u.info) && DataLength(u.info) > 0 ==>
             u.buffer != null && DataLength(u.info) <= u.buffer.Length && data == u.buffer[..DataLength(u.info)])
       && (ret == 0 && u.info.kind.Iso? ==> iso == u.iso)
  }

  // Reads the data into private buffers and copies them to user space.
  method Copy(u: UrbObject, hasBuffer: bool, bufferLength: nat, hasIso: bool, packets: nat, copied: bool)
    returns (ret: int, data: seq<bv8>, iso: seq<IsoDescriptor>)
    requires u.Wellformed() && Acceptable(u.info)
    ensures Fetches(u, hasBuffer, bufferLength, hasIso, packets, copied, ret, data, iso)
    ensures ret in {0, -EFAULT, -EINVAL, -ENODATA}
  {
    var dataCells, isoCells;
    data, iso := [], [];
    ret, dataCells, isoCells := ReadData(u, hasBuffer, bufferLength, hasIso, packets);
    if ret == 0 {
      if u.info.kind.Iso? {
        if packets != 0 && !copied { ret := -EFAULT; return; }
        iso := isoCells[..];
      }
      if !DirIn(u.info) && DataLength(u.info) != 0 {
        if !copied { ret := -EFAULT; return; }
        data := dataCells[..DataLength(u.info)];
      }
    }
  }

  // What an URB holds, if there is one of that number
  ghost function SnapshotOf(urbs: seq<UrbObject>, id: nat): Contents
    reads if id < |urbs| then Cells(urbs[id]) else {}
  {
    if id < |urbs| then Snapshot(urbs[id]) else Contents([], [], 0, 0)
  }

  // No step of another thread in any window
  const Alone := Windows([], [], [], [])

  lemma StepsAlone(trace: seq<Step>, id: nat, a: Answer)
    ensures ToEnd(trace, id, a, Alone)
            == trace + [Take(id)] + Proposal(Play(trace).subs, id, a) + Finish(Return(id), id)
  {
    hide Play;
  }

  lemma InNoList(trace: seq<Step>, id: nat)
    requires id in Play(trace).taken || id in Play(trace).answered
    ensures var m := Play(trace); id !in m.inbox && id !in m.fetched && id !in m.cancel && id !in m.canceling
  {
    hide Play;
    PlayListedAt(trace, Inbox, id);
    PlayListedAt(trace, Fetched, id);
    PlayListedAt(trace, Cancel, id);
    PlayListedAt(trace, Canceling, id);
    PlayListedAt(trace, Taken, id);
    PlayListedAt(trace, Answered, id);
  }

  // The lists are free of repetitions, so taking out the head leaves the tail.
  lemma WithoutHead(trace: seq<Step>)
    ensures var q := Play(trace).inbox; q != [] ==> Without(q, q[0]) == q[1..]
    ensures var q := Play(trace).cancel; q != [] ==> Without(q, q[0]) == q[1..]
  {
    hide Play;
    AlwaysInv(trace);
    var m := Play(trace);
    if m.inbox != [] {
      HeadOnce(m, Inbox);
    }
    if m.cancel != [] {
      HeadOnce(m, Cancel);
    }
  }

  lemma HeadOnce(m: State, p: Place)
    requires ListsMatch(m) && Listed(m, p) != []
    ensures Without(Listed(m, p), Listed(m, p)[0]) == Listed(m, p)[1..]
  {
    var q := Listed(m, p);
    assert Counted(m, p, q[0]);
    CountMember(q[1..], q[0]);
  }

  // A canceled submission has its initial status.
  lemma CanceledRecord(trace: seq<Step>, id: nat)
    requires id in Play(trace).cancel || id in Play(trace).canceling
    ensures var m := Play(trace);
            && id !in m.inbox && id !in m.fetched && id < |m.subs| && id in m.record && m.record[id] == m.subs[id].status
  {
    hide Play;
    AlwaysInv(trace);
    PlayListedAt(trace, Inbox, id);
    PlayListedAt(trace, Fetched, id);
    PlayListedAt(trace, Cancel, id);
    PlayListedAt(trace, Canceling, id);
    assert RecordOk(Play(trace), id);
  }

  lemma OnlyInInbox(trace: seq<Step>, id: nat)
    requires id in Play(trace).inbox
    ensures var m := Play(trace);
            && id !in m.fetched && id !in m.cancel && id !in m.canceling
            && id < |m.subs| && id in m.record && m.record[id] == m.subs[id].status
  {
    hide Play;
    AlwaysInv(trace);
    PlayListedAt(trace, Inbox, id);
    PlayListedAt(trace, Fetched, id);
    PlayListedAt(trace, Cancel, id);
    PlayListedAt(trace, Canceling, id);
    assert RecordOk(Play(trace), id);
  }

  lemma TakenHasRecord(trace: seq<Step>, id: nat)
    requires Enabled(Play(trace), Take(id))
    ensures var t := Play(trace + [Take(id)]); id in t.taken && id in t.record && t.subs == Play(trace).subs
  {
    PlayAppend(trace, Take(id));
    assert Play(trace + [Take(id)]).taken[|Play(trace).taken|] == id;
    hide Play;
    HcprivWhileLive(trace + [Take(id)], id);
  }

  lemma AnsweredHasRecord(trace: seq<Step>, id: nat, status: int)
    requires id in Play(trace).taken
    ensures var t := Play(trace + [Step.Answer(id, status)]); id in t.answered && id in t.record
  {
    PlayAppend(trace, Step.Answer(id, status));
    assert Play(trace + [Step.Answer(id, status)]).answered[|Play(trace).answered|] == id;
    hide Play;
    HcprivWhileLive(trace + [Step.Answer(id, status)], id);
  }

  lemma GivebackAlone(trace: seq<Step>, id: nat, a: Answer)
    requires Listed3(Play(trace), id)
    ensures var m, t := Play(trace), Play(ToEnd(trace, id, a, Alone));
            && id < |m.subs| && id in t.delivered && id in t.done
            && t.delivered[id] == (if m.subs[id].status == -EINPROGRESS && Judged(m.subs, id, a) == 0 then a.status
                                   else m.subs[id].status)
    ensures var t := Play(trace + [Take(id)]); id in t.taken && id in t.record
  {
    hide Play, Judged, ToEnd, ToCallback, ListsRespected, Completions, Enabled;
    BeforeTake(trace, id);
    GivebackInterleaved(trace, id, a, Alone, []);
    PlayListedAt(ToEnd(trace, id, a, Alone), Done, id);
    CanTake(trace, id);
    TakenHasRecord(trace, id);
  }

  lemma CanTake(trace: seq<Step>, id: nat)
    requires Listed3(Play(trace), id)
    ensures Enabled(Play(trace), Take(id))
  {
    hide Play;
  }

  lemma FoundById(trace: seq<Step>, h: Handle, id: nat)
    requires var m := Play(trace); id < |m.subs| && m.subs[id].handle == h && (id in m.inbox || Listed3(m, id))
    ensures var m := Play(trace);
            && FindHandle(m.subs, m.inbox, h) == (if id in m.inbox then Some(id) else None)
            && FindHandle(m.subs, m.fetched, h) == (if id in m.fetched then Some(id) else None)
            && (id in m.inbox ==> !Listed3(m, id))
            && (Listed3(m, id) ==> FindThree(m, h) == Some(id))
  {
    hide Play, FindHandle, FindThree;
    AlwaysInv(trace);
    HcprivWhileLive(trace, id);
    FindIsHcpriv(Play(trace), Inbox, h);
    FindIsHcpriv(Play(trace), Fetched, h);
    SearchOrdersAgree(trace, h);
    PlayListedAt(trace, Inbox, id);
    PlayListedAt(trace, Fetched, id);
    PlayListedAt(trace, Cancel, id);
    PlayListedAt(trace, Canceling, id);
  }

  lemma NoneFound(trace: seq<Step>, h: Handle)
    ensures var m := Play(trace);
            FindThree(m, h).None? <==> forall id: nat :: Listed3(m, id) ==> id < |m.subs| && m.subs[id].handle != h
  {
    GivebackContract(trace, h, Payload.Answer(0, 0, 0, 0, Null, Null), Alone, []);
  }
}
