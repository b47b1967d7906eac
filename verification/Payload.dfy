/** The data of an URB on its way between user space and the transfer buffer. */
module Payload {
  import opened Errno
  import opened Urbs

  // User memory behind a pointer: a null pointer, or the bytes that can be accessed there.
  datatype Pointer<T> = Null | At(cells: seq<T>)

  datatype IsoDescriptor = IsoDescriptor(offset: nat, length: nat)
  datatype IsoResult = IsoResult(status: int, actual: int)

  // An URB with the parts the driver writes. The creator's part is info, which nobody changes.
  class UrbObject {
    const info: Urb
    const buffer: array?<bv8>
    const iso: seq<IsoDescriptor>
    const isoResults: array<IsoResult>
    var actualLength: int
    var errorCount: int

    // What the creator of an URB provides: a buffer of the length it says, and a descriptor for each iso packet.
    predicate Wellformed() {
      && (info.hasBuffer <==> buffer != null)
      && (buffer != null ==> buffer.Length == info.length)
      && |iso| == isoResults.Length == info.packets
      && buffer as object? != isoResults
    }

    constructor (info: Urb, buffer: array?<bv8>, iso: seq<IsoDescriptor>)
      requires info.hasBuffer <==> buffer != null
      requires buffer != null ==> buffer.Length == info.length
      requires |iso| == info.packets
      ensures Wellformed() && this.info == info && this.buffer == buffer && this.iso == iso
    {
      this.info := info;
      this.buffer := buffer;
      this.iso := iso;
      this.isoResults := new IsoResult[|iso|](i => IsoResult(0, 0));
      this.actualLength := 0;
      this.errorCount := 0;
    }
  }

  datatype Answer = Answer(status: int, actual: int, packets: int, errors: int, data: Pointer<bv8>, iso: Pointer<IsoResult>)

  // A copy from user space succeeds if it lies within what can be accessed; a copy of a negative length fails.
  predicate Readable<T>(p: Pointer<T>, n: int) {
    n == 0 || (0 < n && p.At? && n <= |p.cells|)
  }

  // The test of an answer, in the order of the driver; 0 if it passes.
  function Verdict(u: Urb, a: Answer): (v: int)
    requires u.kind.Control? ==> u.setup.Setup?
    ensures v in {0, -ENOBUFS, -EINVAL, -EFAULT}
  {
    if u.kind.Iso? && DirIn(u) && a.actual != u.length then -ENOBUFS
    else if u.kind.Iso? && a.packets != u.packets then -EINVAL
    else if u.kind.Iso? && a.packets != 0 && a.iso.Null? then -EINVAL
    else if u.kind.Iso? && !Readable(a.iso, a.packets) then -EFAULT
    else if !u.kind.Iso? && a.actual > u.length then (if DirIn(u) then -ENOBUFS else -EINVAL)
    else if DirIn(u) && a.actual != 0 && a.data.Null? then -EINVAL
    else if DirIn(u) && !Readable(a.data, a.actual) then -EFAULT
    else if !DirIn(u) && a.data.At? then -EINVAL
    else 0
  }

  // What giveback finds wrong with an answer.
  function Judged(subs: seq<Urb>, id: nat, a: Answer): (v: int)
    ensures v in {0, -ENOBUFS, -EINVAL, -EFAULT}
  {
    if id < |subs| && (subs[id].kind.Control? ==> subs[id].setup.Setup?) then Verdict(subs[id], a) else 0
  }

  // A right answer: it brings no more data than asked for, from memory that can be read, and none for an OUT transfer;
  // an iso answer has all packets, and an iso IN answer exactly the length asked for.
  predicate Right(u: Urb, a: Answer)
    requires u.kind.Control? ==> u.setup.Setup?
  {
    if DirIn(u) then
      && 0 <= a.actual <= u.length
      && (a.actual > 0 ==> a.data.At? && a.actual <= |a.data.cells|)
      && (u.kind.Iso? ==> a.actual == u.length && AllPackets(u, a))
    else
      && a.data.Null?
      && if u.kind.Iso? then AllPackets(u, a) else a.actual <= u.length
  }

  predicate AllPackets(u: Urb, a: Answer) {
    a.packets == u.packets && (a.packets > 0 ==> a.iso.At? && a.packets <= |a.iso.cells|)
  }

  // When an answer is accepted, for each kind of URB.
  lemma AcceptedIff(u: Urb, a: Answer)
    requires Acceptable(u)
    ensures Verdict(u, a) == 0 <==> Right(u, a)
    ensures !u.kind.Iso? && DirIn(u) ==>
              (Verdict(u, a) == 0 <==>
                 0 <= a.actual <= u.length && (a.actual == 0 || (a.data.At? && |a.data.cells| >= a.actual)))
    ensures !u.kind.Iso? && !DirIn(u) ==> (Verdict(u, a) == 0 <==> a.actual <= u.length && a.data == Null)
    ensures u.kind.Iso? && DirIn(u) ==>
              (Verdict(u, a) == 0 <==>
                 && a.actual == u.length && a.data.At? && |a.data.cells| >= u.length
                 && a.packets == u.packets && (u.packets == 0 || (a.iso.At? && |a.iso.cells| >= u.packets)))
    ensures u.kind.Iso? && !DirIn(u) ==>
              (Verdict(u, a) == 0 <==>
                 a.data == Null && a.packets == u.packets && (u.packets == 0 || (a.iso.At? && |a.iso.cells| >= u.packets)))
  {
  }

  // -ENOBUFS is for IN data of the wrong length, -EFAULT for memory that cannot be read although the rest up to there
  // is right, and -EINVAL for everything else.
  lemma RefusedIff(u: Urb, a: Answer)
    requires Acceptable(u)
    ensures Verdict(u, a) in {0, -ENOBUFS, -EFAULT, -EINVAL}
    ensures Verdict(u, a) == -ENOBUFS <==> DirIn(u) && if u.kind.Iso? then a.actual != u.length else a.actual > u.length
    ensures !u.kind.Iso? ==>
              (Verdict(u, a) == -EFAULT <==>
                 DirIn(u) && a.data.At? && (a.actual < 0 || |a.data.cells| < a.actual <= u.length))
    ensures u.kind.Iso? ==>
              (Verdict(u, a) == -EFAULT <==>
                 && a.packets == u.packets && (DirIn(u) ==> a.actual == u.length)
                 && if a.packets > 0 && (a.iso.Null? || |a.iso.cells| < a.packets) then a.iso.At?
                    else DirIn(u) && a.data.At? && |a.data.cells| < u.length)
  {
  }

  // Everything of an URB that a giveback may write.
  datatype Contents = Contents(data: seq<bv8>, iso: seq<IsoResult>, actual: int, errors: int)

  ghost function Snapshot(u: UrbObject): Contents
    reads u, u.buffer, u.isoResults
  {
    Contents(if u.buffer == null then [] else u.buffer[..], u.isoResults[..], u.actualLength, u.errorCount)
  }

  // The objects that make up an URB.
  ghost function Cells(u: UrbObject): set<object> {
    {u, u.isoResults} + if u.buffer == null then {} else {u.buffer}
  }

  // The first cells of a sequence replaced by those behind a pointer, as far as both reach.
  function Over<T>(cells: seq<T>, p: Pointer<T>, n: int): (r: seq<T>)
    ensures |r| == |cells|
  {
    if p.At? && 0 <= n <= |p.cells| && n <= |cells| then p.cells[..n] + cells[n..] else cells
  }

  // A right answer brings the data of an IN transfer, the results of an iso transfer and the two counts. A wrong one
  // brings nothing.
  function Written(u: Urb, a: Answer, before: Contents): Contents
    requires u.kind.Control? ==> u.setup.Setup?
  {
    if Verdict(u, a) != 0 then before
    else Contents(if DirIn(u) then Over(before.data, a.data, a.actual) else before.data,
                  if u.kind.Iso? then Over(before.iso, a.iso, a.packets) else before.iso,
                  a.actual, a.errors)
  }

  // An answer is in its URB: the two counts, the data of an IN transfer, and the results of an iso transfer.
  ghost predicate Arrived(u: UrbObject, a: Answer)
    requires u.info.kind.Control? ==> u.info.setup.Setup?
    reads u, u.buffer, u.isoResults
  {
    && u.actualLength == a.actual && u.errorCount == a.errors
    && (DirIn(u.info) && a.actual > 0 ==>
          && u.buffer != null && a.actual <= u.buffer.Length && a.data.At? && a.actual <= |a.data.cells|
          && u.buffer[..a.actual] == a.data.cells[..a.actual])
    && (u.info.kind.Iso? && a.packets > 0 ==>
          a.iso.At? && |a.iso.cells| >= u.isoResults.Length && u.isoResults[..] == a.iso.cells[..u.isoResults.Length])
  }

  // The unlocked part of ioc_giveback_common. The record belongs to this call alone, and was tested when it was
  // fetched; that is what makes the setup packet, the buffer and the lengths right for every access here.
  method TakeAnswer(u: UrbObject, a: Answer) returns (err: int)
    requires u.Wellformed() && Acceptable(u.info)
    modifies Cells(u)
    ensures err == Verdict(u.info, a)
    ensures Snapshot(u) == Written(u.info, a, old(Snapshot(u)))
    ensures err == 0 <==> Right(u.info, a)
    ensures err == 0 ==> Arrived(u, a)
    ensures err == 0 ==> u.actualLength == a.actual && u.errorCount == a.errors
    ensures err == 0 && DirIn(u.info) ==>
              && u.buffer != null && 0 <= a.actual <= u.buffer.Length
              && (a.actual > 0 ==> a.data.At? && u.buffer[..a.actual] == a.data.cells[..a.actual])
              && u.buffer[a.actual..] == old(u.buffer[a.actual..])
    ensures err == 0 && u.info.kind.Iso? && a.packets > 0 ==>
              a.iso.At? && u.isoResults[..] == a.iso.cells[..u.isoResults.Length]
    ensures err != 0 ==> u.actualLength == old(u.actualLength) && u.errorCount == old(u.errorCount)
    ensures err != 0 || !DirIn(u.info) ==> u.buffer != null ==> u.buffer[..] == old(u.buffer[..])
    ensures err != 0 || !u.info.kind.Iso? ==> u.isoResults[..] == old(u.isoResults[..])
  {
    var isIn := DirIn(u.info);
    if u.info.kind.Iso? {
      if isIn && a.actual != u.info.length { return -ENOBUFS; }
      if a.packets != u.info.packets { return -EINVAL; }
      if a.packets != 0 && a.iso.Null? { return -EINVAL; }
      if !Readable(a.iso, a.packets) { return -EFAULT; }
    } else if a.actual > u.info.length {
      return if isIn then -ENOBUFS else -EINVAL;
    }
    if isIn {
      if a.actual != 0 && a.data.Null? { return -EINVAL; }
      if !Readable(a.data, a.actual) { return -EFAULT; }
      CopyIn(u, a.data, a.actual);
    } else if a.data.At? {
      return -EINVAL;
    }
    if u.info.kind.Iso? && a.packets != 0 {
      CopyIso(u, a.iso.cells);
    }
    u.actualLength := a.actual;
    u.errorCount := a.errors;
    err := 0;
  }

  // The user's bytes and packet results arrive in full: a right answer is never cut off by a bound of Over.
  lemma AnswerArrives(u: Urb, a: Answer, before: Contents)
    requires Acceptable(u) && Verdict(u, a) == 0 && (u.hasBuffer ==> |before.data| == u.length) && |before.iso| == u.packets
    ensures var after := Written(u, a, before);
            && (DirIn(u) ==> 0 <= a.actual <= |before.data|)
            && (DirIn(u) && a.actual > 0 ==>
                  a.data.At? && a.actual <= |a.data.cells| && after.data[..a.actual] == a.data.cells[..a.actual])
            && (DirIn(u) ==> after.data[a.actual..] == before.data[a.actual..])
            && (!DirIn(u) ==> after.data == before.data)
            && after.actual == a.actual && after.errors == a.errors
    ensures var after := Written(u, a, before);
            && (u.kind.Iso? && u.packets > 0 ==>
                  a.iso.At? && u.packets <= |a.iso.cells| && after.iso == a.iso.cells[..u.packets])
            && (!u.kind.Iso? ==> after.iso == before.iso)
  {
  }

  // copy_from_user into the transfer buffer
  method CopyIn(u: UrbObject, data: Pointer<bv8>, n: int)
    requires u.Wellformed() && u.buffer != null && Readable(data, n) && n <= u.buffer.Length
    modifies u.buffer
    ensures u.buffer[..] == Over(old(u.buffer[..]), data, n)
  {
    ghost var before := u.buffer[..];
    for i := 0 to n
      invariant forall j :: 0 <= j < i ==> u.buffer[j] == data.cells[j]
      invariant forall j :: i <= j < u.buffer.Length ==> u.buffer[j] == before[j]
    {
      u.buffer[i] := data.cells[i];
    }
    assert n == 0 ==> u.buffer[..] == before;
    assert n > 0 ==> u.buffer[..] == data.cells[..n] + before[n..];
  }

  // The loop that reads the result of each iso packet.
  method CopyIso(u: UrbObject, results: seq<IsoResult>)
    requires u.Wellformed() && u.isoResults.Length <= |results|
    modifies u.isoResults
    ensures u.isoResults[..] == Over(old(u.isoResults[..]), At(results), u.isoResults.Length)
  {
    for i := 0 to u.isoResults.Length
      invariant forall j :: 0 <= j < i ==> u.isoResults[j] == results[j]
    {
      u.isoResults[i] := results[i];
    }
    assert u.isoResults[..] == results[..u.isoResults.Length];
  }

  // The answer of fetch-data for an URB that was fetched and not canceled; 0 if there is data to hand out.
  function ReadVerdict(u: Urb, hasBuffer: bool, bufferLength: int, hasIso: bool, packets: int): int
    requires u.kind.Control? ==> u.setup.Setup?
  {
    if u.kind.Iso? && packets != u.packets then -EINVAL
    else if u.kind.Iso? && packets != 0 && !hasIso then -EINVAL
    else if !u.kind.Iso? && (DirIn(u) || DataLength(u) == 0 || !u.hasBuffer) then -ENODATA
    else if !DirIn(u) && DataLength(u) != 0 && (!hasBuffer || bufferLength < DataLength(u)) then -EINVAL
    else 0
  }

  // The locked part of ioc_fetch_data_common after the search, with the copies into its private buffers.
  method ReadData(u: UrbObject, hasBuffer: bool, bufferLength: nat, hasIso: bool, packets: nat)
    returns (ret: int, data: array<bv8>, iso: array<IsoDescriptor>)
    requires u.Wellformed() && Acceptable(u.info)
    ensures ret == ReadVerdict(u.info, hasBuffer, bufferLength, hasIso, packets)
    ensures data.Length == bufferLength && iso.Length == packets
    ensures ret == 0 && !DirIn(u.info) && DataLength(u.info) > 0 ==>
              u.buffer != null && DataLength(u.info) <= u.buffer.Length && DataLength(u.info) <= data.Length
              && data[..DataLength(u.info)] == u.buffer[..DataLength(u.info)]
    ensures ret == 0 && u.info.kind.Iso? ==> iso[..] == u.iso
  {
    data := new bv8[bufferLength](i => 0);
    iso := new IsoDescriptor[packets](i => IsoDescriptor(0, 0));
    var tbLen := DataLength(u.info);
    var isIn := DirIn(u.info);
    if u.info.kind.Iso? {
      if packets != u.info.packets { ret := -EINVAL; return; }
      if packets != 0 {
        if !hasIso { ret := -EINVAL; return; }
        for i := 0 to packets
          invariant forall j :: 0 <= j < i ==> iso[j] == u.iso[j]
        {
          iso[i] := u.iso[i];
        }
      }
    } else if isIn || tbLen == 0 || u.buffer == null {
      ret := -ENODATA;
      return;
    }
    if !isIn && tbLen != 0 {
      if !hasBuffer || bufferLength < tbLen { ret := -EINVAL; return; }
      for i := 0 to tbLen
        invariant forall j :: 0 <= j < i ==> data[j] == u.buffer[j]
        invariant u.info.kind.Iso? ==> iso[..] == u.iso
      {
        data[i] := u.buffer[i];
      }
    }
    ret := 0;
  }

  // A reader that offers as many bytes and packets as the fetch reported is never told that it offered too little.
  lemma ReportedLengthSuffices(u: Urb)
    requires Acceptable(u)
    ensures ReadVerdict(u, true, DataLength(u), true, u.packets) in {0, -ENODATA}
    ensures ReadVerdict(u, true, DataLength(u), true, u.packets) == -ENODATA <==>
            !u.kind.Iso? && (DirIn(u) || DataLength(u) == 0)
  {
  }

  // When data is handed out, and why it is not.
  lemma ReadIff(u: Urb, hasBuffer: bool, bufferLength: nat, hasIso: bool, packets: nat)
    requires Acceptable(u)
    ensures !u.kind.Iso? ==>
              var v := ReadVerdict(u, hasBuffer, bufferLength, hasIso, packets);
              && (v == -ENODATA <==> DirIn(u) || DataLength(u) == 0)
              && (v == 0 <==> !DirIn(u) && DataLength(u) > 0 && hasBuffer && bufferLength >= DataLength(u))
              && (v == -EINVAL <==> !DirIn(u) && DataLength(u) > 0 && (!hasBuffer || bufferLength < DataLength(u)))
    ensures u.kind.Iso? ==>
              var v := ReadVerdict(u, hasBuffer, bufferLength, hasIso, packets);
              && (v == 0 <==>
                    && packets == u.packets && (packets > 0 ==> hasIso)
                    && (!DirIn(u) && u.length > 0 ==> hasBuffer && bufferLength >= u.length))
              && (v == 0 || v == -EINVAL)
  {
  }
}
