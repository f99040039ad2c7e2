/** One agent's durable outbox: an append buffer in front of an indexed log.

    `Box` is the outbox as a value and the functions below say what each
    operation makes of it; the class carries the same operations out step by
    step on its fields. What the disk does during a call comes in as a "weather"
    argument, so every claim holds for every behaviour of the disk. */
module Outbox {
  import opened Envelope

  /** The append buffer is written through at this many bytes. */
  const FLUSH_THRESHOLD := 64 * 1024

  /** The log as a value. `first` is the lowest live index and `recs` the live
      records from there on; an evicted log keeps counting from where it was.
      `open` says that a WAL handle is held. */
  datatype Box = Box(
    first: nat, recs: seq<Payload>, open: bool, closed: bool,
    buffered: seq<Entry>, bufferedBytes: nat)
  {
    function Last(): int { first + |recs| - 1 }

    predicate Empty() { recs == [] && buffered == [] }
  }

  function TotalSize(size: Sizer, es: seq<Entry>): nat {
    if es == [] then 0 else TotalSize(size, es[..|es| - 1]) + size(es[|es| - 1])
  }

  lemma TotalSizeOfMore(size: Sizer, es: seq<Entry>, e: Entry)
    ensures TotalSize(size, es + [e]) == TotalSize(size, es) + size(e)
  {
    assert (es + [e])[..|es|] == es;
  }

  ghost predicate Sound(size: Sizer, b: Box) {
    && 1 <= b.first
    && (b.closed ==> !b.open)
    && b.bufferedBytes == TotalSize(size, b.buffered)
  }

  // ---------- the disk's behaviour ----------

  /** One batch write: all of it, or an error that left a prefix on disk. */
  datatype Write = Wrote | Broke(kept: nat)

  /** A write with its recovery: the first try, the reopen, the second try, the
      quarantine rename, and the open that follows it. */
  datatype Weather = Weather(write: Write, reopens: bool, retry: Write, renames: bool, freshOpens: bool)

  datatype ReadWeather = ReadWeather(opens: bool, flush: Weather, ranges: bool, bad: nat, reopens: bool)

  datatype TruncateWeather = TruncateWeather(opens: bool, ranges: bool, truncates: bool, reopens: bool)

  datatype OpenTry = Opens | Corrupt | Fails

  datatype OpenWeather = OpenWeather(open: OpenTry, again: bool, renames: bool, startsOver: bool)

  // ---------- what each operation does to the value ----------

  datatype Written = Written(box: Box, ok: bool, moved: bool)

  function Kept(batch: seq<Entry>, w: Write): (kept: seq<Entry>)
    ensures kept <= batch
  {
    match w
    case Wrote => batch
    case Broke(k) => if k < |batch| then batch[..k] else batch
  }

  function Extended(b: Box, batch: seq<Entry>): Box {
    b.(recs := b.recs + GoodAll(batch))
  }

  function WriteBox(b: Box, batch: seq<Entry>, w: Weather): Written {
    if b.open && w.write.Wrote? then Written(Extended(b, batch), true, false)
    else
      var torn := if b.open then Extended(b, Kept(batch, w.write)) else b;
      if !w.reopens then Written(torn.(open := false), false, false)
      else if w.retry.Wrote? then Written(Extended(torn, batch).(open := true), true, false)
      else if w.renames then Written(torn.(first := 1, recs := [], open := w.freshOpens), false, true)
      else Written(Extended(torn, Kept(batch, w.retry)).(open := w.freshOpens), false, false)
  }

  function FlushBox(b: Box, w: Weather): Written {
    if b.buffered == [] then Written(b, true, false)
    else
      var r := WriteBox(b, b.buffered, w);
      if r.ok then r.(box := r.box.(buffered := [], bufferedBytes := 0)) else r
  }

  function Buffering(size: Sizer, b: Box, e: Entry): Box {
    b.(buffered := b.buffered + [e], bufferedBytes := b.bufferedBytes + size(e))
  }

  function AppendBox(size: Sizer, b: Box, e: Entry, w: Weather): Written {
    if b.closed then Written(b, false, false)
    else
      var b' := Buffering(size, b, e);
      if b'.bufferedBytes >= FLUSH_THRESHOLD then FlushBox(b', w) else Written(b', true, false)
  }

  function PublicFlushBox(b: Box, w: Weather): Written {
    if b.closed then Written(b, false, false) else FlushBox(b, w)
  }

  /** The index a read starts at: the cursor, clamped to the live range; a
      cursor beyond the log reads it again from its start. */
  function StartIndex(b: Box, from: nat): (start: nat)
    requires 1 <= b.first
    ensures b.first <= start <= b.Last() + 1
  {
    var from' := if from > b.Last() + 1 then b.first else from;
    if from' > b.first then from' else b.first
  }

  /** The records one read takes from `recs`, whose first index is `index`, or
      None when the record at index `bad` was needed and could not be read. */
  function Scan(size: Sizer, recs: seq<Payload>, index: nat, room: nat, budget: int, some: bool, bad: nat)
    : Option<seq<Record>>
    decreases |recs|
  {
    if room == 0 || recs == [] then Some([])
    else if index == bad then None
    else
      var left := budget - PayloadSize(size, recs[0]);
      if some && left < 0 then Some([])
      else if left <= 0 then Some([RecordOf(index, recs[0])])
      else match Scan(size, recs[1..], index + 1, room - 1, left, true, bad)
        case None => None
        case Some(rs) => Some([RecordOf(index, recs[0])] + rs)
  }

  datatype ReadOut = ReadOut(box: Box, records: Option<seq<Record>>, moved: bool)

  function ReadFlushed(size: Sizer, b: Box, maxRecords: nat, maxBytes: int, from: nat, io: ReadWeather): ReadOut
    requires 1 <= b.first
  {
    var start := StartIndex(b, from);
    match Scan(size, b.recs[start - b.first..], start, maxRecords, maxBytes, false, io.bad)
    case None => ReadOut(b.(open := io.reopens), None, false)
    case Some(rs) => ReadOut(b, Some(rs), false)
  }

  function ReadBox(size: Sizer, b: Box, maxRecords: nat, maxBytes: int, from: nat, io: ReadWeather): ReadOut
    requires 1 <= b.first
  {
    if b.closed || (!b.open && !io.opens) then ReadOut(b, None, false)
    else
      var f := FlushBox(b.(open := true), io.flush);
      if !f.ok || !io.ranges then ReadOut(f.box, None, f.moved)
      else ReadFlushed(size, f.box, maxRecords, maxBytes, from, io)
  }

  function Truncated(b: Box, index: int): Box
    requires b.first - 1 <= index <= b.Last()
  {
    b.(first := index + 1, recs := b.recs[index + 1 - b.first..])
  }

  datatype Evicted = Evicted(box: Box, ok: bool)

  function EvictBox(b: Box, index: nat, io: TruncateWeather): Evicted {
    if b.closed || (!b.open && !io.opens) then Evicted(b, false)
    else
      var o := b.(open := true);
      if !io.ranges then Evicted(o, false)
      else if o.recs == [] || index < o.first then Evicted(o, true)
      else if !io.truncates then Evicted(o.(open := io.reopens), false)
      else Evicted(Truncated(o, if index > o.Last() then o.Last() else index), true)
  }

  /** `over`: the log's files have reached the retention cap. */
  function CapBox(b: Box, over: bool, io: TruncateWeather): Box {
    if b.closed || !b.open || !over || !io.ranges || b.recs == [] then b
    else if !io.truncates then b.(open := io.reopens)
    else Truncated(b, b.Last())
  }

  /** Opening the directory at machine start; None is a start without an outbox. */
  function OpenBox(first: nat, recs: seq<Payload>, io: OpenWeather): Option<Box> {
    match io.open
    case Opens => Some(Box(first, recs, true, false, [], 0))
    case Fails => None
    case Corrupt =>
      if io.again then Some(Box(first, recs, true, false, [], 0))
      else if !io.startsOver then None
      else if io.renames then Some(Box(1, [], true, false, [], 0))
      else Some(Box(first, recs, true, false, [], 0))
  }

  /** Opening yields an outbox exactly if the log opens, or is corrupt and opens
      at the second try or after it was to be moved aside. */
  lemma OpenYields(first: nat, recs: seq<Payload>, io: OpenWeather)
    ensures OpenBox(first, recs, io).Some? <==> io.open == Opens || (io.open == Corrupt && (io.again || io.startsOver))
  {
  }

  // ---------- the outbox itself ----------

  function Prepend(rs: seq<Record>, o: Option<seq<Record>>): Option<seq<Record>> {
    match o
    case None => None
    case Some(t) => Some(rs + t)
  }

  lemma PrependMore(rs: seq<Record>, r: Record, o: Option<seq<Record>>)
    ensures Prepend(rs, Prepend([r], o)) == Prepend(rs + [r], o)
  {
    if o.Some? { assert rs + ([r] + o.value) == (rs + [r]) + o.value; }
  }

  class Outbox {
    const size: Sizer
    var first: nat
    var recs: seq<Payload>
    var open: bool
    var closed: bool
    var buffered: seq<Entry>
    var bufferedBytes: nat

    function View(): (b: Box)
      reads this
      ensures b.recs == recs && b.buffered == buffered
    {
      Box(first, recs, open, closed, buffered, bufferedBytes)
    }

    ghost predicate Valid()
      reads this
    {
      Sound(size, View())
    }

    /** Opens the directory: what is on disk, unless it is corrupt and moved
        aside; the buffer is empty and the log is open. */
    constructor (size: Sizer, first: nat, recs: seq<Payload>, io: OpenWeather)
      requires 1 <= first && OpenBox(first, recs, io).Some?
      ensures this.size == size && Some(View()) == OpenBox(first, recs, io) && Valid()
      ensures open && !closed && buffered == []
      ensures var movedAside := io.open == Corrupt && !io.again && io.renames;
              this.first == (if movedAside then 1 else first) && this.recs == if movedAside then [] else recs
    {
      this.size := size;
      var movedAside := io.open.Corrupt? && !io.again && io.renames;
      this.first, this.recs := if movedAside then 1 else first, if movedAside then [] else recs;
      open, closed, buffered, bufferedBytes := true, false, [], 0;
    }

    method Append(e: Entry, w: Weather) returns (ok: bool)
      requires Valid()
      modifies this
      ensures Valid()
      ensures var r := AppendBox(size, old(View()), e, w); View() == r.box && ok == r.ok
      ensures old(closed) ==> !ok && View() == old(View())
      ensures !old(closed) && old(bufferedBytes) + size(e) < 64 * 1024 ==>
                && ok && buffered == old(buffered) + [e] && bufferedBytes == old(bufferedBytes) + size(e)
                && first == old(first) && recs == old(recs) && open == old(open) && !closed
      ensures !old(closed) && old(bufferedBytes) + size(e) >= 64 * 1024 ==>
                && (ok <==> (old(open) && w.write.Wrote?) || (w.reopens && w.retry.Wrote?))
                && (if ok then buffered == [] && open else buffered == old(buffered) + [e]) && !closed
    {
      if closed { return false; }
      TotalSizeOfMore(size, buffered, e);
      buffered := buffered + [e];
      bufferedBytes := bufferedBytes + size(e);
      assert View() == Buffering(size, old(View()), e);
      if bufferedBytes >= FLUSH_THRESHOLD {
        ok := FlushLocked(w);
        return;
      }
      return true;
    }

    method Flush(w: Weather) returns (ok: bool)
      requires Valid()
      modifies this
      ensures Valid()
      ensures var r := PublicFlushBox(old(View()), w); View() == r.box && ok == r.ok
      ensures old(closed) ==> !ok && View() == old(View())
      ensures !old(closed) ==> (ok <==> old(buffered) == [] || (old(open) && w.write.Wrote?) || (w.reopens && w.retry.Wrote?))
      ensures ok ==> buffered == []
      ensures !ok ==> buffered == old(buffered)
    {
      if closed { return false; }
      ok := FlushLocked(w);
    }

    method FlushLocked(w: Weather) returns (ok: bool)
      requires Valid() && !closed
      modifies this
      ensures Valid() && !closed
      ensures var r := FlushBox(old(View()), w); View() == r.box && ok == r.ok
    {
      if |buffered| == 0 { return true; }
      ok := WriteLocked(buffered, w);
      if !ok { return; }
      buffered := [];
      bufferedBytes := 0;
    }

    /** Write, and on an error reopen and write again; a second error moves the
        directory aside. */
    method WriteLocked(entries: seq<Entry>, w: Weather) returns (ok: bool)
      requires Valid() && !closed
      modifies this`first, this`recs, this`open
      ensures Valid()
      ensures var r := WriteBox(old(View()), entries, w); View() == r.box && ok == r.ok
      ensures ok <==> (old(open) && w.write.Wrote?) || (w.reopens && w.retry.Wrote?)
      ensures open == (ok || (w.reopens && w.freshOpens))
      ensures if !ok && w.reopens && w.renames then first == 1 && recs == [] else first == old(first) && old(recs) <= recs
    {
      ok := AppendBatchLocked(entries, w.write);
      if ok { return; }
      ok := ReopenLocked(w.reopens);
      if !ok { return; }
      ok := AppendBatchLocked(entries, w.retry);
      if !ok {
        open := false;
        if w.renames { first, recs := 1, []; }
        open := w.freshOpens;
      }
    }

    method AppendBatchLocked(entries: seq<Entry>, w: Write) returns (ok: bool)
      modifies this`recs
      ensures recs == if old(open) then old(recs) + GoodAll(Kept(entries, w)) else old(recs)
      ensures ok == (old(open) && w.Wrote?)
      ensures recs == if !old(open) then old(recs)
                      else old(recs) + GoodAll(if w.Broke? && w.kept < |entries| then entries[..w.kept] else entries)
    {
      if !open { return false; }
      recs := recs + GoodAll(Kept(entries, w));
      return w.Wrote?;
    }

    method ReopenLocked(opens: bool) returns (ok: bool)
      modifies this`open
      ensures open == ok == opens
    {
      open := false;
      if !opens { return false; }
      open := true;
      return true;
    }

    method EnsureLogLocked(opens: bool) returns (ok: bool)
      modifies this`open
      ensures ok == open == (old(open) || (!closed && opens))
    {
      if open { return true; }
      if closed { return false; }
      if !opens { return false; }
      open := true;
      return true;
    }

    method ReadRecords(maxRecords: nat, maxBytes: int, from: nat, io: ReadWeather)
      returns (result: Option<seq<Record>>)
      requires Valid()
      modifies this
      ensures Valid()
      ensures var r := ReadBox(size, old(View()), maxRecords, maxBytes, from, io);
              View() == r.box && result == r.records
      ensures old(closed) || (!old(open) && !io.opens) ==> result.None? && View() == old(View())
      ensures !old(closed) && (old(open) || io.opens) ==>
                var f := FlushBox(old(View()).(open := true), io.flush);
                && first == f.box.first && recs == f.box.recs && buffered == f.box.buffered && !closed
                && (!f.ok || !io.ranges ==> result.None? && open == f.box.open)
                && (f.ok && io.ranges && result.None? ==> open == io.reopens)
                && (result.Some? ==> open && buffered == [])
    {
      if closed { return None; }
      var ok := EnsureLogLocked(io.opens);
      if !ok { return None; }
      ok := FlushLocked(io.flush);
      if !ok { return None; }
      if !io.ranges { return None; }
      result := ReadFlushedLocked(maxRecords, maxBytes, from, io);
    }

    method ReadFlushedLocked(maxRecords: nat, maxBytes: int, from: nat, io: ReadWeather)
      returns (result: Option<seq<Record>>)
      requires Valid() && !closed
      modifies this`open
      ensures Valid()
      ensures var r := ReadFlushed(size, old(View()), maxRecords, maxBytes, from, io);
              View() == r.box && result == r.records
    {
      var index, last := first, first + |recs| - 1;
      var from' := from;
      if from > last + 1 { from' := index; }
      if from' > index { index := from'; }
      result := ScanLocked(index, maxRecords, maxBytes, io.bad);
      if result.None? { var ok := ReopenLocked(io.reopens); }
    }

    /** The read loop, from a live index on. */
    method ScanLocked(from: nat, maxRecords: nat, maxBytes: int, bad: nat) returns (result: Option<seq<Record>>)
      requires first <= from <= first + |recs|
      ensures result == Scan(size, recs[from - first..], from, maxRecords, maxBytes, false, bad)
    {
      ghost var whole := Scan(size, recs[from - first..], from, maxRecords, maxBytes, false, bad);
      var index, last := from, first + |recs| - 1;
      var records: seq<Record> := [];
      var budget := maxBytes;
      assert whole.Some? ==> [] + whole.value == whole.value;
      while |records| < maxRecords
        invariant first <= index <= last + 1 && |records| <= maxRecords
        invariant whole == Prepend(records,
          Scan(size, recs[index - first..], index, maxRecords - |records|, budget, |records| > 0, bad))
      {
        assert records + [] == records;
        if last < index { break; }
        var data := recs[index - first];
        assert recs[index - first..][0] == data;
        assert recs[index - first..][1..] == recs[index + 1 - first..];
        if index == bad { return None; }
        if |records| > 0 && budget - PayloadSize(size, data) < 0 { break; }
        PrependMore(records, RecordOf(index, data),
          Scan(size, recs[index + 1 - first..], index + 1, maxRecords - |records| - 1,
               budget - PayloadSize(size, data), true, bad));
        records := records + [RecordOf(index, data)];
        budget := budget - PayloadSize(size, data);
        if budget <= 0 { break; }
        index := index + 1;
      }
      assert records + [] == records;
      return Some(records);
    }

    method EvictThrough(index: nat, io: TruncateWeather) returns (ok: bool)
      requires Valid()
      modifies this
      ensures Valid()
      ensures var r := EvictBox(old(View()), index, io); View() == r.box && ok == r.ok
      ensures ok <==> && !old(closed) && (old(open) || io.opens) && io.ranges
                      && (old(recs) == [] || index < old(first) || io.truncates)
      ensures if ok && old(recs) != [] && index >= old(first) then
                var last := old(first) + |old(recs)| - 1;
                first == (if index > last then last else index) + 1 && recs == old(recs)[first - old(first)..]
              else first == old(first) && recs == old(recs)
      ensures open == if old(closed) || (!old(open) && !io.opens) then old(open) else ok || !io.ranges || io.reopens
      ensures buffered == old(buffered) && closed == old(closed)
    {
      if closed { return false; }
      ok := EnsureLogLocked(io.opens);
      if !ok { return; }
      if !io.ranges { return false; }
      var last := first + |recs| - 1;
      if last < first || index < first { return true; }
      var cut: nat := if index > last then last else index;
      if !io.truncates {
        ok := ReopenLocked(io.reopens);
        return false;
      }
      recs, first := recs[cut + 1 - first..], cut + 1;
      return true;
    }

    /** Whether nothing waits for upload; None is an error. */
    method Empty(opens: bool, ranges: bool) returns (empty: Option<bool>)
      requires Valid()
      modifies this`open
      ensures Valid()
      ensures View() == old(View()).(open := old(open) || (!closed && opens))
      ensures empty.Some? ==> empty.value == (recs == [] && buffered == [])
      ensures empty.None? <==> closed || !open || (buffered == [] && !ranges)
    {
      if closed { return None; }
      var ok := EnsureLogLocked(opens);
      if !ok { return None; }
      if |buffered| > 0 { return Some(false); }
      if !ranges { return None; }
      return Some(first + |recs| - 1 < first);
    }

    method EnforceCap(over: bool, io: TruncateWeather)
      requires Valid()
      modifies this
      ensures Valid()
      ensures View() == CapBox(old(View()), over, io)
      ensures var due := !old(closed) && old(open) && over && io.ranges && old(recs) != [];
              && (if due && io.truncates then recs == [] && first == old(first) + |old(recs)|
                  else recs == old(recs) && first == old(first))
              && open == (if due && !io.truncates then io.reopens else old(open))
              && buffered == old(buffered) && closed == old(closed)
    {
      if closed || !open { return; }
      if !over || !io.ranges { return; }
      if |recs| == 0 { return; }
      if !io.truncates {
        var ok := ReopenLocked(io.reopens);
        return;
      }
      first, recs := first + |recs|, [];
    }

    /** Closing does not write the buffer. */
    method Close()
      requires Valid()
      modifies this`closed, this`open
      ensures Valid()
      ensures View() == old(View()).(closed := true, open := false)
      ensures closed && !open && first == old(first) && recs == old(recs) && buffered == old(buffered)
    {
      closed := true;
      open := false;
    }
  }
}
