/** What the write path keeps: the set of entries an outbox holds, in its log
    and its buffer, over successful and failed writes. */
module Retention {
  import opened Envelope
  import opened Outbox
  import opened Shards
  import opened Groups

  ghost function LogEntries(recs: seq<Payload>): set<Entry> {
    set p | p in recs && p.Good? :: p.entry
  }

  ghost function Members(es: seq<Entry>): set<Entry> {
    set e | e in es
  }

  ghost function Stored(b: Box): set<Entry> {
    LogEntries(b.recs) + Members(b.buffered)
  }

  lemma ListingEntries(recs: seq<Payload>, index: nat)
    ensures EntrySet(Listing(recs, index)) == LogEntries(recs)
  {
    var rs := Listing(recs, index);
    forall p | p in recs && p.Good? ensures p.entry in EntrySet(rs) {
      var j :| 0 <= j < |recs| && recs[j] == p;
      assert rs[j] in rs;
    }
  }

  lemma LogEntriesOfSum(a: seq<Payload>, b: seq<Payload>)
    ensures LogEntries(a + b) == LogEntries(a) + LogEntries(b)
  {
    assert forall p :: p in a + b <==> p in a || p in b;
  }

  lemma LogEntriesOfBatch(batch: seq<Entry>)
    ensures LogEntries(GoodAll(batch)) == Members(batch)
  {
    forall e | e in batch ensures e in LogEntries(GoodAll(batch)) {
      var i :| 0 <= i < |batch| && batch[i] == e;
      assert GoodAll(batch)[i] in GoodAll(batch);
    }
  }

  lemma ExtendedEntries(b: Box, batch: seq<Entry>)
    ensures LogEntries(Extended(b, batch).recs) == LogEntries(b.recs) + Members(batch)
  {
    LogEntriesOfSum(b.recs, GoodAll(batch));
    LogEntriesOfBatch(batch);
  }

  /** A batch write, however it fails, only adds entries of the batch to the
      log; a successful one adds them all. */
  lemma WriteAddsTheBatch(b: Box, batch: seq<Entry>, w: Weather)
    ensures var r := WriteBox(b, batch, w);
            !r.moved ==>
              && b.recs <= r.box.recs && r.box.first == b.first
              && LogEntries(b.recs) <= LogEntries(r.box.recs) <= LogEntries(b.recs) + Members(batch)
              && (r.ok ==> LogEntries(r.box.recs) == LogEntries(b.recs) + Members(batch))
  {
    var first, second := Kept(batch, w.write), Kept(batch, w.retry);
    PrefixMembers(first, batch);
    PrefixMembers(second, batch);
    if b.open && w.write.Wrote? {
      ExtendedEntries(b, batch);
    } else {
      var torn := if b.open then Extended(b, first) else b;
      ExtendedEntries(b, first);
      if w.reopens && w.retry.Wrote? {
        ExtendedEntries(torn, batch);
      } else if w.reopens {
        ExtendedEntries(torn, second);
      }
    }
  }

  /** Unless the directory is moved aside, a write of the buffer, however it
      fails, neither loses nor invents an entry; and the log only grows. */
  lemma FlushKeepsEntries(b: Box, w: Weather)
    ensures var r := FlushBox(b, w);
            && (!r.moved ==> Stored(r.box) == Stored(b) && r.box.first == b.first && b.recs <= r.box.recs)
            && (r.ok ==> !r.moved && r.box.buffered == [] && (b.open || b.buffered != [] ==> r.box.open))
            && (!r.ok ==> r.box.buffered == b.buffered)
            && r.box.closed == b.closed
  {
    WriteAddsTheBatch(b, b.buffered, w);
  }

  lemma PrefixMembers(a: seq<Entry>, b: seq<Entry>)
    requires a <= b
    ensures Members(a) <= Members(b)
  {
    assert b == a + b[|a|..];
  }

  lemma AppendKeepsEntries(size: Sizer, b: Box, e: Entry, w: Weather)
    requires !b.closed
    ensures var r := AppendBox(size, b, e, w);
            && (!r.moved ==> Stored(r.box) == Stored(b) + {e} && r.box.first == b.first && b.recs <= r.box.recs)
            && (r.ok ==> !r.moved)
            && !r.box.closed
  {
    var b' := Buffering(size, b, e);
    assert Stored(b') == Stored(b) + {e};
    FlushKeepsEntries(b', w);
  }

  // ---------- a row of appends ----------

  function AppendEach(size: Sizer, b: Box, es: seq<Entry>, w: nat -> Weather, k: nat): Written
    decreases |es|
  {
    if es == [] then Written(b, true, false)
    else
      var r := AppendBox(size, b, es[0], w(k));
      if !r.ok then r else AppendEach(size, r.box, es[1..], w, k + 1)
  }

  lemma {:induction false} AppendEachKeepsEntries(size: Sizer, b: Box, es: seq<Entry>, w: nat -> Weather, k: nat)
    requires !b.closed
    ensures var r := AppendEach(size, b, es, w, k);
            r.ok ==> Stored(r.box) == Stored(b) + Members(es) && b.recs <= r.box.recs
                     && r.box.first == b.first && !r.box.closed && !r.moved
    decreases |es|
  {
    if es != [] {
      AppendKeepsEntries(size, b, es[0], w(k));
      var r := AppendBox(size, b, es[0], w(k));
      if r.ok {
        AppendEachKeepsEntries(size, r.box, es[1..], w, k + 1);
        assert es == [es[0]] + es[1..];
        assert Members(es) == {es[0]} + Members(es[1..]);
      }
    }
  }

  /** A read moves the buffer into the log and changes nothing else. */
  lemma ReadKeepsEntries(size: Sizer, b: Box, maxRecords: nat, maxBytes: int, from: nat, io: ReadWeather)
    requires 1 <= b.first
    ensures var r := ReadBox(size, b, maxRecords, maxBytes, from, io);
            && (!r.moved ==> Stored(r.box) == Stored(b) && r.box.first == b.first && b.recs <= r.box.recs)
            && (r.records.Some? ==> !r.moved && r.box.buffered == [] && r.box.open && !r.box.closed)
            && (b.buffered == [] ==> r.box.recs == b.recs && r.box.first == b.first)
            && (r.records.Some? && 1 <= maxRecords && r.records.value == [] ==>
                  StartIndex(r.box, from) == r.box.Last() + 1)
  {
    FlushKeepsEntries(b.(open := true), io.flush);
  }

  /** What a read returns is the next run of the log behind its cursor. */
  lemma ReadIsNext(size: Sizer, b: Box, maxRecords: nat, maxBytes: int, from: nat, io: ReadWeather)
    requires 1 <= b.first
    ensures var r := ReadBox(size, b, maxRecords, maxBytes, from, io);
            r.records.Some? ==>
              var at := StartIndex(r.box, from) - r.box.first;
              && at + |r.records.value| <= |r.box.recs|
              && r.records.value == Listing(r.box.recs, r.box.first)[at..at + |r.records.value|]
  {
    var r := ReadBox(size, b, maxRecords, maxBytes, from, io);
    if r.records.Some? {
      var start := StartIndex(r.box, from);
      ScanTakesAPrefix(size, r.box.recs[start - r.box.first..], start, maxRecords, maxBytes, false, io.bad);
    }
  }
}
