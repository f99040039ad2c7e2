/** WAL fault recovery: what failed and partial batch writes, reopens and retries
    leave in the log, compared with what was appended. */
module Recovery {
  import opened Envelope
  import opened Outbox
  import opened Retention

  /** An outbox with its history: what was accepted since the log directory was
      last replaced, what was written to the log since then, and which accepted
      record each written one is. */
  datatype Track = Track(box: Box, accepted: seq<Entry>, written: seq<Entry>, pos: seq<nat>) {
    function Pending(): int { |accepted| - |box.buffered| }
  }

  datatype Move =
    | Put(e: Entry, w: Weather)
    | Push(fw: Weather)
    | Shrink(n: nat)        // an eviction or a cap drop takes the front of the log
    | Crash                 // the buffer is gone

  // ---------- what a batch write leaves behind ----------

  /** The prefixes of the batch that the first and the second try left on disk. */
  function Burst(b: Box, batch: seq<Entry>, w: Weather): (nat, nat) {
    if b.open && w.write.Wrote? then (0, |batch|)
    else
      var first := if b.open then |Kept(batch, w.write)| else 0;
      if !w.reopens then (first, 0) else (first, |Kept(batch, w.retry)|)
  }

  lemma BurstIsWritten(b: Box, batch: seq<Entry>, w: Weather)
    ensures var (k, m), r := Burst(b, batch, w), WriteBox(b, batch, w);
            && k <= |batch| && m <= |batch| && (r.ok ==> m == |batch|)
            && (!r.moved ==> r.box.recs == Extended(Extended(b, batch[..k]), batch[..m]).recs)
  {
    var first, second := Kept(batch, w.write), Kept(batch, w.retry);
    assert first == batch[..|first|] && second == batch[..|second|] && batch[..|batch|] == batch;
    NothingExtends(b, batch);
    NothingExtends(Extended(b, first), batch);
  }

  lemma NothingExtends(b: Box, batch: seq<Entry>)
    ensures Extended(b, batch[..0]).recs == b.recs
  {
    assert GoodAll(batch[..0]) == [];
  }

  lemma GoodAllOfSum(a: seq<Entry>, b: seq<Entry>)
    ensures GoodAll(a + b) == GoodAll(a) + GoodAll(b)
  {
  }

  function Range(lo: nat, n: nat): (r: seq<nat>)
    ensures |r| == n && forall i :: 0 <= i < n ==> r[i] == lo + i
  {
    seq(n, i requires 0 <= i < n => lo + i)
  }

  // ---------- positions that only go on or jump back ----------

  /** One behind the highest position: how many records the positions reach. */
  function Front(pos: seq<nat>): nat {
    if pos == [] then 0
    else
      var f, p := Front(pos[..|pos| - 1]), pos[|pos| - 1];
      if p < f then f else p + 1
  }

  /** Every position is the next new one or an old one. */
  predicate Rewinds(pos: seq<nat>) {
    pos == [] || (Rewinds(pos[..|pos| - 1]) && pos[|pos| - 1] <= Front(pos[..|pos| - 1]))
  }

  /** Later duplicates deleted. */
  function FirstSeen(pos: seq<nat>): seq<nat> {
    if pos == [] then []
    else
      var f, p := FirstSeen(pos[..|pos| - 1]), pos[|pos| - 1];
      if p in f then f else f + [p]
  }

  lemma {:induction false} RewindsDeduplicate(pos: seq<nat>)
    requires Rewinds(pos)
    ensures FirstSeen(pos) == Range(0, Front(pos))
  {
    if pos != [] {
      RewindsDeduplicate(pos[..|pos| - 1]);
      var f, p := Front(pos[..|pos| - 1]), pos[|pos| - 1];
      if p < f { assert Range(0, f)[p] == p; }
    }
  }

  lemma {:induction false} FirstSeenAreSeen(pos: seq<nat>, p: nat)
    requires p in FirstSeen(pos)
    ensures p in pos
  {
    if p in FirstSeen(pos[..|pos| - 1]) { FirstSeenAreSeen(pos[..|pos| - 1], p); }
  }

  lemma {:induction false} RangeRewinds(pos: seq<nat>, lo: nat, n: nat)
    requires Rewinds(pos) && lo <= Front(pos)
    ensures Rewinds(pos + Range(lo, n))
    ensures Front(pos + Range(lo, n)) == if n == 0 || lo + n <= Front(pos) then Front(pos) else lo + n
    decreases n
  {
    var all := pos + Range(lo, n);
    if n == 0 {
      assert all == pos;
    } else {
      RangeRewinds(pos, lo, n - 1);
      assert all[..|all| - 1] == pos + Range(lo, n - 1);
    }
  }

  // ---------- the history ----------

  ghost predicate Faithful(t: Track) {
    && !t.box.closed && |t.box.buffered| <= |t.accepted|
    && t.box.buffered == t.accepted[t.Pending()..]
    && Copies(t.accepted, t.written, t.pos)
    && Rewinds(t.pos) && t.Pending() <= Front(t.pos) <= |t.accepted|
    && EndsAlike(t.box.recs, GoodAll(t.written))
  }

  /** Each written record is the accepted one at its position. */
  ghost predicate Copies(accepted: seq<Entry>, written: seq<Entry>, pos: seq<nat>) {
    |pos| == |written| && forall i :: 0 <= i < |pos| ==> pos[i] < |accepted| && written[i] == accepted[pos[i]]
  }

  lemma CopiesExtend(accepted: seq<Entry>, written: seq<Entry>, pos: seq<nat>, lo: nat, n: nat)
    requires Copies(accepted, written, pos) && lo + n <= |accepted|
    ensures Copies(accepted, written + accepted[lo..lo + n], pos + Range(lo, n))
  {
  }

  /** The shorter of the two is the end of the longer. */
  predicate EndsAlike(a: seq<Payload>, b: seq<Payload>) {
    if |a| <= |b| then b[|b| - |a|..] == a else a[|a| - |b|..] == b
  }

  lemma EndsAlikeGrows(a: seq<Payload>, b: seq<Payload>, c: seq<Payload>)
    requires EndsAlike(a, b)
    ensures EndsAlike(a + c, b + c)
  {
    if |a| <= |b| {
      assert (b + c)[|b| - |a|..] == b[|b| - |a|..] + c;
    } else {
      assert (a + c)[|a| - |b|..] == a[|a| - |b|..] + c;
    }
  }

  /** A try that left the first `n` pending records on disk. */
  function Left(t: Track, n: nat): Track
    requires |t.box.buffered| <= |t.accepted| && n <= |t.box.buffered|
  {
    var part := t.box.buffered[..n];
    Track(Extended(t.box, part), t.accepted, t.written + part, t.pos + Range(t.Pending(), n))
  }

  lemma LeftKeepsFaith(t: Track, n: nat)
    requires Faithful(t) && n <= |t.box.buffered|
    ensures Faithful(Left(t, n))
    ensures n == |t.box.buffered| ==> Front(Left(t, n).pos) == |t.accepted|
  {
    var p, part := t.Pending(), t.box.buffered[..n];
    RangeRewinds(t.pos, p, n);
    assert part == t.accepted[p..p + n];
    CopiesExtend(t.accepted, t.written, t.pos, p, n);
    EndsAlikeGrows(t.box.recs, GoodAll(t.written), GoodAll(part));
    GoodAllOfSum(t.written, part);
  }

  /** A batch write of the pending records with its recovery. */
  function AfterWrite(t: Track, r: Written, burst: (nat, nat)): Track
    requires |t.box.buffered| <= |t.accepted| && burst.0 <= |t.box.buffered| && burst.1 <= |t.box.buffered|
  {
    if r.moved then Track(r.box, t.box.buffered, [], [])
    else Left(Left(t, burst.0), burst.1).(box := r.box)
  }

  function Flushed(t: Track, w: Weather): Track
    requires |t.box.buffered| <= |t.accepted|
  {
    if t.box.buffered == [] then t
    else
      BurstIsWritten(t.box, t.box.buffered, w);
      AfterWrite(t, FlushBox(t.box, w), Burst(t.box, t.box.buffered, w))
  }

  lemma WriteKeepsFaith(t: Track, r: Written, burst: (nat, nat))
    requires Faithful(t) && burst.0 <= |t.box.buffered| && burst.1 <= |t.box.buffered|
    requires !r.box.closed && (if r.ok then r.box.buffered == [] && burst.1 == |t.box.buffered| else r.box.buffered == t.box.buffered)
    requires !r.moved ==> r.box.recs == Left(Left(t, burst.0), burst.1).box.recs
    requires r.moved ==> !r.ok && r.box.recs == []
    ensures Faithful(AfterWrite(t, r, burst))
  {
    if r.moved {
      FreshIsFaithful(r.box);
    } else {
      LeftKeepsFaith(t, burst.0);
      LeftKeepsFaith(Left(t, burst.0), burst.1);
      SwapKeepsFaith(Left(Left(t, burst.0), burst.1), r.box);
    }
  }

  lemma SwapKeepsFaith(t: Track, b: Box)
    requires Faithful(t) && b.recs == t.box.recs && !b.closed
    requires b.buffered == t.box.buffered || (b.buffered == [] && Front(t.pos) == |t.accepted|)
    ensures Faithful(t.(box := b))
  {
  }

  /** Tracking may start at any open outbox. */
  lemma FreshIsFaithful(b: Box)
    requires !b.closed
    ensures Faithful(Track(b, b.buffered, [], []))
  {
  }

  lemma FlushKeepsFaith(t: Track, w: Weather)
    requires Faithful(t)
    ensures Faithful(Flushed(t, w))
  {
    if t.box.buffered != [] {
      BurstIsWritten(t.box, t.box.buffered, w);
      FlushKeepsEntries(t.box, w);
      WriteKeepsFaith(t, FlushBox(t.box, w), Burst(t.box, t.box.buffered, w));
    }
  }

  function Moved(size: Sizer, t: Track, m: Move): Track
    requires |t.box.buffered| <= |t.accepted| && Front(t.pos) <= |t.accepted|
  {
    match m
    case Put(e, w) =>
      var t' := t.(box := Buffering(size, t.box, e), accepted := t.accepted + [e]);
      if t'.box.bufferedBytes >= FLUSH_THRESHOLD then Flushed(t', w) else t'
    case Push(w) => Flushed(t, w)
    case Shrink(n) =>
      t.(box := t.box.(recs := if n <= |t.box.recs| then t.box.recs[n..] else [], first := t.box.first + n))
    case Crash =>
      t.(box := t.box.(buffered := [], bufferedBytes := 0), accepted := t.accepted[..Front(t.pos)])
  }

  /** The tracked outbox is the outbox. */
  lemma MovesAreTheOutbox(size: Sizer, t: Track, e: Entry, w: Weather)
    requires Faithful(t)
    ensures Moved(size, t, Put(e, w)).box == AppendBox(size, t.box, e, w).box
    ensures Moved(size, t, Push(w)).box == PublicFlushBox(t.box, w).box
  {
  }

  /** So are the rest: an eviction is a Shrink, and what a crash leaves is what
      opening finds again. */
  lemma RestIsTheOutbox(size: Sizer, t: Track, index: nat, io: TruncateWeather, sound: OpenWeather)
    requires Faithful(t) && sound.open.Opens?
    ensures var e := EvictBox(t.box, index, io);
            e.ok && t.box.first <= index <= t.box.Last() ==>
              var s := Moved(size, t, Shrink(index + 1 - t.box.first));
              s.box == e.box.(open := t.box.open) && s.accepted == t.accepted
    ensures var c := Moved(size, t, Crash);
            OpenBox(t.box.first, t.box.recs, sound) == Some(c.box.(open := true)) && c.accepted == t.accepted[..Front(t.pos)]
  {
  }

  lemma AcceptKeepsFaith(size: Sizer, t: Track, e: Entry)
    requires Faithful(t)
    ensures Faithful(t.(box := Buffering(size, t.box, e), accepted := t.accepted + [e]))
  {
    assert (t.accepted + [e])[t.Pending()..] == t.accepted[t.Pending()..] + [e];
  }

  lemma EndsAlikeShrinks(a: seq<Payload>, b: seq<Payload>, n: nat)
    requires EndsAlike(a, b) && n <= |a|
    ensures EndsAlike(a[n..], b)
  {
    if |a| <= |b| {
      assert b[|b| - |a|..][n..] == b[|b| - |a| + n..];
    } else if |a| - n <= |b| {
      assert a[n..] == a[|a| - |b|..][n - (|a| - |b|)..];
    } else {
      assert a[n..][|a| - n - |b|..] == a[|a| - |b|..];
    }
  }

  lemma ShrinkKeepsFaith(size: Sizer, t: Track, n: nat)
    requires Faithful(t)
    ensures Faithful(Moved(size, t, Shrink(n)))
  {
    var m := if n <= |t.box.recs| then n else |t.box.recs|;
    EndsAlikeShrinks(t.box.recs, GoodAll(t.written), m);
  }

  lemma CrashKeepsFaith(size: Sizer, t: Track)
    requires Faithful(t)
    ensures Faithful(Moved(size, t, Crash))
  {
    PositionsBelowFront(t.pos);
  }

  lemma MoveKeepsFaith(size: Sizer, t: Track, m: Move)
    requires Faithful(t)
    ensures Faithful(Moved(size, t, m))
  {
    match m
    case Put(e, w) =>
      AcceptKeepsFaith(size, t, e);
      FlushKeepsFaith(t.(box := Buffering(size, t.box, e), accepted := t.accepted + [e]), w);
    case Push(w) => FlushKeepsFaith(t, w);
    case Shrink(n) => ShrinkKeepsFaith(size, t, n);
    case Crash => CrashKeepsFaith(size, t);
  }

  lemma {:induction false} PositionsBelowFront(pos: seq<nat>)
    ensures forall i :: 0 <= i < |pos| ==> pos[i] < Front(pos)
  {
    if pos != [] {
      PositionsBelowFront(pos[..|pos| - 1]);
      forall i | 0 <= i < |pos| ensures pos[i] < Front(pos) {
        if i < |pos| - 1 { assert pos[i] == pos[..|pos| - 1][i]; }
      }
    }
  }

  ghost function After(size: Sizer, t: Track, moves: seq<Move>): (end: Track)
    requires Faithful(t)
    ensures Faithful(end)
    decreases |moves|
  {
    if moves == [] then t
    else
      MoveKeepsFaith(size, t, moves[0]);
      After(size, Moved(size, t, moves[0]), moves[1..])
  }

  /** After any sequence of appends and writes with any faults, evictions and
      crashes: every accepted record is in what was written or still buffered,
      what was written is the accepted sequence once later duplicates are
      deleted, and the log is the end of what was written. */
  lemma WritesRecover(size: Sizer, t: Track, moves: seq<Move>)
    requires Faithful(t)
    ensures var end := After(size, t, moves);
            && (forall e :: e in end.accepted ==> e in end.written || e in end.box.buffered)
            && Copies(end.accepted, end.written, end.pos)
            && FirstSeen(end.pos) == Range(0, Front(end.pos))
            && EndsAlike(end.box.recs, GoodAll(end.written))
  {
    var end := After(size, t, moves);
    RewindsDeduplicate(end.pos);
    forall e | e in end.accepted ensures e in end.written || e in end.box.buffered {
      var j :| 0 <= j < |end.accepted| && end.accepted[j] == e;
      if j < Front(end.pos) {
        assert Range(0, Front(end.pos))[j] == j;
        FirstSeenAreSeen(end.pos, j);
        var i :| 0 <= i < |end.pos| && end.pos[i] == j;
        assert end.written[i] == e;
      } else {
        assert end.box.buffered[j - end.Pending()] == e;
      }
    }
  }
}
