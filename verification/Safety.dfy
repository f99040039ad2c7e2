/** Safety over whole runs: what leaves the log was settled or is recorded as
    dropped, and every record ever written is accounted for. */
module Safety {
  import opened Envelope
  import opened Outbox
  import opened Shards
  import opened Retention
  import opened Fold
  import opened Protocol

  // ---------- the invariants ----------

  /** The live log is the end of its index space's history. */
  ghost predicate LogInv(b: Box, s: Space) {
    && 1 <= s.base <= b.first
    && b.first + |b.recs| == s.End()
    && s.hist[b.first - s.base..] == b.recs
  }

  /** The batch on its way is the run of the log that starts at the cursor. */
  ghost predicate InFlight(b: Box, from: nat, rs: seq<Record>) {
    && 1 <= b.first && rs != []
    && var start := StartIndex(b, from);
       && start + |rs| <= b.first + |b.recs|
       && forall k :: 0 <= k < |rs| ==> rs[k] == RecordOf(start + k, b.recs[start - b.first + k])
  }

  ghost predicate CursorInv(b: Box, from: nat, flight: Option<seq<Record>>) {
    from <= b.Last() + 1 && (flight.Some? ==> InFlight(b, from, flight.value))
  }

  /** Everything below `first` was settled by a reply or dropped by the cap; the
      drops are disjoint. */
  ghost predicate SpaceOk(s: Space, first: nat) {
    && 1 <= s.base <= first <= s.End()
    && (forall i :: i in s.settled ==> s.Has(i))
    && (forall i :: s.base <= i < first ==> i in s.settled || s.Dropped(i))
    && (forall k :: 0 <= k < |s.drops| ==> s.base <= s.drops[k].lo < s.drops[k].hi <= first)
    && (forall k, m :: 0 <= k < m < |s.drops| ==> s.drops[k].hi <= s.drops[m].lo)
  }

  /** Everything live below the cursor is settled. */
  ghost predicate BelowCursor(s: Space, first: nat, from: nat) {
    forall i :: first <= i < from ==> i in s.settled
  }

  ghost predicate Delivered(f: Fates, p: Payload) {
    match p
    case Torn(_) => true
    case Good(e) => e in f.store || Name(e.command, e.kind, e.seqNo) in f.named || e.command in f.condemned
  }

  ghost predicate FatesOk(s: Space, f: Fates) {
    forall i :: i in s.settled && s.Has(i) ==> Delivered(f, s.At(i))
  }

  ghost predicate PastOk(past: seq<Closed>, f: Fates) {
    forall c :: c in past ==> SpaceOk(c.space, c.first) && FatesOk(c.space, f)
  }

  /** The cursor as far as it can be trusted. */
  function Trusted(w: World): nat {
    if w.adrift then 0 else w.up.readFrom
  }

  ghost predicate Inv(w: World) {
    && LogInv(w.box, w.space) && SpaceOk(w.space, w.box.first)
    && FatesOk(w.space, w.fates) && PastOk(w.past, w.fates)
    && CursorInv(w.box, Trusted(w), if w.outdated then None else w.flight)
    && BelowCursor(w.space, w.box.first, Trusted(w))
    && (w.outdated ==> w.adrift && w.flight.Some? && w.space.settled == {} && w.space.drops == []) && (w.adrift ==> w.stale)
  }

  // ---------- what the parts of a step do ----------

  /** A write extends the log in place or, when the directory was moved, leaves
      a fresh one. */
  ghost predicate Grows(b: Box, b': Box, moved: bool) {
    if moved then b'.first == 1 && b'.recs == [] else b'.first == b.first && b.recs <= b'.recs
  }

  lemma FlushGrows(b: Box, w: Weather)
    ensures Grows(b, FlushBox(b, w).box, FlushBox(b, w).moved)
  {
    WriteAddsTheBatch(b, b.buffered, w);
  }

  lemma AppendGrows(size: Sizer, b: Box, e: Entry, w: Weather)
    ensures Grows(b, AppendBox(size, b, e, w).box, AppendBox(size, b, e, w).moved)
  {
    FlushGrows(Buffering(size, b, e), w);
  }

  lemma ReadGrows(size: Sizer, limits: Limits, b: Box, from: nat, io: ReadWeather)
    requires 1 <= b.first
    ensures var r := ReadBox(size, b, limits.entries, limits.bytes, from, io);
            Grows(b, r.box, r.moved) && (r.records.Some? ==> !r.moved)
  {
    FlushGrows(b.(open := true), io.flush);
  }

  lemma NextIsInFlight(b: Box, from: nat, rs: seq<Record>)
    requires 1 <= b.first && rs != []
    requires var at := StartIndex(b, from) - b.first;
             at + |rs| <= |b.recs| && rs == Listing(b.recs, b.first)[at..at + |rs|]
    ensures InFlight(b, from, rs)
  {
  }

  /** The fold of a batch in flight: the cursor moves behind the settled prefix,
      and the log loses exactly that prefix or nothing. */
  ghost predicate FoldMoves(b: Box, from: nat, start: nat, n: nat, b': Box, from': nat) {
    && from' == (if n == 0 then from else start + n)
    && 1 <= b.first <= start == StartIndex(b, from) && start + n <= b.first + |b.recs|
    && ((b'.first == b.first && b'.recs == b.recs) ||
        (n > 0 && b'.first == start + n && b'.recs == b.recs[start + n - b.first..]))
    && b'.buffered == b.buffered
  }

  lemma FoldFacts(size: Sizer, limits: Limits, b: Box, u: Up, rs: seq<Record>, resp: Response, io: TruncateWeather)
    requires InFlight(b, u.readFrom, rs) && u.readFrom <= b.Last() + 1
    ensures var f := FoldUp(size, limits, b, u, rs, resp, io);
            FoldMoves(b, u.readFrom, rs[0].index, SettledCount(rs, resp), f.box, f.up.readFrom)
  {
    FlightIndices(b, u.readFrom, rs);
  }

  lemma FlightIndices(b: Box, from: nat, rs: seq<Record>)
    requires InFlight(b, from, rs)
    ensures forall k :: 0 <= k < |rs| ==>
              && rs[k].index == rs[0].index + k && b.first <= rs[k].index < b.first + |b.recs|
              && rs[k] == RecordOf(rs[k].index, b.recs[rs[k].index - b.first])
  {
  }

  lemma DropsCarryOver(s: Space, t: Space)
    requires s.drops <= t.drops
    ensures forall i :: s.Dropped(i) ==> t.Dropped(i)
  {
    forall i: nat | s.Dropped(i) ensures t.Dropped(i) {
      var k :| 0 <= k < |s.drops| && s.drops[k].lo <= i < s.drops[k].hi;
      assert t.drops[k] == s.drops[k];
    }
  }

  // ---------- every step keeps the invariant ----------

  lemma WriteKeeps(w: World, b: Box, moved: bool)
    requires Inv(w) && Grows(w.box, b, moved)
    ensures Inv(Recorded(w, b, moved))
  {
    if moved {
      ClosingKeeps(w);
    } else {
      ExtensionKeeps(w.box, w.space, b, w.fates);
      CursorCarriesOver(w.box, b, Trusted(w), if w.outdated then None else w.flight);
    }
  }

  lemma CursorCarriesOver(b: Box, b': Box, from: nat, flight: Option<seq<Record>>)
    requires CursorInv(b, from, flight) && b'.first == b.first && b.recs <= b'.recs
    ensures CursorInv(b', from, flight)
  {
  }

  lemma ExtensionKeeps(b: Box, s: Space, b': Box, f: Fates)
    requires LogInv(b, s) && SpaceOk(s, b.first) && FatesOk(s, f) && b'.first == b.first && b.recs <= b'.recs
    ensures var s' := s.(hist := s.hist + b'.recs[|b.recs|..]);
            LogInv(b', s') && SpaceOk(s', b'.first) && FatesOk(s', f)
  {
    DropsCarryOver(s, s.(hist := s.hist + b'.recs[|b.recs|..]));
  }

  lemma ClosingKeeps(w: World)
    requires Inv(w)
    ensures PastOk(w.past + [Closed(w.space, w.box.first)], w.fates)
  {
    forall c | c in w.past + [Closed(w.space, w.box.first)]
      ensures SpaceOk(c.space, c.first) && FatesOk(c.space, w.fates)
    {
      assert c in w.past || c == Closed(w.space, w.box.first);
    }
  }

  lemma SettledIsDelivered(f: Fates, resp: Response, store: set<Entry>, e: Entry)
    requires SettlesEntry(resp, e) && (Acked(resp, e) ==> e in store)
    ensures Delivered(Told(f, resp, store), Good(e))
  {
    if !Acked(resp, e) {
      var j :| 0 <= j < |resp.rejected| && (Names(resp.rejected[j], e) ||
                 (resp.rejected[j].kind == Result && resp.rejected[j].command == e.command));
      assert resp.rejected[j] in resp.rejected;
    }
  }

  lemma LiveIsHistory(b: Box, s: Space, i: nat)
    requires LogInv(b, s) && b.first <= i < b.first + |b.recs|
    ensures s.Has(i) && s.At(i) == b.recs[i - b.first]
  {
    assert s.hist[b.first - s.base..][i - b.first] == b.recs[i - b.first];
  }

  lemma NewSettledAreDelivered(b: Box, from: nat, rs: seq<Record>, s: Space, f: Fates, resp: Response, store: set<Entry>)
    requires LogInv(b, s) && InFlight(b, from, rs) && Honest(rs, resp, f.store, store)
    ensures forall i :: i in SettledIndices(rs, resp) ==> s.Has(i) && Delivered(Told(f, resp, store), s.At(i))
  {
    FlightIndices(b, from, rs);
    forall r | r in rs && Settles(resp, r)
      ensures s.Has(r.index) && Delivered(Told(f, resp, store), s.At(r.index))
    {
      var k :| 0 <= k < |rs| && rs[k] == r;
      LiveIsHistory(b, s, r.index);
      if r.entry.Some? {
        AckedIsUnderWatermark(resp, r.entry.value);
        SettledIsDelivered(f, resp, store, r.entry.value);
      }
    }
  }

  lemma FatesGrow(s: Space, f: Fates, g: Fates)
    requires FatesOk(s, f) && f.store <= g.store && f.named <= g.named && f.condemned <= g.condemned
    ensures FatesOk(s, g)
  {
  }

  lemma PastFatesGrow(past: seq<Closed>, f: Fates, g: Fates)
    requires PastOk(past, f) && f.store <= g.store && f.named <= g.named && f.condemned <= g.condemned
    ensures PastOk(past, g)
  {
    forall c | c in past ensures FatesOk(c.space, g) { FatesGrow(c.space, f, g); }
  }

  /** The settled prefix is settled, index by index. */
  lemma PrefixIsSettled(b: Box, from: nat, rs: seq<Record>, resp: Response)
    requires InFlight(b, from, rs)
    ensures forall i :: rs[0].index <= i < rs[0].index + SettledCount(rs, resp) ==> i in SettledIndices(rs, resp)
  {
    FlightIndices(b, from, rs);
    forall i | rs[0].index <= i < rs[0].index + SettledCount(rs, resp) ensures i in SettledIndices(rs, resp) {
      assert rs[i - rs[0].index] in rs;
    }
  }

  lemma FoldKeepsSpace(b: Box, s: Space, from: nat, start: nat, n: nat, b': Box, from': nat, settled: set<nat>)
    requires LogInv(b, s) && SpaceOk(s, b.first) && BelowCursor(s, b.first, from) && from <= b.Last() + 1
    requires FoldMoves(b, from, start, n, b', from')
    requires forall i :: start <= i < start + n ==> i in settled
    requires forall i :: i in settled ==> s.Has(i)
    ensures var s' := s.(settled := s.settled + settled);
            SpaceOk(s', b'.first) && BelowCursor(s', b'.first, from') && LogInv(b', s') && from' <= b'.Last() + 1
  {
    DropsCarryOver(s, s.(settled := s.settled + settled));
    assert s.hist[b.first - s.base..][b'.first - b.first..] == s.hist[b'.first - s.base..];
  }

  /** The reply to a batch of the present log. */
  lemma AnsweredKeeps(w: World, f: Folded, start: nat, n: nat, from': nat, told: Fates, settled: set<nat>, cleared: set<nat>, tally: Tally)
    requires Inv(w) && !w.outdated && FoldMoves(w.box, Trusted(w), start, n, f.box, from')
    requires f.up.readFrom == if from' > w.up.readFrom then from' else w.up.readFrom
    requires forall i :: start <= i < start + n ==> i in settled
    requires forall i :: i in settled ==> w.space.Has(i) && Delivered(told, w.space.At(i))
    requires w.fates.store <= told.store && w.fates.named <= told.named && w.fates.condemned <= told.condemned
    ensures Inv(Answered(w, f, told, settled, cleared, tally))
  {
    FatesGrow(w.space, w.fates, told);
    PastFatesGrow(w.past, w.fates, told);
    FoldKeepsSpace(w.box, w.space, Trusted(w), start, n, f.box, from', settled);
  }

  /** The reply to an old batch, when it does not strike. */
  lemma OldAnswerKeeps(w: World, f: Folded, told: Fates, tally: Tally)
    requires Inv(w) && w.outdated && f.box.first == w.box.first && f.box.recs == w.box.recs
    requires w.fates.store <= told.store && w.fates.named <= told.named && w.fates.condemned <= told.condemned
    ensures Inv(Answered(w, f, told, {}, {}, tally))
  {
    FatesGrow(w.space, w.fates, told);
    PastFatesGrow(w.past, w.fates, told);
    assert w.space.settled + {} == w.space.settled;
  }

  /** What a fold does to the log does not depend on the cursor. */
  lemma FoldIgnoresTheCursor(size: Sizer, limits: Limits, b: Box, u: Up, from: nat, rs: seq<Record>, resp: Response, io: TruncateWeather)
    requires from <= u.readFrom
    ensures var f, g := FoldUp(size, limits, b, u, rs, resp, io), FoldUp(size, limits, b, u.(readFrom := from), rs, resp, io);
            f.box == g.box && f.up.readFrom == if g.up.readFrom > u.readFrom then g.up.readFrom else u.readFrom
  {
  }

  /** The fold takes records from the log exactly if its eviction is due and
      succeeds, and the boundary lies in the live log. */
  lemma FoldStrikes(size: Sizer, limits: Limits, b: Box, u: Up, rs: seq<Record>, resp: Response, io: TruncateWeather)
    requires 1 <= b.first
    ensures var f := FoldUp(size, limits, b, u, rs, resp, io);
            (f.box.recs != b.recs || f.box.first != b.first) <==> Strikes(size, limits, b, u, rs, resp, io)
  {
  }

  /** A read passes over live records exactly if its cursor lies in the log
      behind the first of them; a cursor beyond the end reads from the start. */
  lemma ReadSkips(b: Box, cursor: nat)
    requires 1 <= b.first
    ensures StartIndex(b, cursor) > b.first <==> Skips(b, cursor)
  {
  }

  lemma ReplyKeeps(size: Sizer, limits: Limits, w: World, resp: Response, store: set<Entry>, io: TruncateWeather)
    requires Inv(w) && Enabled(w, Reply(resp, store, io)) && Safe(size, limits, w, Reply(resp, store, io))
    ensures Inv(AfterReply(size, limits, w, resp, store, io))
  {
    var rs := w.flight.value;
    var f, told := FoldUp(size, limits, w.box, w.up, rs, resp, io), Told(w.fates, resp, store);
    var tally := Tallied(size, limits, w.box, w.up, rs, resp, io, w.tally);
    if w.outdated {
      FoldStrikes(size, limits, w.box, w.up, rs, resp, io);
      OldAnswerKeeps(w, f, told, tally);
    } else {
      var from, u := Trusted(w), w.up.(readFrom := Trusted(w));
      FoldIgnoresTheCursor(size, limits, w.box, w.up, from, rs, resp, io);
      FoldFacts(size, limits, w.box, u, rs, resp, io);
      PrefixIsSettled(w.box, from, rs, resp);
      NewSettledAreDelivered(w.box, from, rs, w.space, w.fates, resp, store);
      AnsweredKeeps(w, f, rs[0].index, SettledCount(rs, resp), FoldUp(size, limits, w.box, u, rs, resp, io).up.readFrom,
                    told, SettledIndices(rs, resp), ClearedIndices(rs, resp), tally);
    }
  }

  lemma CapKeeps(w: World, over: bool, io: TruncateWeather)
    requires Inv(w) && w.flight.None?
    ensures Inv(AfterCap(w, over, io))
  {
    var b, w' := CapBox(w.box, over, io), AfterCap(w, over, io);
    DropsCarryOver(w.space, w'.space);
    if b.first != w.box.first {
      assert w'.space.drops[|w.space.drops|] == Drop(w.box.first, b.first);
      assert forall i :: w.box.first <= i < b.first ==> w'.space.Dropped(i);
    }
  }

  lemma TornKeeps(b: Box, s: Space, tear: map<nat, nat>, f: Fates)
    requires LogInv(b, s) && SpaceOk(s, b.first) && FatesOk(s, f)
    ensures var s' := s.(hist := Tear(s.base, s.hist, map i | i in tear && i >= b.first :: tear[i]));
            LogInv(b.(recs := Tear(b.first, b.recs, tear)), s') && SpaceOk(s', b.first) && FatesOk(s', f)
  {
    var s' := s.(hist := Tear(s.base, s.hist, map i | i in tear && i >= b.first :: tear[i]));
    DropsCarryOver(s, s');
    forall j | 0 <= j < |b.recs| ensures s'.hist[b.first - s.base..][j] == Tear(b.first, b.recs, tear)[j] {
      assert s.hist[b.first - s.base..][j] == b.recs[j];
    }
  }

  lemma RestartKeeps(w: World, tear: map<nat, nat>, io: OpenWeather)
    requires Inv(w) && Enabled(w, Restart(tear, io))
    ensures Inv(AfterRestart(w, tear, io))
  {
    if Quarantines(io) {
      ClosingKeeps(w);
    } else {
      TornKeeps(w.box, w.space, tear, w.fates);
    }
  }

  lemma FetchedKeeps(w: World, r: ReadOut)
    requires Inv(w) && w.flight.None? && Grows(w.box, r.box, r.moved)
    requires r.records.Some? ==> !r.moved && (r.records.value != [] ==> InFlight(r.box, Trusted(w), r.records.value))
    ensures Inv(Fetched(w, r))
  {
    WriteKeeps(w, r.box, r.moved);
  }

  lemma ReadFetches(size: Sizer, limits: Limits, b: Box, from: nat, io: ReadWeather)
    requires 1 <= b.first
    ensures var r := ReadBox(size, b, limits.entries, limits.bytes, from, io);
            && Grows(b, r.box, r.moved)
            && (r.records.Some? ==> !r.moved && (r.records.value != [] ==> InFlight(r.box, from, r.records.value)))
  {
    var r := ReadBox(size, b, limits.entries, limits.bytes, from, io);
    ReadGrows(size, limits, b, from, io);
    ReadIsNext(size, b, limits.entries, limits.bytes, from, io);
    if r.records.Some? && r.records.value != [] { NextIsInFlight(r.box, from, r.records.value); }
  }

  /** A read that does not skip is a read from the start. */
  lemma FromTheStart(b: Box, cursor: nat, rs: seq<Record>)
    requires InFlight(b, cursor, rs) && !Skips(b, cursor)
    ensures InFlight(b, 0, rs)
  {
    ReadSkips(b, cursor);
    assert StartIndex(b, cursor) == StartIndex(b, 0);
  }

  lemma ReadKeeps(size: Sizer, limits: Limits, w: World, io: ReadWeather)
    requires Inv(w) && Enabled(w, Read(io)) && Safe(size, limits, w, Read(io))
    ensures Inv(Fetched(w, ReadBox(size, w.box, limits.entries, limits.bytes, w.up.readFrom, io)))
  {
    var r := ReadBox(size, w.box, limits.entries, limits.bytes, w.up.readFrom, io);
    ReadFetches(size, limits, w.box, w.up.readFrom, io);
    if w.adrift && r.records.Some? && r.records.value != [] { FromTheStart(r.box, w.up.readFrom, r.records.value); }
    FetchedKeeps(w, r);
  }

  lemma StepKeeps(size: Sizer, limits: Limits, w: World, s: Step)
    requires Inv(w) && Enabled(w, s) && Safe(size, limits, w, s)
    ensures Inv(Apply(size, limits, w, s))
  {
    match s
    case Append(e, ww) =>
      AppendGrows(size, w.box, e, ww);
      WriteKeeps(w, AppendBox(size, w.box, e, ww).box, AppendBox(size, w.box, e, ww).moved);
    case Flush(ww) =>
      FlushGrows(w.box, ww);
      WriteKeeps(w, PublicFlushBox(w.box, ww).box, PublicFlushBox(w.box, ww).moved);
    case Look(io) =>
      var r := ReadBox(size, w.box, limits.entries, limits.bytes, 0, io);
      ReadGrows(size, limits, w.box, 0, io);
      WriteKeeps(w, r.box, r.moved);
    case Read(io) => ReadKeeps(size, limits, w, io);
    case Reply(resp, store, io) => ReplyKeeps(size, limits, w, resp, store, io);
    case NoReply(kept) =>
      FatesGrow(w.space, w.fates, w.fates.(store := kept));
      PastFatesGrow(w.past, w.fates, w.fates.(store := kept));
    case Cap(over, io) => CapKeeps(w, over, io);
    case Restart(tear, io) => RestartKeeps(w, tear, io);
  }

  lemma {:induction false} RunKeeps(size: Sizer, limits: Limits, w: World, steps: seq<Step>)
    requires Inv(w) && Legal(size, limits, w, steps) && AllSafe(size, limits, w, steps)
    ensures Inv(Run(size, limits, w, steps))
    decreases |steps|
  {
    if steps != [] {
      StepKeeps(size, limits, w, steps[0]);
      RunKeeps(size, limits, Apply(size, limits, w, steps[0]), steps[1..]);
    }
  }

  // ---------- the theorems ----------

  /** While no log is reset under its uploader, every step is safe. */
  lemma CalmStepIsSafe(size: Sizer, limits: Limits, w: World, s: Step)
    requires Inv(w) && Enabled(w, s) && !w.stale
    ensures Safe(size, limits, w, s)
  {
  }

  /** In every world that safe steps reach, what has left the log was settled by
      a reply or lies in a recorded cap drop; and but for a cursor that a
      quarantine left adrift, everything live below it is settled and it is at
      most one behind the log's end. */
  lemma EvictionSafety(size: Sizer, limits: Limits, start: World, steps: seq<Step>)
    requires Initial(start) && Legal(size, limits, start, steps) && AllSafe(size, limits, start, steps)
    ensures var w := Run(size, limits, start, steps);
            && (forall i :: w.space.base <= i < w.box.first ==> i in w.space.settled || w.space.Dropped(i))
            && (!w.adrift ==> w.up.readFrom <= w.box.Last() + 1)
            && (!w.adrift ==> forall i :: w.box.first <= i < w.up.readFrom ==> i in w.space.settled)
            && (w.adrift ==> w.stale)
  {
    RunKeeps(size, limits, start, steps);
  }

  /** What a fold takes from the log is settled. */
  lemma FoldTakesSettled(b: Box, s: Space, from: nat, start: nat, n: nat, b': Box, from': nat, settled: set<nat>)
    requires FoldMoves(b, from, start, n, b', from') && BelowCursor(s, b.first, from) && from <= b.Last() + 1
    requires forall i :: start <= i < start + n ==> i in settled
    ensures b.first <= b'.first && b'.first - b.first <= |b.recs| && b'.recs == b.recs[b'.first - b.first..]
    ensures forall i :: b.first <= i < b'.first ==> i in s.settled + settled
  {
  }

  /** One fold, anywhere in such a run. The reply to a batch of the present log
      removes only records that a reply has settled; the reply to an older batch
      removes any record at all exactly if it strikes, and then removes records
      that were neither settled nor dropped. */
  lemma FoldRemovesOnlySettled(size: Sizer, limits: Limits, start: World, steps: seq<Step>, resp: Response, store: set<Entry>, io: TruncateWeather)
    requires Initial(start) && Legal(size, limits, start, steps) && AllSafe(size, limits, start, steps)
    requires Enabled(Run(size, limits, start, steps), Reply(resp, store, io))
    ensures var w := Run(size, limits, start, steps);
            var w' := AfterReply(size, limits, w, resp, store, io);
            if w.outdated then
              && ((w'.box.recs != w.box.recs || w'.box.first != w.box.first)
                  <==> Strikes(size, limits, w.box, w.up, w.flight.value, resp, io))
              && (Strikes(size, limits, w.box, w.up, w.flight.value, resp, io) ==> w.box.first < w'.box.first)
              && forall i: nat :: i !in w'.space.settled && !w'.space.Dropped(i)
            else
              && w.box.first <= w'.box.first
              && w'.box.recs == w.box.recs[w'.box.first - w.box.first..]
              && forall i :: w.box.first <= i < w'.box.first ==> i in w'.space.settled
  {
    RunKeeps(size, limits, start, steps);
    var w := Run(size, limits, start, steps);
    if w.outdated {
      FoldStrikes(size, limits, w.box, w.up, w.flight.value, resp, io);
    } else {
      ReplyTakesSettled(size, limits, w, resp, store, io);
    }
  }

  lemma TakenAreSettled(size: Sizer, limits: Limits, w: World, resp: Response, io: TruncateWeather)
    requires Inv(w) && w.flight.Some? && !w.outdated
    ensures var b := FoldUp(size, limits, w.box, w.up, w.flight.value, resp, io).box;
            && w.box.first <= b.first && b.first - w.box.first <= |w.box.recs|
            && b.recs == w.box.recs[b.first - w.box.first..]
            && forall i :: w.box.first <= i < b.first ==> i in w.space.settled + SettledIndices(w.flight.value, resp)
  {
    var rs, from := w.flight.value, Trusted(w);
    var u := w.up.(readFrom := from);
    FoldIgnoresTheCursor(size, limits, w.box, w.up, from, rs, resp, io);
    FoldFacts(size, limits, w.box, u, rs, resp, io);
    PrefixIsSettled(w.box, from, rs, resp);
    var f := FoldUp(size, limits, w.box, u, rs, resp, io);
    FoldTakesSettled(w.box, w.space, from, rs[0].index, SettledCount(rs, resp), f.box, f.up.readFrom, SettledIndices(rs, resp));
  }

  lemma ReplyTakesSettled(size: Sizer, limits: Limits, w: World, resp: Response, store: set<Entry>, io: TruncateWeather)
    requires Inv(w) && Enabled(w, Reply(resp, store, io)) && !w.outdated
    ensures var w' := AfterReply(size, limits, w, resp, store, io);
            && w.box.first <= w'.box.first && w'.box.first - w.box.first <= |w.box.recs|
            && w'.box.recs == w.box.recs[w'.box.first - w.box.first..]
            && forall i :: w.box.first <= i < w'.box.first ==> i in w'.space.settled
  {
    TakenAreSettled(size, limits, w, resp, io);
  }

  /** The one cap drop an index lies in. */
  ghost predicate DroppedOnce(s: Space, i: nat) {
    exists k :: && 0 <= k < |s.drops| && s.drops[k].lo <= i < s.drops[k].hi
                && forall m :: 0 <= m < |s.drops| && s.drops[m].lo <= i < s.drops[m].hi ==> m == k
  }

  ghost predicate Accounted(s: Space, first: nat, f: Fates, i: nat)
    requires s.Has(i)
  {
    i >= first || Delivered(f, s.At(i)) || DroppedOnce(s, i)
  }

  ghost predicate AllAccounted(s: Space, first: nat, f: Fates) {
    forall i :: s.Has(i) ==> Accounted(s, first, f, i)
  }

  /** The live part of an index space is what the log holds. */
  ghost predicate LiveInLog(s: Space, b: Box) {
    forall i: nat :: s.Has(i) && i >= b.first ==> i - b.first < |b.recs| && s.At(i) == b.recs[i - b.first]
  }

  ghost predicate Conserved(w: World) {
    && AllAccounted(w.space, w.box.first, w.fates) && LiveInLog(w.space, w.box)
    && forall c :: c in w.past ==> AllAccounted(c.space, c.first, w.fates)
  }

  lemma SpaceIsAccounted(s: Space, first: nat, f: Fates)
    requires SpaceOk(s, first) && FatesOk(s, f)
    ensures AllAccounted(s, first, f)
  {
    forall i: nat | s.Has(i) && s.Dropped(i) ensures DroppedOnce(s, i) { DropIsUnique(s, i); }
    forall i: nat | s.Has(i) ensures Accounted(s, first, f, i) {
      assert i < first ==> i in s.settled || s.Dropped(i);
    }
  }

  lemma DropsAreDisjoint(s: Space, k: nat, m: nat, i: nat)
    requires k < |s.drops| && m < |s.drops|
    requires forall k, m :: 0 <= k < m < |s.drops| ==> s.drops[k].hi <= s.drops[m].lo
    requires s.drops[k].lo <= i < s.drops[k].hi && s.drops[m].lo <= i < s.drops[m].hi
    ensures k == m
  {
  }

  lemma DropIsUnique(s: Space, i: nat)
    requires forall k, m :: 0 <= k < m < |s.drops| ==> s.drops[k].hi <= s.drops[m].lo
    requires s.Dropped(i)
    ensures DroppedOnce(s, i)
  {
    var k :| 0 <= k < |s.drops| && s.drops[k].lo <= i < s.drops[k].hi;
    forall m | 0 <= m < |s.drops| && s.drops[m].lo <= i < s.drops[m].hi ensures m == k {
      DropsAreDisjoint(s, k, m, i);
    }
  }

  lemma InvConserves(w: World)
    requires Inv(w)
    ensures Conserved(w)
  {
    SpaceIsAccounted(w.space, w.box.first, w.fates);
    forall c | c in w.past ensures AllAccounted(c.space, c.first, w.fates) {
      SpaceIsAccounted(c.space, c.first, w.fates);
    }
    forall i: nat | w.space.Has(i) && i >= w.box.first ensures w.space.At(i) == w.box.recs[i - w.box.first] {
      assert w.space.hist[w.box.first - w.space.base..][i - w.box.first] == w.space.At(i);
    }
  }

  /** Conservation. Every record ever written to the log is at all times still in
      the log, or in the manager's store, refused by name, torn, of a command
      whose terminal was refused, or in exactly one cap drop. A record of an
      index space that was quarantined was, if none of these, live when the
      quarantine moved the log aside. */
  lemma DeliveryConservation(size: Sizer, limits: Limits, start: World, steps: seq<Step>)
    requires Initial(start) && Legal(size, limits, start, steps) && AllSafe(size, limits, start, steps)
    ensures Conserved(Run(size, limits, start, steps))
  {
    RunKeeps(size, limits, start, steps);
    InvConserves(Run(size, limits, start, steps));
  }
}
