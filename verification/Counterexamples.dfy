/** Runs that the safety theorems leave out, and why: each lemma gives one
    concrete run in which the claim fails. */
module Counterexamples {
  import opened Envelope
  import opened Outbox
  import opened Fold
  import opened Protocol
  import opened Retention
  import Groups
  import Shards
  import I = Isolation
  import Pace
  import Progress
  import Release

  const ONE: Sizer := (e: Entry) => 1

  const DONE := Entry("a", Result, 1, ResultBody(0, 0, ""))
  const LATE := Entry("b", Progress, 1, ProgressBody(Stdout, ""))

  const CALM := TruncateWeather(true, true, true, true)
  const SUNNY := Weather(Wrote, true, Wrote, true, true)
  const STORM := Weather(Broke(0), true, Broke(0), true, true)
  const CLEAR := ReadWeather(true, SUNNY, true, 0, true)

  function Opened(recs: seq<Payload>): World {
    World(Box(1, recs, true, false, [], 0), Up(0, 0), None,
          Space(1, recs, {}, []), [], Fates({}, {}, {}), {}, 0, false, false, false, Tally(true, 0, false))
  }

  lemma OneRecordRead(p: Payload, from: nat)
    requires from <= 1
    ensures ReadBox(ONE, Opened([p]).box, PRODUCTION.entries, PRODUCTION.bytes, from, CLEAR)
            == ReadOut(Opened([p]).box, Some([RecordOf(1, p)]), false)
  {
    var b := Opened([p]).box;
    assert StartIndex(b, from) == 1 && b.recs[1 - b.first..] == [p];
    assert Scan(ONE, [p], 1, PRODUCTION.entries, PRODUCTION.bytes, false, 0) == Some([RecordOf(1, p)]) by {
      assert [p][1..] == [] && [RecordOf(1, p)] + [] == [RecordOf(1, p)];
    }
  }

  const RESET_RUN := [Read(CLEAR), Append(LATE, SUNNY), Flush(STORM), Flush(SUNNY)]

  /** The log is quarantined while a batch is on its way. The reply to the old
      batch makes the fold evict a record of the fresh log that it never settled. */
  lemma ResetUnderABatchLosesRecords(resp: Response)
    requires resp == Response([Ack("a", 0, 0, true)], [])
    ensures Initial(Opened([Good(DONE)])) && Legal(ONE, PRODUCTION, Opened([Good(DONE)]), RESET_RUN)
    ensures var w := Run(ONE, PRODUCTION, Opened([Good(DONE)]), RESET_RUN);
            && w.outdated && w.flight.Some? && w.box.recs == [Good(LATE)] && !SettlesEntry(resp, LATE)
            && Strikes(ONE, PRODUCTION, w.box, w.up, w.flight.value, resp, CALM)
            && FoldUp(ONE, PRODUCTION, w.box, w.up, w.flight.value, resp, CALM).box.recs == []
  {
    var w0 := Opened([Good(DONE)]);
    OneRecordRead(Good(DONE), 0);
    var w1 := w0.(flight := Some([Record(1, Some(DONE))]), sent := 1);
    assert Apply(ONE, PRODUCTION, w0, RESET_RUN[0]) == w1;
    var w2 := w1.(box := w1.box.(buffered := [LATE], bufferedBytes := 1));
    assert Apply(ONE, PRODUCTION, w1, RESET_RUN[1]) == w2;
    var w3 := Apply(ONE, PRODUCTION, w2, RESET_RUN[2]);
    assert w3.stale && w3.box == Box(1, [], true, false, [LATE], 1);
    var w4 := Apply(ONE, PRODUCTION, w3, RESET_RUN[3]);
    assert w4.box == Box(1, [Good(LATE)], true, false, [], 0);
    var s := RESET_RUN;
    OneMore(w3, s[3], []);
    OneMore(w2, s[2], [s[3]] + []);
    OneMore(w1, s[1], [s[2]] + ([s[3]] + []));
    OneMore(w0, s[0], [s[1]] + ([s[2]] + ([s[3]] + [])));
    assert s == [s[0]] + ([s[1]] + ([s[2]] + ([s[3]] + [])));
    assert LastAck(resp.acks, "b") == None;
    FoldEvictsAll(w4, resp);
  }

  lemma OneMore(w: World, t: Step, rest: seq<Step>)
    requires 1 <= w.box.first && Enabled(w, t) && Legal(ONE, PRODUCTION, Apply(ONE, PRODUCTION, w, t), rest)
    ensures Legal(ONE, PRODUCTION, w, [t] + rest)
    ensures Run(ONE, PRODUCTION, w, [t] + rest) == Run(ONE, PRODUCTION, Apply(ONE, PRODUCTION, w, t), rest)
  {
    assert ([t] + rest)[1..] == rest;
  }

  lemma FoldEvictsAll(w: World, resp: Response)
    requires resp == Response([Ack("a", 0, 0, true)], [])
    requires w.box == Box(1, [Good(LATE)], true, false, [], 0) && w.flight == Some([Record(1, Some(DONE))])
    ensures FoldUp(ONE, PRODUCTION, w.box, w.up, w.flight.value, resp, CALM).box.recs == []
  {
    var rs := w.flight.value;
    assert LastAck(resp.acks, "a") == Some(resp.acks[0]);
    assert Acked(resp, DONE);
    assert SettledCount(rs, resp) == 1;
    assert IsTerminal(rs[..1][0]);
  }

  const STEP_A := Entry("a", Progress, 1, ProgressBody(Stdout, ""))
  const DONE_B := Entry("b", Result, 1, ResultBody(0, 1, ""))
  const ACK_A := Response([Ack("a", 1, 0, false)], [])

  const FRESH_LOG := [Append(LATE, SUNNY), Flush(STORM), Append(DONE_B, SUNNY), Flush(SUNNY)]
  const SKIP_RUN := [Read(CLEAR)] + ([Reply(ACK_A, {STEP_A}, CALM)] + FRESH_LOG)

  lemma FreshLogUnderACursor(w: World)
    requires w.box == Box(1, [Good(STEP_A)], true, false, [], 0) && w.flight.None?
    ensures Legal(ONE, PRODUCTION, w, FRESH_LOG)
    ensures var w' := Run(ONE, PRODUCTION, w, FRESH_LOG);
            w'.adrift && w'.flight.None? && w'.box == Box(1, [Good(LATE), Good(DONE_B)], true, false, [], 0) && w'.up == w.up
  {
    var s := FRESH_LOG;
    var w1 := Apply(ONE, PRODUCTION, w, s[0]);
    assert w1.box == Box(1, [Good(STEP_A)], true, false, [LATE], 1);
    var w2 := Apply(ONE, PRODUCTION, w1, s[1]);
    assert w2.adrift && w2.box == Box(1, [], true, false, [LATE], 1);
    var w3 := Apply(ONE, PRODUCTION, w2, s[2]);
    assert w3.box == Box(1, [], true, false, [LATE, DONE_B], 2);
    var w4 := Apply(ONE, PRODUCTION, w3, s[3]);
    assert w4.box == Box(1, [Good(LATE), Good(DONE_B)], true, false, [], 0);
    OneMore(w3, s[3], []);
    OneMore(w2, s[2], [s[3]] + []);
    OneMore(w1, s[1], [s[2]] + ([s[3]] + []));
    OneMore(w, s[0], [s[1]] + ([s[2]] + ([s[3]] + [])));
    assert s == [s[0]] + ([s[1]] + ([s[2]] + ([s[3]] + [])));
  }

  /** With no batch on its way: the cursor that the quarantine left behind points
      into the fresh log. The next read passes over a record nobody settled, and
      the reply to it evicts that record. */
  lemma StaleCursorSkipsRecords(resp: Response)
    requires resp == Response([Ack("b", 0, 0, true)], [])
    ensures Initial(Opened([Good(STEP_A)])) && Legal(ONE, PRODUCTION, Opened([Good(STEP_A)]), SKIP_RUN)
    ensures var w := Run(ONE, PRODUCTION, Opened([Good(STEP_A)]), SKIP_RUN);
            && w.adrift && w.flight.None? && w.box.recs == [Good(LATE), Good(DONE_B)] && Skips(w.box, w.up.readFrom)
            && ReadBox(ONE, w.box, PRODUCTION.entries, PRODUCTION.bytes, w.up.readFrom, CLEAR)
               == ReadOut(w.box, Some([Record(2, Some(DONE_B))]), false)
            && !SettlesEntry(resp, LATE)
            && FoldUp(ONE, PRODUCTION, w.box, w.up, [Record(2, Some(DONE_B))], resp, CALM).box.recs == []
  {
    var w0 := Opened([Good(STEP_A)]);
    OneRecordRead(Good(STEP_A), 0);
    var w1 := w0.(flight := Some([Record(1, Some(STEP_A))]), sent := 1);
    assert Apply(ONE, PRODUCTION, w0, Read(CLEAR)) == w1;
    AckMovesTheCursor(w1);
    var w2 := Apply(ONE, PRODUCTION, w1, Reply(ACK_A, {STEP_A}, CALM));
    FreshLogUnderACursor(w2);
    OneMore(w1, Reply(ACK_A, {STEP_A}, CALM), FRESH_LOG);
    OneMore(w0, Read(CLEAR), [Reply(ACK_A, {STEP_A}, CALM)] + FRESH_LOG);
    var w := Run(ONE, PRODUCTION, w2, FRESH_LOG);
    SkippingRead(w.box);
    SkippingFold(w.box, w.up, resp);
  }

  lemma AckMovesTheCursor(w: World)
    requires w.box == Box(1, [Good(STEP_A)], true, false, [], 0) && w.up == Up(0, 0)
    requires w.flight == Some([Record(1, Some(STEP_A))]) && !w.outdated && w.fates == Fates({}, {}, {})
    ensures Enabled(w, Reply(ACK_A, {STEP_A}, CALM))
    ensures var w' := Apply(ONE, PRODUCTION, w, Reply(ACK_A, {STEP_A}, CALM));
            w'.box == w.box && w'.up == Up(2, 1) && w'.flight == None
  {
    var rs := w.flight.value;
    assert LastAck(ACK_A.acks, "a") == Some(ACK_A.acks[0]) && Acked(ACK_A, STEP_A);
    assert SettledCount(rs, ACK_A) == 1 && rs[..1] == rs && !IsTerminal(rs[0]);
    assert rs[..0] == [] && SettledBytes(ONE, rs) == 1;
    assert !DueByTerminal(rs, ACK_A);
  }

  lemma SkippingRead(b: Box)
    requires b == Box(1, [Good(LATE), Good(DONE_B)], true, false, [], 0)
    ensures ReadBox(ONE, b, PRODUCTION.entries, PRODUCTION.bytes, 2, CLEAR) == ReadOut(b, Some([Record(2, Some(DONE_B))]), false)
  {
    var rest := [Good(DONE_B)];
    assert StartIndex(b, 2) == 2 && b.recs[2 - b.first..] == rest;
    assert Scan(ONE, rest, 2, PRODUCTION.entries, PRODUCTION.bytes, false, 0) == Some([RecordOf(2, rest[0])]) by {
      assert rest[1..] == [] && [RecordOf(2, rest[0])] + [] == [RecordOf(2, rest[0])];
    }
  }

  lemma SkippingFold(b: Box, u: Up, resp: Response)
    requires b == Box(1, [Good(LATE), Good(DONE_B)], true, false, [], 0) && resp == Response([Ack("b", 0, 0, true)], [])
    ensures FoldUp(ONE, PRODUCTION, b, u, [Record(2, Some(DONE_B))], resp, CALM).box.recs == []
    ensures !SettlesEntry(resp, LATE)
  {
    var rs := [Record(2, Some(DONE_B))];
    assert LastAck(resp.acks, "b") == Some(resp.acks[0]) && Acked(resp, DONE_B);
    assert SettledCount(rs, resp) == 1 && IsTerminal(rs[..1][0]);
  }

  /** A truncation that fails after a settled terminal: the cursor passes the
      records, they stay in the log, and the accumulator never hears of them. */
  lemma FailedTruncationIsNotCounted(resp: Response)
    requires resp == Response([Ack("a", 0, 0, true)], [])
    ensures var w := Opened([Good(DONE)]);
            var f := FoldUp(ONE, PRODUCTION, w.box, w.up, [Record(1, Some(DONE))], resp, CALM.(truncates := false));
            && f.box.recs == [Good(DONE)] && f.up == Up(2, 0)
            && SettledBytes(ONE, Pace.Behind(f.box, f.up.readFrom)) == 1
  {
    var rs := [Record(1, Some(DONE))];
    assert LastAck(resp.acks, "a") == Some(resp.acks[0]) && Acked(resp, DONE);
    assert SettledCount(rs, resp) == 1 && rs[..1] == rs && IsTerminal(rs[0]);
    var b := Opened([Good(DONE)]).box;
    assert Pace.Behind(b, 2) == rs;
    assert rs[..0] == [] && SettledBytes(ONE, rs) == 1;
  }

  lemma TwoRecordsRead(p: Payload, q: Payload, from: nat)
    requires from <= 1 && PayloadSize(ONE, p) == PayloadSize(ONE, q) == 1
    ensures var b := Opened([p, q]).box;
            ReadBox(ONE, b, PRODUCTION.entries, PRODUCTION.bytes, from, CLEAR) == ReadOut(b, Some([RecordOf(1, p), RecordOf(2, q)]), false)
  {
    var b, recs := Opened([p, q]).box, [p, q];
    assert StartIndex(b, from) == 1 && b.recs[1 - b.first..] == recs;
    assert recs[1..] == [q] && [q][1..] == [];
    assert Scan(ONE, [q], 2, PRODUCTION.entries - 1, PRODUCTION.bytes - 1, true, 0) == Some([RecordOf(2, q)]) by {
      assert [RecordOf(2, q)] + [] == [RecordOf(2, q)];
    }
    assert [RecordOf(1, p)] + [RecordOf(2, q)] == [RecordOf(1, p), RecordOf(2, q)];
  }

  /** A reply that settles the second record and not the first: the cursor stays,
      and the next read sends the settled one again. */
  lemma SettledRecordIsSentAgain(resp: Response)
    requires resp == Response([Ack("a", 0, 0, true)], [])
    ensures var b, rs := Opened([Good(STEP_A), Good(DONE)]).box, [Record(1, Some(STEP_A)), Record(2, Some(DONE))];
            var f := FoldUp(ONE, PRODUCTION, b, Up(0, 0), rs, resp, CALM);
            && Settles(resp, rs[1]) && f == Folded(b, Up(0, 0))
            && ReadBox(ONE, f.box, PRODUCTION.entries, PRODUCTION.bytes, f.up.readFrom, CLEAR) == ReadOut(b, Some(rs), false)
  {
    var rs := [Record(1, Some(STEP_A)), Record(2, Some(DONE))];
    assert LastAck(resp.acks, "a") == Some(resp.acks[0]);
    assert Acked(resp, DONE) && !Acked(resp, STEP_A) && SettledCount(rs, resp) == 0;
    TwoRecordsRead(Good(STEP_A), Good(DONE), 0);
  }

  // ---------- the turn-start barrier ----------

  lemma TornRecordFillsTheShard(e: Entry)
    ensures var b := Opened([Torn(PRODUCTION.bytes), Good(e)]).box;
            ReadBox(ONE, b, PRODUCTION.entries, PRODUCTION.bytes, 0, CLEAR) == ReadOut(b, Some([Record(1, None)]), false)
  {
    var recs := [Torn(PRODUCTION.bytes), Good(e)];
    var b := Opened(recs).box;
    assert StartIndex(b, 0) == 1 && b.recs[StartIndex(b, 0) - b.first..] == recs;
    assert Scan(ONE, recs, 1, PRODUCTION.entries, PRODUCTION.bytes, false, 0) == Some([RecordOf(1, recs[0])]);
  }

  lemma NothingReadable(r: Record, c: string)
    requires r.entry.None?
    ensures !Groups.BlockedFor([r], c) && Groups.ListsOrphans([], Groups.GroupsOf([r], Some(c)))
  {
    Groups.GroupsOfMore([], r, Some(c));
    assert [] + [r] == [r];
    assert Groups.EntrySet([r]) == {};
  }

  /** A barrier whose shard is one torn record passes. */
  lemma TornShardPasses(b: Box, c: string)
    requires 1 <= b.first
    requires ReadBox(ONE, b, PRODUCTION.entries, PRODUCTION.bytes, 0, CLEAR) == ReadOut(b, Some([Record(1, None)]), false)
    ensures var s := I.Barrier(c, CLEAR, [], k => SUNNY);
            && I.Enabled(ONE, PRODUCTION, I.Agent(b, None), s)
            && I.Apply(ONE, PRODUCTION, I.Agent(b, None), s) == I.Agent(b, Some(c))
  {
    NothingReadable(Record(1, None), c);
  }

  /** A torn record that fills the shard hides the log from the barrier: a turn
      starts over another command's record. */
  lemma TornRecordHidesTheLog(e: Entry, c: string)
    requires e.command != c
    ensures var a := I.Agent(Opened([Torn(PRODUCTION.bytes), Good(e)]).box, None);
            var s := I.Barrier(c, CLEAR, [], k => SUNNY);
            && I.Enabled(ONE, PRODUCTION, a, s)
            && I.Apply(ONE, PRODUCTION, a, s).turn == Some(c)
            && e in Stored(I.Apply(ONE, PRODUCTION, a, s).box)
  {
    var b := Opened([Torn(PRODUCTION.bytes), Good(e)]).box;
    TornRecordFillsTheShard(e);
    TornShardPasses(b, c);
    assert b.recs[1] in b.recs;
  }

  /** When the barrier fails with its context alive, the failed turn's terminal
      is appended beside the other command's records. */
  lemma BarrierFaultMixesCommands(size: Sizer, b: Box, e: Entry, c: string, w: Weather)
    requires 1 <= b.first && !b.closed && e in Stored(b) && e.command != c
    ensures var r := AppendBox(size, b, I.FaultTerminal(c), w);
            !r.moved ==> !I.SameCommand(Stored(r.box))
  {
    I.FaultKeepsOneCommand(size, b, c, w);
  }

  /** A batch that settles a whole log, and a truncation that fails: no round of
      any other command's barrier passes, whatever the manager and the disk do
      from then on, and the log stays; the wait ends only with an outbox fault. */
  lemma FailedTruncationBlocksTheBarrier(resp: Response, c: string, env: nat -> Release.Beat, k: nat)
    requires resp == Response([Ack("a", 0, 0, true)], []) && c != "a"
    ensures var w := Opened([Good(DONE)]);
            var f := FoldUp(ONE, PRODUCTION, w.box, w.up, [Record(1, Some(DONE))], resp, CALM.(truncates := false));
            && 1 <= f.box.first
            && match Release.WaitFor(ONE, PRODUCTION, f.box, f.up, c, env, 0, k)
               case Clear => false
               case Failed(box) => box.recs == [Good(DONE)]
               case StillBlocked(g) => g.box.recs == [Good(DONE)] && g.up == f.up
  {
    FailedTruncationIsNotCounted(resp);
    var w := Opened([Good(DONE)]);
    var f := FoldUp(ONE, PRODUCTION, w.box, w.up, [Record(1, Some(DONE))], resp, CALM.(truncates := false));
    assert f.box.first == 1 && f.box.buffered == [];
    assert Shards.Within(ONE, f.box.recs, 0, PRODUCTION.entries, PRODUCTION.bytes, false) && Release.IsEnd(f.box.recs[0]);
    Release.StuckForever(ONE, PRODUCTION, f.box, f.up, c, "a", env, 0, k);
  }

  /** A progress record that fills a shard. */
  const BULKY: Sizer := (e: Entry) => if e.kind == Progress then PRODUCTION.bytes else 1

  /** With the whole log behind the cursor as well, but the group's terminal
      beyond the first shard: each round adds a terminal, and the cycles free the
      barrier. */
  lemma HiddenTerminalFreesTheBarrier(c: string, env: nat -> Release.Beat)
    requires c != "a" && Release.SoundWorld(env)
    ensures var b, u := Opened([Good(STEP_A), Good(DONE)]).box, Up(3, 0);
            && Progress.EndsInTerminal(b) && Progress.Ahead(b, u) == 0
            && Release.WaitFor(BULKY, PRODUCTION, b, u, c, env, 0, 6) == Release.Clear
  {
    var b, u := Opened([Good(STEP_A), Good(DONE)]).box, Up(3, 0);
    var ps := Progress.Whole(b);
    assert ps == [Good(STEP_A), Good(DONE)];
    assert Shards.Bytes(BULKY, ps[..1]) == PRODUCTION.bytes by {
      assert ps[..1] == [Good(STEP_A)] && [Good(STEP_A)][1..] == [];
    }
    assert !Shards.Within(BULKY, ps, 1, PRODUCTION.entries, PRODUCTION.bytes, false);
    assert Release.FrontOpen(BULKY, PRODUCTION, ps);
    Release.WaitEndsWithTheCursor(BULKY, PRODUCTION, b, u, c, "a", env);
  }
}
