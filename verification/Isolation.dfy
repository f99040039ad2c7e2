/** The turn-start barrier over whole runs: the outbox never mixes the records of
    two commands. */
module Isolation {
  import opened Envelope
  import opened Outbox
  import opened Shards
  import opened Groups
  import opened Retention
  import opened Recovery
  import opened Fold
  import opened Uploader
  import opened Progress

  /** An agent between and during turns; `turn` is the command that runs. */
  datatype Agent = Agent(box: Box, turn: Option<string>)

  datatype Step =
    | Barrier(command: string, io: ReadWeather, os: seq<Orphan>, w: nat -> Weather)  // one round; passes when not blocked
    | Record(e: Entry, rw: Weather)                                                // the turn appends
    | EndTurn
    | Flush(fw: Weather)
    | Look(lw: ReadWeather)                                                        // an uploader's read
    | Drop(n: nat)                                                                 // an eviction or a cap drop
    | Crash                                                                        // and a new process
    | SelfCheck(found: seq<Orphan>, message: string, sw: nat -> Weather)
    | Fault(turn: string, aw: Weather)                                             // a barrier error fails the turn

  /** The terminal of a turn that failed at the barrier. */
  function FaultTerminal(command: string): Entry {
    Entry(command, Result, 1, ResultBody(-1, 0, "outbox barrier failed before the turn"))
  }

  /** A turn appends only its own records; the barrier and the self-check run
      between turns, and a barrier whose scan failed does not go on: its turn
      fails, here only where that is harmless (see FaultKeepsOneCommand). */
  ghost predicate Enabled(size: Sizer, limits: Limits, a: Agent, s: Step)
    requires 1 <= a.box.first
  {
    match s
    case Barrier(c, io, os, _) =>
      var r := ReadBox(size, a.box, limits.entries, limits.bytes, 0, io);
      a.turn.None? && r.records.Some? && ListsOrphans(os, GroupsOf(r.records.value, Some(c)))
    case Record(e, _) => a.turn == Some(e.command)
    case SelfCheck(found, _, _) =>
      a.turn.None? && a.box.buffered == [] && ListsOrphans(found, GroupsOf(Listing(a.box.recs, a.box.first), None))
    case Fault(c, _) => a.turn.None? && OnlyOf(Stored(a.box), c)
    case _ => true
  }

  ghost function Apply(size: Sizer, limits: Limits, a: Agent, s: Step): Agent
    requires 1 <= a.box.first && Enabled(size, limits, a, s)
  {
    match s
    case Barrier(c, io, os, w) =>
      var r := ReadBox(size, a.box, limits.entries, limits.bytes, 0, io);
      if BlockedFor(r.records.value, c) then Agent(AppendEach(size, r.box, Terminals(os, AGENT_STOPPED), w, 0).box, None)
      else Agent(r.box, Some(c))
    case Record(e, w) => a.(box := AppendBox(size, a.box, e, w).box)
    case EndTurn => a.(turn := None)
    case Flush(w) => a.(box := PublicFlushBox(a.box, w).box)
    case Look(io) => a.(box := ReadBox(size, a.box, limits.entries, limits.bytes, 0, io).box)
    case Drop(n) =>
      var k := if n <= |a.box.recs| then n else |a.box.recs|;
      a.(box := Truncated(a.box, a.box.first + k - 1))
    case Crash => Agent(a.box.(buffered := [], bufferedBytes := 0, open := true, closed := false), None)
    case SelfCheck(found, message, w) => a.(box := AppendEach(size, a.box, Terminals(found, message), w, 0).box)
    case Fault(c, w) => a.(box := AppendBox(size, a.box, FaultTerminal(c), w).box)
  }

  // ---------- the invariant ----------

  predicate NoTorn(b: Box) {
    forall p :: p in b.recs ==> p.Good?
  }

  ghost predicate SameCommand(es: set<Entry>) {
    forall e, f :: e in es && f in es ==> e.command == f.command
  }

  ghost predicate OnlyOf(es: set<Entry>, command: string) {
    forall e :: e in es ==> e.command == command
  }

  ghost predicate Isolated(a: Agent) {
    && 1 <= a.box.first && NoTorn(a.box) && SameCommand(Stored(a.box))
    && (a.turn.Some? ==> OnlyOf(Stored(a.box), a.turn.value))
  }

  /** Whatever the disk does, an operation adds nothing to what is held but the
      entries it was given. */
  ghost predicate AddsAtMost(b: Box, b': Box, more: set<Entry>) {
    1 <= b'.first && Stored(b') <= Stored(b) + more && (NoTorn(b) ==> NoTorn(b'))
  }

  lemma FlushAdds(b: Box, w: Weather)
    requires 1 <= b.first
    ensures AddsAtMost(b, FlushBox(b, w).box, {})
  {
    FlushKeepsEntries(b, w);
    if b.buffered != [] && !FlushBox(b, w).moved { BurstIsWritten(b, b.buffered, w); }
  }

  lemma AppendAdds(size: Sizer, b: Box, e: Entry, w: Weather)
    requires 1 <= b.first
    ensures AddsAtMost(b, AppendBox(size, b, e, w).box, {e})
  {
    var b' := Buffering(size, b, e);
    assert Stored(b') == Stored(b) + {e};
    FlushAdds(b', w);
  }

  lemma {:induction false} AppendEachAdds(size: Sizer, b: Box, es: seq<Entry>, w: nat -> Weather, k: nat)
    requires 1 <= b.first
    ensures AddsAtMost(b, AppendEach(size, b, es, w, k).box, Members(es))
    decreases |es|
  {
    if es != [] {
      AppendAdds(size, b, es[0], w(k));
      assert Members(es) == {es[0]} + Members(es[1..]);
      var r := AppendBox(size, b, es[0], w(k));
      if r.ok { AppendEachAdds(size, r.box, es[1..], w, k + 1); }
    }
  }

  lemma ReadAdds(size: Sizer, limits: Limits, b: Box, io: ReadWeather)
    requires 1 <= b.first
    ensures AddsAtMost(b, ReadBox(size, b, limits.entries, limits.bytes, 0, io).box, {})
  {
    FlushAdds(b.(open := true), io.flush);
  }

  // ---------- the one-shard scan ----------

  /** For any log, torn records and mixed commands included: the barrier is
      blocked exactly if a readable record of another command lies within the
      caps of one read from the log's front. */
  lemma RoundSeesTheFront(size: Sizer, limits: Limits, b: Box, c: string, io: ReadWeather)
    requires 1 <= b.first
    requires ReadBox(size, b, limits.entries, limits.bytes, 0, io).records.Some?
    ensures var r := ReadBox(size, b, limits.entries, limits.bytes, 0, io);
            BlockedFor(r.records.value, c) <==>
              exists j :: 0 <= j < |r.box.recs| && Within(size, r.box.recs, j, limits.entries, limits.bytes, false)
                          && r.box.recs[j].Good? && r.box.recs[j].entry.command != c
  {
    var r := ReadBox(size, b, limits.entries, limits.bytes, 0, io);
    var rs, recs := r.records.value, r.box.recs;
    FrontRead(size, limits, b, io);
    if BlockedFor(rs, c) {
      var d :| Holds(EntrySet(rs), d) && d != c;
      var e :| e in EntrySet(rs) && e.command == d;
      var j :| 0 <= j < |rs| && rs[j].entry == Some(e);
      assert Within(size, recs, j, limits.entries, limits.bytes, false) && recs[j].Good? && recs[j].entry.command != c;
    }
    if j: nat :| j < |recs| && Within(size, recs, j, limits.entries, limits.bytes, false) && recs[j].Good? && recs[j].entry.command != c {
      assert rs[j] in rs && recs[j].entry in EntrySet(rs);
      assert Holds(EntrySet(rs), recs[j].entry.command);
    }
  }

  lemma FrontRead(size: Sizer, limits: Limits, b: Box, io: ReadWeather)
    requires 1 <= b.first
    requires ReadBox(size, b, limits.entries, limits.bytes, 0, io).records.Some?
    ensures var r := ReadBox(size, b, limits.entries, limits.bytes, 0, io);
            && |r.records.value| <= |r.box.recs| && r.records.value == Listing(r.box.recs, r.box.first)[..|r.records.value|]
            && forall j: nat :: j < |r.box.recs| ==>
                 (j < |r.records.value| <==> Within(size, r.box.recs, j, limits.entries, limits.bytes, false))
  {
    var r := ReadBox(size, b, limits.entries, limits.bytes, 0, io);
    ReadKeepsEntries(size, b, limits.entries, limits.bytes, 0, io);
    ReadIsNext(size, b, limits.entries, limits.bytes, 0, io);
    assert StartIndex(r.box, 0) == r.box.first && r.box.recs[0..] == r.box.recs;
    forall j: nat | j < |r.box.recs|
      ensures j < |r.records.value| <==> Within(size, r.box.recs, j, limits.entries, limits.bytes, false)
    {
      ScanReaches(size, r.box.recs, r.box.first, limits.entries, limits.bytes, false, io.bad, j);
    }
  }

  /** How many torn records lie in front of the first readable one. */
  function TornFront(recs: seq<Payload>): (n: nat)
    ensures n <= |recs| && (forall i :: 0 <= i < n ==> recs[i].Torn?) && (n < |recs| ==> recs[n].Good?)
  {
    if recs == [] || recs[0].Good? then 0 else 1 + TornFront(recs[1..])
  }

  lemma OneCommandsLog(recs: seq<Payload>, c: string)
    requires SameCommand(LogEntries(recs))
    ensures forall j :: 0 <= j < |recs| && recs[j].Good? ==> (recs[j].entry.command == c <==> OnlyOf(LogEntries(recs), c))
    ensures !OnlyOf(LogEntries(recs), c) ==> TornFront(recs) < |recs|
  {
    forall j | 0 <= j < |recs| && recs[j].Good? ensures recs[j].entry.command == c <==> OnlyOf(LogEntries(recs), c) {
      assert recs[j] in recs && recs[j].entry in LogEntries(recs);
    }
    if !OnlyOf(LogEntries(recs), c) {
      var e :| e in LogEntries(recs) && e.command != c;
      var p :| p in recs && p == Good(e);
    }
  }

  /** So, where the outbox holds one command's records, the barrier for another
      is blocked exactly if the torn records in front of the first readable one
      leave room for it in the shard. */
  lemma TornShardsHideTheLog(size: Sizer, limits: Limits, b: Box, c: string, io: ReadWeather)
    requires 1 <= b.first && SameCommand(Stored(b)) && !OnlyOf(Stored(b), c)
    requires ReadBox(size, b, limits.entries, limits.bytes, 0, io).records.Some?
    ensures var r := ReadBox(size, b, limits.entries, limits.bytes, 0, io); var t := TornFront(r.box.recs);
            t < |r.box.recs| && (BlockedFor(r.records.value, c) <==> Within(size, r.box.recs, t, limits.entries, limits.bytes, false))
  {
    var r := ReadBox(size, b, limits.entries, limits.bytes, 0, io);
    ReadKeepsEntries(size, b, limits.entries, limits.bytes, 0, io);
    assert Stored(r.box) == LogEntries(r.box.recs);
    OneCommandsLog(r.box.recs, c);
    RoundSeesTheFront(size, limits, b, c, io);
    FrontRead(size, limits, b, io);
  }

  /** And without torn records its one shard decides the whole log: blocked means
      that some record anywhere is of another command. */
  lemma ScanDecidesTheLog(size: Sizer, limits: Limits, b: Box, c: string, io: ReadWeather)
    requires 1 <= b.first && 1 <= limits.entries && NoTorn(b) && SameCommand(Stored(b))
    requires ReadBox(size, b, limits.entries, limits.bytes, 0, io).records.Some?
    ensures var r := ReadBox(size, b, limits.entries, limits.bytes, 0, io);
            && EntrySet(r.records.value) <= Stored(b)
            && (BlockedFor(r.records.value, c) <==> !OnlyOf(Stored(b), c))
  {
    var r := ReadBox(size, b, limits.entries, limits.bytes, 0, io);
    ReadKeepsEntries(size, b, limits.entries, limits.bytes, 0, io);
    assert Stored(r.box) == LogEntries(r.box.recs);
    FrontRead(size, limits, b, io);
    ShardIsStored(r.box, r.records.value);
    ReadAdds(size, limits, b, io);
    OneCommandsLog(r.box.recs, c);
    RoundSeesTheFront(size, limits, b, c, io);
    if r.box.recs != [] { assert r.box.recs[0] in r.box.recs; }
  }

  lemma ShardIsStored(b: Box, rs: seq<Record>)
    requires |rs| <= |b.recs| && rs == Listing(b.recs, b.first)[..|rs|]
    ensures EntrySet(rs) <= Stored(b)
  {
    ListingEntries(b.recs, b.first);
    assert forall r :: r in rs ==> r in Listing(b.recs, b.first);
  }

  // ---------- every step keeps the invariant ----------

  lemma TerminalsAreAlike(es: set<Entry>, os: seq<Orphan>, message: string)
    requires SameCommand(es) && forall o :: o in os ==> Holds(es, o.command)
    ensures SameCommand(es + Members(Terminals(os, message)))
  {
    forall t | t in Terminals(os, message) ensures exists e :: e in es && e.command == t.command {
      var i :| 0 <= i < |os| && Terminals(os, message)[i] == t;
      assert os[i] in os;
    }
  }

  lemma BarrierKeeps(size: Sizer, limits: Limits, a: Agent, c: string, io: ReadWeather, os: seq<Orphan>, w: nat -> Weather)
    requires Isolated(a) && 1 <= limits.entries && Enabled(size, limits, a, Barrier(c, io, os, w))
    ensures Isolated(Apply(size, limits, a, Barrier(c, io, os, w)))
  {
    var r := ReadBox(size, a.box, limits.entries, limits.bytes, 0, io);
    ScanDecidesTheLog(size, limits, a.box, c, io);
    ReadAdds(size, limits, a.box, io);
    if BlockedFor(r.records.value, c) {
      ReadKeepsEntries(size, a.box, limits.entries, limits.bytes, 0, io);
      forall o | o in os ensures Holds(Stored(r.box), o.command) {
        ListedOrphans(os, r.records.value, Some(c), o);
      }
      TerminalsAreAlike(Stored(r.box), os, AGENT_STOPPED);
      AppendEachAdds(size, r.box, Terminals(os, AGENT_STOPPED), w, 0);
    }
  }

  lemma SelfCheckKeeps(size: Sizer, limits: Limits, a: Agent, found: seq<Orphan>, message: string, w: nat -> Weather)
    requires Isolated(a) && Enabled(size, limits, a, SelfCheck(found, message, w))
    ensures Isolated(Apply(size, limits, a, SelfCheck(found, message, w)))
  {
    ListingEntries(a.box.recs, a.box.first);
    forall o | o in found ensures Holds(Stored(a.box), o.command) {
      ListedOrphans(found, Listing(a.box.recs, a.box.first), None, o);
    }
    TerminalsAreAlike(Stored(a.box), found, message);
    AppendEachAdds(size, a.box, Terminals(found, message), w, 0);
  }

  lemma StepKeepsIsolation(size: Sizer, limits: Limits, a: Agent, s: Step)
    requires Isolated(a) && 1 <= limits.entries && Enabled(size, limits, a, s)
    ensures Isolated(Apply(size, limits, a, s))
  {
    match s
    case Barrier(c, io, os, w) => BarrierKeeps(size, limits, a, c, io, os, w);
    case Record(e, w) => AppendAdds(size, a.box, e, w);
    case EndTurn =>
    case Flush(w) => if !a.box.closed { FlushAdds(a.box, w); }
    case Look(io) => ReadAdds(size, limits, a.box, io);
    case Drop(n) =>
      assert forall p :: p in Apply(size, limits, a, s).box.recs ==> p in a.box.recs;
    case Crash =>
    case SelfCheck(found, message, w) => SelfCheckKeeps(size, limits, a, found, message, w);
    case Fault(c, w) => AppendAdds(size, a.box, FaultTerminal(c), w);
  }

  /** The terminal of a turn that failed at the barrier leaves the outbox to one
      command exactly if it held that turn's records only; where its write moves
      the directory aside, exactly if no other's were buffered. */
  lemma FaultKeepsOneCommand(size: Sizer, b: Box, c: string, w: Weather)
    requires !b.closed
    ensures var r := AppendBox(size, b, FaultTerminal(c), w);
            SameCommand(Stored(r.box)) <==> OnlyOf(if r.moved then Members(b.buffered) else Stored(b), c)
  {
    AppendKeepsEntries(size, b, FaultTerminal(c), w);
    var b', r := Buffering(size, b, FaultTerminal(c)), AppendBox(size, b, FaultTerminal(c), w);
    FlushKeepsEntries(b', w);
    if r.moved {
      assert Stored(r.box) == Members(b'.buffered) == Members(b.buffered) + {FaultTerminal(c)};
    } else {
      assert FaultTerminal(c) in Stored(r.box);
    }
  }

  ghost predicate Legal(size: Sizer, limits: Limits, a: Agent, steps: seq<Step>)
    decreases |steps|
  {
    && 1 <= a.box.first
    && (steps != [] ==> Enabled(size, limits, a, steps[0]) && Legal(size, limits, Apply(size, limits, a, steps[0]), steps[1..]))
  }

  ghost function Run(size: Sizer, limits: Limits, a: Agent, steps: seq<Step>): Agent
    requires Legal(size, limits, a, steps)
    decreases |steps|
  {
    if steps == [] then a else Run(size, limits, Apply(size, limits, a, steps[0]), steps[1..])
  }

  /** In every state of a run from an isolated outbox, an empty one say, whatever
      the disk does to writes, all records held belong to one command, to the
      running turn's if there is one; so a cap drop loses records of one command
      only. */
  lemma {:induction false} TurnIsolation(size: Sizer, limits: Limits, a: Agent, steps: seq<Step>)
    requires Isolated(a) && 1 <= limits.entries && Legal(size, limits, a, steps)
    ensures var end := Run(size, limits, a, steps);
            && SameCommand(Stored(end.box)) && NoTorn(end.box)
            && (end.turn.Some? ==> OnlyOf(Stored(end.box), end.turn.value))
    decreases |steps|
  {
    if steps != [] {
      StepKeepsIsolation(size, limits, a, steps[0]);
      TurnIsolation(size, limits, Apply(size, limits, a, steps[0]), steps[1..]);
    }
  }

  // ---------- one terminal per dead command ----------

  /** Behind every record of the command its terminal follows. */
  ghost predicate Ended(ps: seq<Payload>, command: string) {
    forall i :: 0 <= i < |ps| && ps[i].Good? && ps[i].entry.command == command ==> EndsAt(ps, i)
  }

  ghost predicate EndsAt(ps: seq<Payload>, i: nat)
    requires i < |ps| && ps[i].Good?
  {
    exists j :: i <= j < |ps| && ps[j].Good? && ps[j].entry.kind == Result && ps[j].entry.command == ps[i].entry.command
  }

  /** Evictions keep it. */
  lemma EndedSurvivesEviction(ps: seq<Payload>, n: nat, command: string)
    requires Ended(ps, command) && n <= |ps|
    ensures Ended(ps[n..], command)
  {
    var qs := ps[n..];
    forall i | 0 <= i < |qs| && qs[i].Good? && qs[i].entry.command == command ensures EndsAt(qs, i) {
      assert EndsAt(ps, n + i);
      var j :| n + i <= j < |ps| && ps[j].Good? && ps[j].entry.kind == Result && ps[j].entry.command == ps[n + i].entry.command;
      assert qs[j - n] == ps[j];
    }
  }

  /** So does a write of the buffer that left a prefix of it in the log first. */
  lemma EndedSurvivesReplay(log: seq<Payload>, buffer: seq<Payload>, k: nat, command: string)
    requires Ended(log + buffer, command) && k <= |buffer|
    ensures Ended(log + buffer[..k] + buffer, command)
  {
    var ps, qs := log + buffer, log + buffer[..k] + buffer;
    forall i | 0 <= i < |qs| && qs[i].Good? && qs[i].entry.command == command ensures EndsAt(qs, i) {
      var i' := if i < |log| + k then i else i - k;
      assert ps[i'] == qs[i];
      ReplayEndsAt(log, buffer, k, i', i);
    }
  }

  lemma ReplayEndsAt(log: seq<Payload>, buffer: seq<Payload>, k: nat, i': nat, i: nat)
    requires k <= |buffer| && i' < |log + buffer| && (log + buffer)[i'].Good? && EndsAt(log + buffer, i')
    requires i' <= i <= i' + k && (i' < |log| ==> i == i')
    requires i < |log + buffer[..k] + buffer| && (log + buffer[..k] + buffer)[i] == (log + buffer)[i']
    ensures EndsAt(log + buffer[..k] + buffer, i)
  {
    var ps, qs := log + buffer, log + buffer[..k] + buffer;
    var j :| i' <= j < |ps| && ps[j].Good? && ps[j].entry.kind == Result && ps[j].entry.command == ps[i'].entry.command;
    var j' := if j < |log| then j else j + k;
    assert qs[j'] == ps[j];
  }

  /** So do two such writes, the second of them perhaps complete. */
  lemma EndedSurvivesBurst(recs: seq<Payload>, buf: seq<Payload>, rest: seq<Payload>, k: nat, m: nat, command: string)
    requires Ended(recs + (buf + rest), command) && k <= |buf| && m <= |buf|
    ensures Ended((recs + buf[..k]) + (buf + rest), command)
    ensures Ended((recs + buf[..k] + buf[..m]) + (buf + rest), command)
  {
    assert buf[..k] == (buf + rest)[..k] && buf[..m] == (buf + rest)[..m];
    EndedSurvivesReplay(recs, buf + rest, k, command);
    EndedSurvivesReplay(recs + buf[..k], buf + rest, m, command);
  }

  /** A write of the buffer, however it fails, keeps it, with what is still to
      be appended behind. */
  lemma FlushKeepsEnded(b: Box, w: Weather, rest: seq<Payload>, command: string)
    requires Ended(Whole(b) + rest, command)
    ensures Ended(Whole(FlushBox(b, w).box) + rest, command)
  {
    if b.buffered != [] {
      var r, buf := FlushBox(b, w), GoodAll(b.buffered);
      var (k, m) := Burst(b, b.buffered, w);
      BurstIsWritten(b, b.buffered, w);
      FlushKeepsEntries(b, w);
      assert Whole(b) + rest == b.recs + (buf + rest);
      if r.moved {
        assert Whole(r.box) + rest == (Whole(b) + rest)[|b.recs|..];
        EndedSurvivesEviction(Whole(b) + rest, |b.recs|, command);
      } else {
        EndedSurvivesBurst(b.recs, buf, rest, k, m, command);
        assert GoodAll(b.buffered[..k]) == buf[..k] && GoodAll(b.buffered[..m]) == buf[..m];
        assert Whole(r.box) + rest == if r.ok then (b.recs + buf[..k]) + (buf + rest) else (b.recs + buf[..k] + buf[..m]) + (buf + rest);
      }
    }
  }

  lemma AppendKeepsEnded(size: Sizer, b: Box, e: Entry, w: Weather, rest: seq<Payload>, command: string)
    requires !b.closed && Ended(Whole(b) + ([Good(e)] + rest), command)
    ensures Ended(Whole(AppendBox(size, b, e, w).box) + rest, command)
  {
    var b' := Buffering(size, b, e);
    assert Whole(b') + rest == Whole(b) + ([Good(e)] + rest);
    FlushKeepsEnded(b', w, rest, command);
  }

  lemma {:induction false} AppendEachKeepsEnded(size: Sizer, b: Box, es: seq<Entry>, w: nat -> Weather, k: nat, command: string)
    requires !b.closed && Ended(Whole(b) + GoodAll(es), command)
    ensures var r := AppendEach(size, b, es, w, k); r.ok ==> Ended(Whole(r.box), command)
    decreases |es|
  {
    if es == [] {
      assert Whole(b) + GoodAll(es) == Whole(b);
    } else {
      assert GoodAll(es) == [Good(es[0])] + GoodAll(es[1..]);
      AppendKeepsEnded(size, b, es[0], w(k), GoodAll(es[1..]), command);
      AppendKeepsEntries(size, b, es[0], w(k));
      var r := AppendBox(size, b, es[0], w(k));
      if r.ok { AppendEachKeepsEnded(size, r.box, es[1..], w, k + 1, command); }
    }
  }

  /** Terminals, of whatever commands, keep it. */
  lemma TerminalsKeepEnded(ps: seq<Payload>, os: seq<Orphan>, message: string, command: string)
    requires Ended(ps, command)
    ensures Ended(ps + GoodAll(Terminals(os, message)), command)
  {
    var qs := ps + GoodAll(Terminals(os, message));
    forall i | 0 <= i < |qs| && qs[i].Good? && qs[i].entry.command == command ensures EndsAt(qs, i) {
      if i < |ps| {
        assert qs[i] == ps[i] && EndsAt(ps, i);
        var j :| i <= j < |ps| && ps[j].Good? && ps[j].entry.kind == Result && ps[j].entry.command == ps[i].entry.command;
        assert qs[j] == ps[j];
      } else {
        assert qs[i] == Good(SyntheticTerminal(os[i - |ps|], message));
      }
    }
  }

  predicate Lists(os: seq<Orphan>, command: string) {
    exists i :: 0 <= i < |os| && os[i].command == command
  }

  /** Where it holds, a scan does not list the command. */
  lemma EndedIsNotListed(recs: seq<Payload>, first: nat, except: string, os: seq<Orphan>, command: string)
    requires Ended(recs, command) && ListsOrphans(os, GroupsOf(Listing(recs, first), Some(except)))
    ensures !Lists(os, command)
  {
    if Lists(os, command) {
      var k :| 0 <= k < |os| && os[k].command == command;
      ListingEntries(recs, first);
      ListedOrphans(os, Listing(recs, first), Some(except), os[k]);
      var e :| e in LogEntries(recs) && e.command == command;
      var i :| 0 <= i < |recs| && recs[i] == Good(e);
      assert EndsAt(recs, i);
      EndsAtHoldsResult(recs, i);
    }
  }

  lemma EndsAtHoldsResult(recs: seq<Payload>, i: nat)
    requires i < |recs| && recs[i].Good? && EndsAt(recs, i)
    ensures HoldsKind(LogEntries(recs), recs[i].entry.command, Result)
  {
    var j :| i <= j < |recs| && recs[j].Good? && recs[j].entry.kind == Result && recs[j].entry.command == recs[i].entry.command;
    assert recs[j] in recs;
  }

  /** A round whose scan saw the whole log ends every group it lists. */
  lemma RoundEndsTheListed(recs: seq<Payload>, first: nat, except: string, os: seq<Orphan>, command: string)
    requires ListsOrphans(os, GroupsOf(Listing(recs, first), Some(except))) && Lists(os, command)
    ensures Ended(recs + GoodAll(Terminals(os, AGENT_STOPPED)), command)
  {
    var ps := recs + GoodAll(Terminals(os, AGENT_STOPPED));
    var k :| 0 <= k < |os| && os[k].command == command;
    assert ps[|recs| + k] == Good(SyntheticTerminal(os[k], AGENT_STOPPED));
    forall i | 0 <= i < |ps| && ps[i].Good? && ps[i].entry.command == command ensures EndsAt(ps, i) {
      if i >= |recs| { assert ps[i] == Good(SyntheticTerminal(os[i - |recs|], AGENT_STOPPED)); }
    }
  }

  /** A readable record of the command, within the caps of one read from the
      log's front. */
  predicate InFront(size: Sizer, limits: Limits, recs: seq<Payload>, j: nat, command: string)
    requires j < |recs|
  {
    Within(size, recs, j, limits.entries, limits.bytes, false) && recs[j].Good? && recs[j].entry.command == command
  }

  lemma FrontEntries(size: Sizer, limits: Limits, recs: seq<Payload>, first: nat, rs: seq<Record>)
    requires |rs| <= |recs| && rs == Listing(recs, first)[..|rs|]
    requires forall j: nat :: j < |recs| ==> (j < |rs| <==> Within(size, recs, j, limits.entries, limits.bytes, false))
    ensures forall j: nat, c :: j < |recs| && InFront(size, limits, recs, j, c) ==> recs[j].entry in EntrySet(rs)
    ensures forall e :: e in EntrySet(rs) ==> exists j: nat :: j < |recs| && InFront(size, limits, recs, j, e.command) && recs[j] == Good(e)
  {
    forall j: nat, c | j < |recs| && InFront(size, limits, recs, j, c) ensures recs[j].entry in EntrySet(rs) {
      assert rs[j] in rs;
    }
    forall e | e in EntrySet(rs) ensures exists j: nat :: j < |recs| && InFront(size, limits, recs, j, e.command) && recs[j] == Good(e) {
      var j :| 0 <= j < |rs| && rs[j].entry == Some(e);
      assert InFront(size, limits, recs, j, e.command);
    }
  }

  /** For any log: a round lists a command, and so appends a terminal for it,
      exactly if the read from the front holds a record of it and no terminal. A
      terminal further back does not keep it from adding one in every round. */
  lemma RoundListsTheHidden(size: Sizer, limits: Limits, b: Box, c: string, io: ReadWeather, os: seq<Orphan>, d: string)
    requires 1 <= b.first && ReadBox(size, b, limits.entries, limits.bytes, 0, io).records.Some?
    requires ListsOrphans(os, GroupsOf(ReadBox(size, b, limits.entries, limits.bytes, 0, io).records.value, Some(c)))
    ensures var recs := ReadBox(size, b, limits.entries, limits.bytes, 0, io).box.recs;
            Lists(os, d) <==>
              && d != c && (exists j: nat :: j < |recs| && InFront(size, limits, recs, j, d))
              && forall j: nat :: j < |recs| && InFront(size, limits, recs, j, d) ==> recs[j].entry.kind != Result
  {
    var r := ReadBox(size, b, limits.entries, limits.bytes, 0, io);
    FrontRead(size, limits, b, io);
    FrontEntries(size, limits, r.box.recs, r.box.first, r.records.value);
    ListsExactly(os, r.records.value, c, d);
  }

  lemma ListsExactly(os: seq<Orphan>, rs: seq<Record>, c: string, d: string)
    requires ListsOrphans(os, GroupsOf(rs, Some(c)))
    ensures Lists(os, d) <==> d != c && Holds(EntrySet(rs), d) && !HoldsKind(EntrySet(rs), d, Result)
  {
    if d != c && Holds(EntrySet(rs), d) && !HoldsKind(EntrySet(rs), d, Result) {
      var n := LastProgressExists(EntrySet(rs), d);
      ListedOrphans(os, rs, Some(c), Orphan(d, n));
      var k :| 0 <= k < |os| && os[k] == Orphan(d, n);
      assert Lists(os, d);
    }
    if k :| 0 <= k < |os| && os[k].command == d {
      ListedOrphans(os, rs, Some(c), os[k]);
    }
  }

  /** The step of a run and the round of the uploader are the same. */
  lemma BarrierIsARound(size: Sizer, limits: Limits, a: Agent, c: string, io: ReadWeather, os: seq<Orphan>, w: nat -> Weather)
    requires 1 <= a.box.first && Enabled(size, limits, a, Barrier(c, io, os, w))
    ensures var r := RoundOn(size, limits, a.box, c, RoundWeather(io, w));
            Apply(size, limits, a, Barrier(c, io, os, w)) == Agent(r.box, if r.Passed? then Some(c) else None)
  {
    OrphansAreThese(os, ReadBox(size, a.box, limits.entries, limits.bytes, 0, io).records.value, Some(c));
  }

  /** Over an outbox with nothing of another command a turn passes the barrier,
      records, and ends. */
  lemma TurnsCanRun(size: Sizer, limits: Limits, a: Agent, c: string, io: ReadWeather, e: Entry, w: Weather, none: nat -> Weather)
    requires Isolated(a) && 1 <= limits.entries && a.turn.None? && OnlyOf(Stored(a.box), c) && e.command == c
    requires ReadBox(size, a.box, limits.entries, limits.bytes, 0, io).records.Some?
    ensures var r := ReadBox(size, a.box, limits.entries, limits.bytes, 0, io);
            var enter := Barrier(c, io, Orphans(r.records.value, Some(c)), none);
            && Enabled(size, limits, a, enter)
            && var b := Apply(size, limits, a, enter);
               && b == Agent(r.box, Some(c)) && 1 <= b.box.first && Enabled(size, limits, b, Step.Record(e, w))
               && var d := Apply(size, limits, b, Step.Record(e, w));
                  d == Agent(AppendBox(size, r.box, e, w).box, Some(c))
                  && 1 <= d.box.first && Enabled(size, limits, d, EndTurn) && Apply(size, limits, d, EndTurn) == d.(turn := None)
  {
    ScanDecidesTheLog(size, limits, a.box, c, io);
    ReadAdds(size, limits, a.box, io);
    var r := ReadBox(size, a.box, limits.entries, limits.bytes, 0, io);
    AppendAdds(size, r.box, e, w);
  }

  /** A turn that fails at the barrier leaves its terminal, unless the outbox is
      closed or its write quarantines the log. */
  lemma FaultLeavesItsTerminal(size: Sizer, limits: Limits, a: Agent, c: string, w: Weather)
    requires 1 <= a.box.first && Enabled(size, limits, a, Fault(c, w)) && !a.box.closed
    ensures !AppendBox(size, a.box, FaultTerminal(c), w).moved ==>
              forall e :: e in Stored(Apply(size, limits, a, Fault(c, w)).box) <==>
                || e in Stored(a.box)
                || (e.command == c && e.kind == Result && e.seqNo == 1
                    && e.body == ResultBody(-1, 0, "outbox barrier failed before the turn"))
  {
    AppendKeepsEntries(size, a.box, FaultTerminal(c), w);
  }

  /** The self-check between turns, when its appends succeed: one terminal more
      for each command that had none. */
  lemma SelfCheckTerminates(size: Sizer, limits: Limits, a: Agent, found: seq<Orphan>, message: string, w: nat -> Weather)
    requires 1 <= a.box.first && Enabled(size, limits, a, SelfCheck(found, message, w)) && !a.box.closed
    ensures AppendEach(size, a.box, Terminals(found, message), w, 0).ok ==>
              Terminated(Stored(a.box), Stored(Apply(size, limits, a, SelfCheck(found, message, w)).box), message)
  {
    AppendEachKeepsEntries(size, a.box, Terminals(found, message), w, 0);
    LogTerminals(a.box, found, message);
    AddedTerminate(Stored(a.box), Terminals(found, message), message);
  }

  /** A flush that succeeds and a read empty the buffer into the log. */
  lemma FlushWritesThrough(size: Sizer, limits: Limits, a: Agent, w: Weather)
    requires 1 <= a.box.first && !a.box.closed && FlushBox(a.box, w).ok
    ensures var f := Apply(size, limits, a, Step.Flush(w)); f.box.buffered == [] && Stored(f.box) == Stored(a.box) && f.turn == a.turn
  {
    FlushKeepsEntries(a.box, w);
  }

  lemma LookWritesThrough(size: Sizer, limits: Limits, a: Agent, io: ReadWeather)
    requires 1 <= a.box.first && ReadBox(size, a.box, limits.entries, limits.bytes, 0, io).records.Some?
    ensures var r := Apply(size, limits, a, Step.Look(io)); r.box.buffered == [] && Stored(r.box) == Stored(a.box) && r.turn == a.turn
  {
    ReadKeepsEntries(size, a.box, limits.entries, limits.bytes, 0, io);
  }

  /** What happens beside the turns is the outbox's own: an eviction or a cap drop
      that takes records is a Drop, and a crash is what opening finds again. */
  lemma BesideIsTheOutbox(size: Sizer, limits: Limits, a: Agent, index: nat, over: bool, io: TruncateWeather, sound: OpenWeather)
    requires 1 <= a.box.first && sound.open.Opens?
    ensures var e := EvictBox(a.box, index, io);
            e.ok && a.box.first <= index <= a.box.Last() ==>
              var d := Apply(size, limits, a, Drop(index + 1 - a.box.first));
              d.turn == a.turn && d.box == e.box.(open := a.box.open)
    ensures var c := CapBox(a.box, over, io);
            c.first != a.box.first ==> Apply(size, limits, a, Drop(|a.box.recs|)) == a.(box := c)
    ensures OpenBox(a.box.first, a.box.recs, sound) == Some(Apply(size, limits, a, Step.Crash).box) && Apply(size, limits, a, Step.Crash).turn.None?
  {
  }

  // ---------- the barrier's wait ----------

  /** What happens while the barrier for `command` waits: writes, uploads,
      evictions, and its own rounds. */
  predicate Waits(s: Step, command: string) {
    match s
    case Barrier(c, _, _, _) => c == command
    case Flush(_) => true
    case Look(_) => true
    case Drop(_) => true
    case _ => false
  }

  /** The round's scan fits one shard. */
  ghost predicate SeesAll(size: Sizer, limits: Limits, a: Agent, s: Step)
    requires 1 <= a.box.first
  {
    s.Barrier? ==>
      var r := ReadBox(size, a.box, limits.entries, limits.bytes, 0, s.io);
      r.records.Some? ==> r.records.value == Listing(r.box.recs, r.box.first)
  }

  /** An append of the round fails: the barrier returns the error. */
  ghost predicate Errs(size: Sizer, limits: Limits, a: Agent, s: Step)
    requires 1 <= a.box.first
  {
    s.Barrier? &&
      var r := ReadBox(size, a.box, limits.entries, limits.bytes, 0, s.io);
      r.records.Some? && BlockedFor(r.records.value, s.command) && !AppendEach(size, r.box, Terminals(s.os, AGENT_STOPPED), s.w, 0).ok
  }

  /** A wait, up to the round that passes or errs. */
  ghost predicate Waiting(size: Sizer, limits: Limits, a: Agent, steps: seq<Step>, command: string)
    requires Legal(size, limits, a, steps)
    decreases |steps|
  {
    steps != [] ==>
      && Waits(steps[0], command) && SeesAll(size, limits, a, steps[0])
      && (Errs(size, limits, a, steps[0]) ==> |steps| == 1)
      && Waiting(size, limits, Apply(size, limits, a, steps[0]), steps[1..], command)
  }

  predicate RoundLists(s: Step, command: string) {
    s.Barrier? && Lists(s.os, command)
  }

  lemma ReadKeepsEnded(size: Sizer, limits: Limits, b: Box, io: ReadWeather, command: string)
    requires 1 <= b.first && Ended(Whole(b), command)
    ensures Ended(Whole(ReadBox(size, b, limits.entries, limits.bytes, 0, io).box), command)
  {
    var o := b.(open := true);
    assert Whole(o) + [] == Whole(b);
    FlushKeepsEnded(o, io.flush, [], command);
    var f := FlushBox(o, io.flush).box;
    assert Whole(f) + [] == Whole(f);
  }

  /** A round does not list an ended command. */
  lemma RoundSkipsEnded(size: Sizer, limits: Limits, a: Agent, s: Step, d: string)
    requires 1 <= a.box.first && Enabled(size, limits, a, s) && SeesAll(size, limits, a, s) && Ended(Whole(a.box), d)
    ensures !RoundLists(s, d)
  {
    if s.Barrier? {
      ReadKeepsEnded(size, limits, a.box, s.io, d);
      ReadKeepsEntries(size, a.box, limits.entries, limits.bytes, 0, s.io);
      var r := ReadBox(size, a.box, limits.entries, limits.bytes, 0, s.io);
      assert Whole(r.box) == r.box.recs;
      EndedIsNotListed(r.box.recs, r.box.first, s.command, s.os, d);
    }
  }

  lemma RoundKeepsEnded(size: Sizer, limits: Limits, a: Agent, s: Step, d: string)
    requires 1 <= a.box.first && s.Barrier? && Enabled(size, limits, a, s) && !Errs(size, limits, a, s)
    requires Ended(Whole(a.box), d)
    ensures Ended(Whole(Apply(size, limits, a, s).box), d)
  {
    ReadKeepsEnded(size, limits, a.box, s.io, d);
    ReadKeepsEntries(size, a.box, limits.entries, limits.bytes, 0, s.io);
    var r := ReadBox(size, a.box, limits.entries, limits.bytes, 0, s.io);
    TerminalsKeepEnded(Whole(r.box), s.os, AGENT_STOPPED, d);
    AppendEachKeepsEnded(size, r.box, Terminals(s.os, AGENT_STOPPED), s.w, 0, d);
  }

  lemma WaitKeepsEnded(size: Sizer, limits: Limits, a: Agent, s: Step, command: string, d: string)
    requires 1 <= a.box.first && Enabled(size, limits, a, s) && Waits(s, command) && !Errs(size, limits, a, s)
    requires Ended(Whole(a.box), d)
    ensures Ended(Whole(Apply(size, limits, a, s).box), d)
  {
    match s
    case Barrier(_, _, _, _) => RoundKeepsEnded(size, limits, a, s, d);
    case Flush(w) =>
      assert Whole(a.box) + [] == Whole(a.box);
      FlushKeepsEnded(a.box, w, [], d);
      var f := FlushBox(a.box, w).box;
      assert Whole(f) + [] == Whole(f);
    case Look(io) => ReadKeepsEnded(size, limits, a.box, io, d);
    case Drop(n) =>
      var k := if n <= |a.box.recs| then n else |a.box.recs|;
      assert Whole(Apply(size, limits, a, s).box) == Whole(a.box)[k..];
      EndedSurvivesEviction(Whole(a.box), k, d);
  }

  /** A round that lists a command, and whose appends succeed, ends it. */
  lemma ListingEnds(size: Sizer, limits: Limits, a: Agent, s: Step, d: string)
    requires 1 <= a.box.first && Enabled(size, limits, a, s) && SeesAll(size, limits, a, s) && !Errs(size, limits, a, s)
    requires RoundLists(s, d)
    ensures Ended(Whole(Apply(size, limits, a, s).box), d)
  {
    var r := ReadBox(size, a.box, limits.entries, limits.bytes, 0, s.io);
    ReadKeepsEntries(size, a.box, limits.entries, limits.bytes, 0, s.io);
    RoundEndsTheListed(r.box.recs, r.box.first, s.command, s.os, d);
    assert Whole(r.box) == r.box.recs;
    AppendEachKeepsEnded(size, r.box, Terminals(s.os, AGENT_STOPPED), s.w, 0, d);
    ListedIsBlocked(r.records.value, s.command, s.os, d);
  }

  lemma ListedIsBlocked(rs: seq<Record>, command: string, os: seq<Orphan>, d: string)
    requires ListsOrphans(os, GroupsOf(rs, Some(command))) && Lists(os, d)
    ensures BlockedFor(rs, command)
  {
    var k :| 0 <= k < |os| && os[k].command == d;
    ListedOrphans(os, rs, Some(command), os[k]);
  }

  lemma {:induction false} EndedIsListedNoMore(size: Sizer, limits: Limits, a: Agent, steps: seq<Step>, command: string, d: string)
    requires Legal(size, limits, a, steps) && Waiting(size, limits, a, steps, command) && Ended(Whole(a.box), d)
    ensures forall i :: 0 <= i < |steps| ==> !RoundLists(steps[i], d)
    decreases |steps|
  {
    if steps != [] {
      RoundSkipsEnded(size, limits, a, steps[0], d);
      if |steps| > 1 {
        WaitKeepsEnded(size, limits, a, steps[0], command, d);
        EndedIsListedNoMore(size, limits, Apply(size, limits, a, steps[0]), steps[1..], command, d);
      }
      forall i | 0 <= i < |steps| ensures !RoundLists(steps[i], d) {
        if i > 0 { assert steps[i] == steps[1..][i - 1]; }
      }
    }
  }

  /** The barrier adds at most one terminal per dead command. Over any wait whose
      rounds see the whole log, from any outbox, through every write fault, crash
      leftover, upload and eviction: each command is listed by one round at most. */
  lemma {:induction false} OneTerminalPerWait(size: Sizer, limits: Limits, a: Agent, steps: seq<Step>, command: string, d: string)
    requires Legal(size, limits, a, steps) && Waiting(size, limits, a, steps, command)
    ensures forall i, j :: 0 <= i < j < |steps| && RoundLists(steps[i], d) ==> !RoundLists(steps[j], d)
    decreases |steps|
  {
    if |steps| > 1 {
      var a' := Apply(size, limits, a, steps[0]);
      OneTerminalPerWait(size, limits, a', steps[1..], command, d);
      if RoundLists(steps[0], d) {
        ListingEnds(size, limits, a, steps[0], d);
        EndedIsListedNoMore(size, limits, a', steps[1..], command, d);
      }
      forall i, j | 0 <= i < j < |steps| && RoundLists(steps[i], d) ensures !RoundLists(steps[j], d) {
        assert steps[j] == steps[1..][j - 1];
        if i > 0 { assert steps[i] == steps[1..][i - 1]; }
      }
    }
  }
}
