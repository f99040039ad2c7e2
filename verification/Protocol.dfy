/** Whole runs of an outbox and its uploader: turns append, the buffer is
    written through, batches are read, sent and folded, the cap may drop the
    log, and the process may die at any point and start again. Beside the live
    state a world carries the history that the claims speak about. */
module Protocol {
  import opened Envelope
  import opened Outbox
  import opened Shards
  import opened Fold

  // ---------- worlds ----------

  datatype Name = Name(command: string, kind: Kind, seqNo: int)

  /** The indices lo..hi-1, dropped together by the retention cap. */
  datatype Drop = Drop(lo: nat, hi: nat)

  /** The history of one index space: every record it has held since `base`, the
      indices some reply settled, and the cap drops. */
  datatype Space = Space(base: nat, hist: seq<Payload>, settled: set<nat>, drops: seq<Drop>) {
    function End(): nat { base + |hist| }

    predicate Has(i: nat) { base <= i < End() }

    function At(i: nat): Payload
      requires Has(i)
    {
      hist[i - base]
    }

    ghost predicate Dropped(i: nat) {
      exists k :: 0 <= k < |drops| && drops[k].lo <= i < drops[k].hi
    }
  }

  /** An index space that a quarantine closed, and its lowest live index then. */
  datatype Closed = Closed(space: Space, first: nat)

  /** What has become of delivered records: the manager's store, the entries it
      refused by name, and the commands whose terminal it refused. */
  datatype Fates = Fates(store: set<Entry>, named: set<Name>, condemned: set<string>)

  /** What bears on the byte accumulator since the last eviction that succeeded:
      no cap drop, the settled bytes whose eviction was due by a terminal and
      failed, and whether a fold left the backstop's bytes or more in the log. */
  datatype Tally = Tally(capFree: bool, missed: nat, late: bool)

  datatype World = World(
    box: Box, up: Up, flight: Option<seq<Record>>,
    space: Space, past: seq<Closed>, fates: Fates,
    // since this uploader was created:
    cleared: set<nat>,   // indices in the settled prefix of some reply
    sent: nat,           // the highest index uploaded
    stale: bool,         // the log was quarantined under this uploader,
    adrift: bool,        // and its cursor still belongs to a former index space
    outdated: bool,           // the batch on its way was read before the last quarantine
    tally: Tally)

  datatype Step =
    | Append(e: Entry, w: Weather)
    | Flush(fw: Weather)
    | Look(lw: ReadWeather)                                      // a barrier's or self-check's read
    | Read(rw: ReadWeather)                                      // a cycle starts
    | Reply(resp: Response, store: set<Entry>, ew: TruncateWeather) // and ends with a reply,
    | NoReply(kept: set<Entry>)                                  // or without one
    | Cap(over: bool, cw: TruncateWeather)
    | Restart(tear: map<nat, nat>, ow: OpenWeather)              // crash or stop, and a new process

  // ---------- steps ----------

  /** The receiver's contract: it forgets nothing, and an entry of the batch that
      a watermark covers is in its store. */
  ghost predicate Honest(rs: seq<Record>, resp: Response, before: set<Entry>, after: set<Entry>) {
    && before <= after
    && forall r :: r in rs && r.entry.Some? && UnderWatermark(resp.acks, r.entry.value) ==> r.entry.value in after
  }

  /** The steps a run may take, also under an uploader whose index space was
      reset. */
  ghost predicate Enabled(w: World, s: Step) {
    match s
    case Read(_) => w.flight.None?
    case Reply(resp, store, _) => w.flight.Some? && Honest(w.flight.value, resp, w.fates.store, store)
    case NoReply(kept) => w.flight.Some? && w.fates.store <= kept
    case Cap(_, _) => w.flight.None?
    case Restart(tear, ow) => OpenBox(w.box.first, Tear(w.box.first, w.box.recs, tear), ow).Some?
    case _ => true
  }

  function Tear(first: nat, recs: seq<Payload>, tear: map<nat, nat>): (torn: seq<Payload>)
    ensures |torn| == |recs|
  {
    seq(|recs|, i requires 0 <= i < |recs| => if first + i in tear then Torn(tear[first + i]) else recs[i])
  }

  /** The world after a write of the log. */
  function Recorded(w: World, b: Box, moved: bool): World {
    if moved then
      w.(box := b, space := Space(1, [], {}, []), past := w.past + [Closed(w.space, w.box.first)],
         cleared := {}, sent := 0, stale := true, adrift := true, outdated := w.flight.Some?)
    else if |w.box.recs| <= |b.recs| then
      w.(box := b, space := w.space.(hist := w.space.hist + b.recs[|w.box.recs|..]))
    else
      w.(box := b)
  }

  function Highest(rs: seq<Record>, n: nat): nat {
    if rs == [] || rs[|rs| - 1].index < n then n else rs[|rs| - 1].index
  }

  ghost function SettledIndices(rs: seq<Record>, resp: Response): set<nat> {
    set r | r in rs && Settles(resp, r) :: r.index
  }

  ghost function ClearedIndices(rs: seq<Record>, resp: Response): set<nat> {
    set k | 0 <= k < SettledCount(rs, resp) :: rs[k].index
  }

  ghost function Told(f: Fates, resp: Response, store: set<Entry>): Fates {
    Fates(store,
          f.named + (set q | q in resp.rejected :: Name(q.command, q.kind, q.seqNo)),
          f.condemned + (set q | q in resp.rejected && q.kind == Result :: q.command))
  }

  /** The fold's eviction: due, and tried at the end of the settled prefix. */
  ghost predicate Purges(size: Sizer, limits: Limits, b: Box, u: Up, rs: seq<Record>, resp: Response, io: TruncateWeather) {
    var n := SettledCount(rs, resp);
    n > 0 && Due(size, limits, u, rs[..n], resp) && EvictBox(b, rs[n - 1].index, io).ok
  }

  /** The tally after a fold. */
  ghost function Tallied(size: Sizer, limits: Limits, b: Box, u: Up, rs: seq<Record>, resp: Response, io: TruncateWeather, t: Tally): Tally {
    var n := SettledCount(rs, resp);
    if n == 0 then t
    else if Purges(size, limits, b, u, rs, resp, io) then Tally(true, 0, false)
    else
      var missed := t.missed + if DueByTerminal(rs[..n], resp) then SettledBytes(size, rs[..n]) else 0;
      Tally(t.capFree, missed, t.late || Accumulated(size, u, rs[..n], resp) + missed >= limits.truncateAt)
  }

  function Quarantines(ow: OpenWeather): bool {
    ow.open.Corrupt? && !ow.again && ow.renames
  }

  /** A batch read for upload is on its way. */
  function Fetched(w: World, r: ReadOut): World {
    var w' := Recorded(w, r.box, r.moved);
    if r.records.None? || r.records.value == [] then w'
    else w'.(flight := r.records, outdated := false, sent := Highest(r.records.value, w'.sent))
  }

  ghost function AfterReply(size: Sizer, limits: Limits, w: World, resp: Response, store: set<Entry>, io: TruncateWeather): World
    requires w.flight.Some?
  {
    var rs := w.flight.value;
    Answered(w, FoldUp(size, limits, w.box, w.up, rs, resp, io), Told(w.fates, resp, store),
             if w.outdated then {} else SettledIndices(rs, resp), if w.outdated then {} else ClearedIndices(rs, resp),
             Tallied(size, limits, w.box, w.up, rs, resp, io, w.tally))
  }

  /** A batch of the present log that moves the cursor brings it home. */
  function Answered(w: World, f: Folded, fates: Fates, settled: set<nat>, cleared: set<nat>, tally: Tally): World {
    w.(box := f.box, up := f.up, flight := None, fates := fates,
       space := w.space.(settled := w.space.settled + settled),
       cleared := w.cleared + cleared, tally := tally,
       adrift := w.adrift && (w.outdated || f.up.readFrom == w.up.readFrom), outdated := false)
  }

  function AfterCap(w: World, over: bool, io: TruncateWeather): World {
    var b := CapBox(w.box, over, io);
    if b.first == w.box.first then w.(box := b)
    else w.(box := b, tally := w.tally.(capFree := false),
            space := w.space.(drops := w.space.drops + [Drop(w.box.first, b.first)]))
  }

  function AfterRestart(w: World, tear: map<nat, nat>, io: OpenWeather): World
    requires OpenBox(w.box.first, Tear(w.box.first, w.box.recs, tear), io).Some?
  {
    var b := OpenBox(w.box.first, Tear(w.box.first, w.box.recs, tear), io).value;
    var fresh' := w.(box := b, up := Up(0, 0), flight := None, cleared := {}, sent := 0,
                     stale := false, adrift := false, outdated := false, tally := Tally(true, 0, false));
    if Quarantines(io) then
      fresh'.(space := Space(1, [], {}, []), past := w.past + [Closed(w.space, w.box.first)])
    else
      fresh'.(space := w.space.(hist := Tear(w.space.base, w.space.hist, map i | i in tear && i >= w.box.first :: tear[i])))
  }

  ghost function Apply(size: Sizer, limits: Limits, w: World, s: Step): World
    requires 1 <= w.box.first && Enabled(w, s)
  {
    match s
    case Append(e, ww) => Recorded(w, AppendBox(size, w.box, e, ww).box, AppendBox(size, w.box, e, ww).moved)
    case Flush(ww) => Recorded(w, PublicFlushBox(w.box, ww).box, PublicFlushBox(w.box, ww).moved)
    case Look(io) =>
      var r := ReadBox(size, w.box, limits.entries, limits.bytes, 0, io);
      Recorded(w, r.box, r.moved)
    case Read(io) => Fetched(w, ReadBox(size, w.box, limits.entries, limits.bytes, w.up.readFrom, io))
    case Reply(resp, store, io) => AfterReply(size, limits, w, resp, store, io)
    case NoReply(kept) => w.(flight := None, outdated := false, fates := w.fates.(store := kept))
    case Cap(over, io) => AfterCap(w, over, io)
    case Restart(tear, io) => AfterRestart(w, tear, io)
  }

  // ---------- runs ----------

  ghost predicate Legal(size: Sizer, limits: Limits, w: World, steps: seq<Step>)
    decreases |steps|
  {
    && 1 <= w.box.first
    && (steps != [] ==> Enabled(w, steps[0]) && Legal(size, limits, Apply(size, limits, w, steps[0]), steps[1..]))
  }

  ghost function Run(size: Sizer, limits: Limits, w: World, steps: seq<Step>): (end: World)
    requires Legal(size, limits, w, steps)
    ensures 1 <= end.box.first
    decreases |steps|
  {
    if steps == [] then w else Run(size, limits, Apply(size, limits, w, steps[0]), steps[1..])
  }

  /** A restart that finds its log finds each live record as it was or torn, as
      the crash had it, and nothing of the buffer or the former cursor. */
  lemma RestartFindsTheLog(size: Sizer, limits: Limits, w: World, tear: map<nat, nat>, ow: OpenWeather)
    requires 1 <= w.box.first && ow.open.Opens? && Enabled(w, Restart(tear, ow))
    ensures var w' := Apply(size, limits, w, Restart(tear, ow));
            && w'.box.first == w.box.first && |w'.box.recs| == |w.box.recs| && w'.box.buffered == [] && w'.up == Up(0, 0)
            && w'.flight == None
            && forall k :: 0 <= k < |w.box.recs| ==>
                 w'.box.recs[k] == if w.box.first + k in tear then Torn(tear[w.box.first + k]) else w.box.recs[k]
  {
  }

  // ---------- a cycle of the uploader is a run ----------

  lemma ReadStep(size: Sizer, limits: Limits, w: World, io: ReadWeather) returns (w': World)
    requires 1 <= w.box.first && w.flight.None?
    ensures w' == Apply(size, limits, w, Read(io)) && w'.up == w.up
    ensures var r := ReadBox(size, w.box, limits.entries, limits.bytes, w.up.readFrom, io);
            w'.box == r.box && w'.flight == if r.records == Some([]) then None else r.records
  {
    w' := Apply(size, limits, w, Read(io));
  }

  lemma ReplyStep(size: Sizer, limits: Limits, w: World, resp: Response, store: set<Entry>, io: TruncateWeather) returns (w': World)
    requires 1 <= w.box.first && Enabled(w, Reply(resp, store, io))
    ensures w' == Apply(size, limits, w, Reply(resp, store, io)) && w'.flight.None?
    ensures Folded(w'.box, w'.up) == FoldUp(size, limits, w.box, w.up, w.flight.value, resp, io)
  {
    w' := Apply(size, limits, w, Reply(resp, store, io));
  }

  lemma CapStep(size: Sizer, limits: Limits, w: World, over: bool, io: TruncateWeather) returns (w': World)
    requires 1 <= w.box.first && w.flight.None?
    ensures w' == Apply(size, limits, w, Cap(over, io)) && w'.up == w.up && w'.box == CapBox(w.box, over, io)
  {
    w' := Apply(size, limits, w, Cap(over, io));
  }

  /** A cycle that gets a reply. */
  lemma AnsweredCycle(size: Sizer, limits: Limits, w: World, r: Box, u: Up, resp: Response, store: set<Entry>, io: CycleWeather)
    returns (w2: World, w3: World)
    requires 1 <= w.box.first && w.flight.Some? && Enabled(w, Reply(resp, store, io.evict)) && w.box == r && w.up == u
    requires 1 <= FoldUp(size, limits, r, u, w.flight.value, resp, io.evict).box.first
    ensures w2 == Apply(size, limits, w, Reply(resp, store, io.evict))
    ensures 1 <= w2.box.first && w2.flight.None? && w3 == Apply(size, limits, w2, Cap(io.over, io.cap))
    ensures var f := FoldUp(size, limits, r, u, w.flight.value, resp, io.evict); w3.box == CapBox(f.box, io.over, io.cap) && w3.up == f.up
  {
    w2 := ReplyStep(size, limits, w, resp, store, io.evict);
    w3 := CapStep(size, limits, w2, io.over, io.cap);
  }

  /** One cycle of the uploader makes of log and cursor what these steps make of
      them: a read; and if it yields a batch, no reply, or the reply to the
      readable records of the batch and then the cap. */
  lemma CycleIsARun(size: Sizer, limits: Limits, w: World, send: Transport, io: CycleWeather, store: set<Entry>)
    returns (w1: World, w2: World, w3: World)
    requires 1 <= w.box.first && w.flight.None?
    ensures w1 == Apply(size, limits, w, Read(io.read))
    ensures w1.flight.Some? && send(Entries(w1.flight.value)).Some?
            && Honest(w1.flight.value, send(Entries(w1.flight.value)).value, w1.fates.store, store) ==>
              && 1 <= w1.box.first && w2 == Apply(size, limits, w1, Reply(send(Entries(w1.flight.value)).value, store, io.evict))
              && 1 <= w2.box.first && w2.flight.None? && w3 == Apply(size, limits, w2, Cap(io.over, io.cap))
              && CycleUp(size, limits, w.box, w.up, send, io) == Folded(w3.box, w3.up)
    ensures w1.flight.None? || send(Entries(w1.flight.value)).None? ==>
              CycleUp(size, limits, w.box, w.up, send, io) == Folded(w1.box, w1.up)
  {
    w1 := ReadStep(size, limits, w, io.read);
    ReadStaysInRange(size, limits, w.box, w.up.readFrom, io.read);
    w2, w3 := w1, w1;
    if w1.flight.Some? && send(Entries(w1.flight.value)).Some? {
      var resp := send(Entries(w1.flight.value)).value;
      if Honest(w1.flight.value, resp, w1.fates.store, store) {
        FoldStaysInRange(size, limits, w1.box, w1.up, w1.flight.value, resp, io.evict);
        w2, w3 := AnsweredCycle(size, limits, w1, w1.box, w1.up, resp, store, io);
      }
    }
  }

  lemma ReadStaysInRange(size: Sizer, limits: Limits, b: Box, from: nat, io: ReadWeather)
    requires 1 <= b.first
    ensures 1 <= ReadBox(size, b, limits.entries, limits.bytes, from, io).box.first
  {
  }

  lemma FoldStaysInRange(size: Sizer, limits: Limits, b: Box, u: Up, rs: seq<Record>, resp: Response, io: TruncateWeather)
    requires 1 <= b.first
    ensures 1 <= FoldUp(size, limits, b, u, rs, resp, io).box.first
  {
  }

  // ---------- an uploader whose log was reset under it ----------

  /** A read from this cursor passes over the front of the log. */
  predicate Skips(b: Box, cursor: nat) {
    b.first < cursor <= b.Last() + 1
  }

  /** The fold of this reply takes records from the log. */
  ghost predicate Strikes(size: Sizer, limits: Limits, b: Box, u: Up, rs: seq<Record>, resp: Response, io: TruncateWeather) {
    Purges(size, limits, b, u, rs, resp, io) && b.recs != [] && b.first <= rs[SettledCount(rs, resp) - 1].index
  }

  /** A step that a stale cursor cannot make unsafe: an adrift cursor does not
      skip, and the reply to an old batch does not strike. */
  ghost predicate Safe(size: Sizer, limits: Limits, w: World, s: Step)
    requires 1 <= w.box.first
  {
    match s
    case Read(io) => w.adrift ==> !Skips(ReadBox(size, w.box, limits.entries, limits.bytes, w.up.readFrom, io).box, w.up.readFrom)
    case Reply(resp, _, io) => w.outdated && w.flight.Some? ==> !Strikes(size, limits, w.box, w.up, w.flight.value, resp, io)
    case _ => true
  }

  ghost predicate AllSafe(size: Sizer, limits: Limits, w: World, steps: seq<Step>)
    requires Legal(size, limits, w, steps)
    decreases |steps|
  {
    steps != [] ==> Safe(size, limits, w, steps[0]) && AllSafe(size, limits, Apply(size, limits, w, steps[0]), steps[1..])
  }

  /** A process that has just opened an outbox, whatever the log holds. */
  ghost predicate Initial(w: World) {
    && w.box.buffered == [] && 1 <= w.box.first
    && w.up == Up(0, 0) && w.flight == None
    && w.space == Space(w.box.first, w.box.recs, {}, []) && w.past == []
    && w.cleared == {} && w.sent == 0 && !w.stale && !w.adrift && !w.outdated && w.tally == Tally(true, 0, false)
  }
}
