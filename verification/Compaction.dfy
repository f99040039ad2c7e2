/** When a turn reports a context compaction it inferred: the log itself
    justifies each report. */
module Compaction {
  import opened Envelope
  import opened Turn
  import opened Trace

  /** The event types of a trace. */
  function Types(rs: seq<Entry>): seq<EventType> {
    if rs == [] then []
    else
      var r := rs[|rs| - 1];
      Types(rs[..|rs| - 1]) + if r.kind == Event && r.body.EventBody? then [r.body.event] else []
  }

  // ---------- what a log of events says ----------

  /** The usage last observed; a direct finish forgets it, an inferred one does not. */
  function LastUsed(ts: seq<EventType>, used: int): int {
    if ts == [] then used
    else
      match ts[|ts| - 1]
      case UsageUpdate(Some(u)) => u
      case CompactionFinished(false) => 0
      case _ => LastUsed(ts[..|ts| - 1], used)
  }

  /** A compaction has started and not finished. */
  predicate Active(ts: seq<EventType>, active: bool) {
    if ts == [] then active
    else
      match ts[|ts| - 1]
      case CompactionStarted => true
      case CompactionFinished(_) => false
      case _ => Active(ts[..|ts| - 1], active)
  }

  /** The i-th event is a usage more than 30% below the previous one, with no
      compaction under way. */
  predicate Trigger(ts: seq<EventType>, ctx: Context, i: nat)
    requires i < |ts|
  {
    && ts[i].UsageUpdate? && ts[i].used.Some? && !Active(ts[..i], ctx.compacting)
    && var prev, now := LastUsed(ts[..i], ctx.used), ts[i].used.value;
       prev > 0 && now >= 0 && 10 * (prev - now) > 3 * prev
  }

  /** Every inferred finish comes right behind its trigger; and where the agent
      is quiet or sent no message, behind every trigger comes its inferred finish. */
  predicate Justified(ts: seq<EventType>, ctx: Context, quiet: bool) {
    && (forall i :: 0 <= i < |ts| && ts[i] == CompactionFinished(true) ==> i > 0 && Trigger(ts, ctx, i - 1))
    && (quiet || (RawAcp(true) !in ts && !ctx.chatted) ==>
          forall i :: 0 <= i < |ts| && Trigger(ts, ctx, i) ==> i + 1 < |ts| && ts[i + 1] == CompactionFinished(true))
  }

  /** No usage comes within the quiet window of a message chunk. */
  predicate Quiet(ins: seq<Input>) {
    forall i :: i in ins && i.Happened? && i.event.UsageUpdate? ==> !i.recent
  }

  /** The observer's state is what the log says. */
  predicate Follows(s: State, ctx: Context, quiet: bool) {
    && s.context.Some?
    && s.context.value.used == LastUsed(Types(s.records), ctx.used)
    && s.context.value.compacting == Active(Types(s.records), ctx.compacting)
    && (s.context.value.chatted <==> ctx.chatted || RawAcp(true) in Types(s.records))
    && Justified(Types(s.records), ctx, quiet)
  }

  lemma OneMoreType(rs: seq<Entry>, e: Entry)
    ensures Types(rs + [e]) == Types(rs) + if e.kind == Event && e.body.EventBody? then [e.body.event] else []
  {
    LastRecord(rs, e);
  }

  lemma TriggersStay(ts: seq<EventType>, t: EventType, ctx: Context, i: nat)
    requires i < |ts|
    ensures Trigger(ts + [t], ctx, i) <==> Trigger(ts, ctx, i)
  {
    assert (ts + [t])[..i] == ts[..i];
  }

  lemma OneMoreUsed(ts: seq<EventType>, t: EventType, ctx: Context)
    ensures (ts + [t])[..|ts|] == ts
    ensures LastUsed(ts + [t], ctx.used) == match t
                                            case UsageUpdate(Some(u)) => u
                                            case CompactionFinished(false) => 0
                                            case _ => LastUsed(ts, ctx.used)
    ensures Active(ts + [t], ctx.compacting) == match t
                                                case CompactionStarted => true
                                                case CompactionFinished(_) => false
                                                case _ => Active(ts, ctx.compacting)
  {
    assert (ts + [t])[..|ts + [t]| - 1] == ts;
  }

  lemma JustifiedGrows(ts: seq<EventType>, t: EventType, ctx: Context, quiet: bool)
    requires Justified(ts, ctx, quiet) && t != CompactionFinished(true)
    requires quiet || (RawAcp(true) !in ts && !ctx.chatted) ==> !Trigger(ts + [t], ctx, |ts|)
    ensures Justified(ts + [t], ctx, quiet)
  {
    var ts' := ts + [t];
    forall i | 0 <= i < |ts'| && ts'[i] == CompactionFinished(true) ensures i > 0 && Trigger(ts', ctx, i - 1) {
      assert ts[i] == ts'[i];
      TriggersStay(ts, t, ctx, i - 1);
    }
    if quiet || (RawAcp(true) !in ts' && !ctx.chatted) {
      assert RawAcp(true) !in ts' ==> RawAcp(true) !in ts by { assert forall x :: x in ts ==> x in ts'; }
      forall i | 0 <= i < |ts'| && Trigger(ts', ctx, i) ensures i + 1 < |ts'| && ts'[i + 1] == CompactionFinished(true) {
        if i < |ts| { TriggersStay(ts, t, ctx, i); }
      }
    }
  }

  lemma JustifiedInfers(ts: seq<EventType>, t: EventType, ctx: Context, quiet: bool)
    requires Justified(ts, ctx, quiet) && Trigger(ts + [t], ctx, |ts|)
    ensures Justified(ts + [t] + [CompactionFinished(true)], ctx, quiet)
  {
    var ts1 := ts + [t];
    var ts2 := ts1 + [CompactionFinished(true)];
    forall i | 0 <= i < |ts1| ensures Trigger(ts2, ctx, i) <==> Trigger(ts1, ctx, i) {
      TriggersStay(ts1, CompactionFinished(true), ctx, i);
    }
    forall i | 0 <= i < |ts| ensures Trigger(ts1, ctx, i) <==> Trigger(ts, ctx, i) {
      TriggersStay(ts, t, ctx, i);
    }
    forall i | 0 <= i < |ts2| && ts2[i] == CompactionFinished(true) ensures i > 0 && Trigger(ts2, ctx, i - 1) {
      if i < |ts| { assert ts[i] == ts2[i]; }
    }
    if quiet || (RawAcp(true) !in ts2 && !ctx.chatted) {
      assert RawAcp(true) !in ts2 ==> RawAcp(true) !in ts by { assert forall x :: x in ts ==> x in ts2; }
      forall i | 0 <= i < |ts2| && Trigger(ts2, ctx, i) ensures i + 1 < |ts2| && ts2[i + 1] == CompactionFinished(true) {
        if i < |ts| { assert ts[i] == ts2[i]; }
      }
    }
  }

  lemma RatioIsExact(prev: int, now: int)
    requires prev > 0
    ensures (prev - now) as real / prev as real <= 0.3 <==> 10 * (prev - now) <= 3 * prev
  {
    var q := (prev - now) as real / prev as real;
    assert q * prev as real == (prev - now) as real;
  }

  // ---------- the observer follows the log ----------

  lemma EventFollows(env: Env, c: string, s: State, t: EventType, recent: bool, ctx: Context, quiet: bool)
    requires Healthy(env) && Follows(s, ctx, quiet) && !Derived(t) && (quiet && t.UsageUpdate? ==> !recent)
    ensures TakeEvent(env, c, s, t, recent).ok && Follows(TakeEvent(env, c, s, t, recent).s, ctx, quiet)
  {
    var ts := Types(s.records);
    var e := EventEntry(c, NextSeq(s.lastEventSeq), t);
    OneMoreType(s.records, e);
    OneMoreUsed(ts, t, ctx);
    var p := SubmitEvent(env, c, s, t).s;
    assert Types(p.records) == ts + [t];
    assert RawAcp(true) in ts + [t] <==> RawAcp(true) in ts || t == RawAcp(true);
    if t.UsageUpdate? && t.used.Some? {
      UsageFollows(env, c, s, p, t.used.value, recent, ctx, quiet);
    } else {
      JustifiedGrows(ts, t, ctx, quiet);
    }
  }

  lemma TriggerIsTheTest(ts: seq<EventType>, used: int, recent: bool, was: Context, ctx: Context)
    requires was.used == LastUsed(ts, ctx.used) && was.compacting == Active(ts, ctx.compacting)
    ensures var fires := !was.compacting && LooksCompacted(was, used, recent);
            && (fires ==> Trigger(ts + [UsageUpdate(Some(used))], ctx, |ts|))
            && (Trigger(ts + [UsageUpdate(Some(used))], ctx, |ts|) && !(was.chatted && recent) ==> fires)
  {
    assert (ts + [UsageUpdate(Some(used))])[..|ts|] == ts;
    if was.used > 0 { RatioIsExact(was.used, used); }
  }

  lemma UsageFollows(env: Env, c: string, s: State, p: State, used: int, recent: bool, ctx: Context, quiet: bool)
    requires Healthy(env) && Follows(s, ctx, quiet) && p.context == s.context && (quiet ==> !recent)
    requires Types(p.records) == Types(s.records) + [UsageUpdate(Some(used))]
    ensures var o := Observe(env, c, p, UsageUpdate(Some(used)), recent); o.ok && Follows(o.s, ctx, quiet)
  {
    var ts, t, was := Types(s.records), UsageUpdate(Some(used)), s.context.value;
    OneMoreUsed(ts, t, ctx);
    TriggerIsTheTest(ts, used, recent, was, ctx);
    assert RawAcp(true) in ts + [t] <==> RawAcp(true) in ts;
    if !was.compacting && LooksCompacted(was, used, recent) {
      JustifiedInfers(ts, t, ctx, quiet);
      InferenceFollows(env, c, p.(context := Some(was.(used := used))), ctx, quiet);
    } else {
      JustifiedGrows(ts, t, ctx, quiet);
    }
  }

  lemma InferenceFollows(env: Env, c: string, s: State, ctx: Context, quiet: bool)
    requires Healthy(env) && s.context.Some? && !s.context.value.compacting
    requires s.context.value.used == LastUsed(Types(s.records), ctx.used)
    requires s.context.value.chatted <==> ctx.chatted || RawAcp(true) in Types(s.records)
    requires Justified(Types(s.records) + [CompactionFinished(true)], ctx, quiet)
    ensures var o := SubmitEvent(env, c, s, CompactionFinished(true)); o.ok && Follows(o.s, ctx, quiet)
  {
    var ts, e := Types(s.records), EventEntry(c, NextSeq(s.lastEventSeq), CompactionFinished(true));
    OneMoreType(s.records, e);
    OneMoreUsed(ts, CompactionFinished(true), ctx);
    assert RawAcp(true) in ts + [CompactionFinished(true)] <==> RawAcp(true) in ts;
  }

  /** An event that the observer never sees. */
  lemma UnseenFollows(env: Env, c: string, s: State, t: EventType, ctx: Context, quiet: bool)
    requires Healthy(env) && Follows(s, ctx, quiet) && (t.TextDelta? || t == Warning || t == Lifecycle)
    ensures Follows(SubmitEvent(env, c, s, t).s, ctx, quiet)
  {
    var ts := Types(s.records);
    OneMoreType(s.records, EventEntry(c, NextSeq(s.lastEventSeq), t));
    OneMoreUsed(ts, t, ctx);
    assert RawAcp(true) in ts + [t] <==> RawAcp(true) in ts;
    JustifiedGrows(ts, t, ctx, quiet);
  }

  lemma FlushFollows(env: Env, c: string, s: State, ctx: Context, quiet: bool)
    requires Healthy(env) && Follows(s, ctx, quiet)
    ensures Follows(FlushText(env, c, s).s, ctx, quiet)
  {
    if s.merged.Some? && s.merged.value.text != "" {
      UnseenFollows(env, c, s.(merged := None), TextDelta(s.merged.value.stream, s.merged.value.text), ctx, quiet);
    }
  }

  lemma ChunkFollows(env: Env, c: string, s: State, ch: Chunk, draining: bool, ctx: Context, quiet: bool)
    requires Healthy(env) && Follows(s, ctx, quiet)
    ensures Follows(TakeChunk(env, c, s, ch, draining).s, ctx, quiet)
  {
    OneMoreType(s.records, ProgressEntry(c, ch));
    var s1 := Submit(env, s, ProgressEntry(c, ch)).s.(lastSeq := Groups.Max(s.lastSeq, ch.seqNo));
    assert Types(s1.records) == Types(s.records);
    FlushFollows(env, c, s1, ctx, quiet);
  }

  lemma {:induction false} AllFollow(env: Env, c: string, s: State, ins: seq<Input>, draining: bool, ctx: Context, quiet: bool)
    requires Healthy(env) && Genuine(ins) && Follows(s, ctx, quiet) && (quiet ==> Quiet(ins))
    ensures Follows(TakeAll(env, c, s, ins, draining).s, ctx, quiet)
    decreases |ins|
  {
    if ins != [] {
      var p := Take(env, c, s, ins[0], draining);
      match ins[0] {
        case Output(ch) => ChunkFollows(env, c, s, ch, draining, ctx, quiet);
        case Happened(t, recent) => EventFollows(env, c, s, t, recent, ctx, quiet);
        case Watchdog => UnseenFollows(env, c, s, Warning, ctx, quiet);
      }
      if p.ok { AllFollow(env, c, p.s, ins[1..], draining, ctx, quiet); }
    }
  }

  lemma DrainFollows(env: Env, c: string, s: State, tail: seq<Input>, ctx: Context, quiet: bool)
    requires Healthy(env) && Genuine(tail) && Follows(s, ctx, quiet) && (quiet ==> Quiet(tail))
    ensures Follows(Drained(env, c, s, tail), ctx, quiet)
  {
    FlushFollows(env, c, s, ctx, quiet);
    AllFollow(env, c, FlushText(env, c, s).s, tail, true, ctx, quiet);
    FlushFollows(env, c, TakeAll(env, c, FlushText(env, c, s).s, tail, true).s, ctx, quiet);
  }

  lemma ResultFollows(env: Env, c: string, s: State, e: Entry, ctx: Context, quiet: bool)
    requires Healthy(env) && Follows(s, ctx, quiet) && e.kind == Result
    ensures Deliver(env, s, e).ok && Follows(Deliver(env, s, e).s, ctx, quiet)
  {
    OneMoreType(s.records, e);
    assert Types(s.records) + [] == Types(s.records);
  }

  /** On a healthy sink, however the turn ends: every inferred finish is right
      behind its trigger; and every trigger is followed by one if the agent sent no
      message, or none shortly before a usage. */
  lemma InferencesAreJustified(env: Env, c: string, ctx: Context, ins: seq<Input>, end: Ending, gone: bool)
    requires Healthy(env) && Genuine(ins) && (end.Finished? ==> Genuine(end.tail))
    ensures var quiet := Quiet(ins) && (end.Finished? ==> Quiet(end.tail));
            Justified(Types(RunTurn(env, c, Some(ctx), ins, end, gone).records), ctx, quiet)
  {
    var quiet := Quiet(ins) && (end.Finished? ==> Quiet(end.tail));
    UnseenFollows(env, c, Fresh(Some(ctx)), Lifecycle, ctx, quiet);
    AllFollow(env, c, Started(env, c, Some(ctx)).s, ins, false, ctx, quiet);
    StartHasForm(env, c, Some(ctx));
    TakeAllKeepsForm(env, c, Started(env, c, Some(ctx)).s, ins, false);
    if end.Finished? {
      var p := Pumped(env, c, Some(ctx), ins).s;
      DrainFollows(env, c, p, end.tail, ctx, quiet);
      ResultFollows(env, c, Drained(env, c, p, end.tail), RealResult(c, Drained(env, c, p, end.tail), end), ctx, quiet);
    }
  }

  lemma TestInNumbers(was: Context, used: int, recent: bool)
    ensures LooksCompacted(was, used, recent) <==>
              was.used > 0 && used >= 0 && 10 * (was.used - used) > 3 * was.used && !(was.chatted && recent)
  {
    if was.used > 0 { RatioIsExact(was.used, used); }
  }

  lemma EventIsLogged(env: Env, c: string, s: State, t: EventType)
    requires Healthy(env)
    ensures var p := SubmitEvent(env, c, s, t);
            p.ok && p.s.context == s.context && Types(p.s.records) == Types(s.records) + [t]
  {
    OneMoreType(s.records, EventEntry(c, NextSeq(s.lastEventSeq), t));
  }

  lemma ObserverInfers(env: Env, c: string, s: State, used: int, recent: bool)
    requires Healthy(env) && s.context.Some?
    ensures var was, o := s.context.value, Observe(env, c, s, UsageUpdate(Some(used)), recent);
            && o.ok && o.s.context == Some(was.(used := used))
            && Types(o.s.records) == if !was.compacting && LooksCompacted(was, used, recent)
                                     then Types(s.records) + [CompactionFinished(true)] else Types(s.records)
  {
    EventIsLogged(env, c, s.(context := Some(s.context.value.(used := used))), CompactionFinished(true));
  }

  /** One usage, on a healthy sink: a finish is inferred exactly if no compaction
      is under way, the usage is more than 30% below the one before, and no message
      chunk came within the quiet window. */
  lemma InfersExactly(env: Env, c: string, s: State, used: int, recent: bool)
    requires Healthy(env) && s.context.Some?
    ensures var was, p := s.context.value, TakeEvent(env, c, s, UsageUpdate(Some(used)), recent);
            var infers := !was.compacting && was.used > 0 && used >= 0 && 10 * (was.used - used) > 3 * was.used
                          && !(was.chatted && recent);
            && p.ok && p.s.context == Some(was.(used := used))
            && Types(p.s.records) == if infers then Types(s.records) + [UsageUpdate(Some(used))] + [CompactionFinished(true)]
                                     else Types(s.records) + [UsageUpdate(Some(used))]
  {
    TestInNumbers(s.context.value, used, recent);
    EventIsLogged(env, c, s, UsageUpdate(Some(used)));
    ObserverInfers(env, c, SubmitEvent(env, c, s, UsageUpdate(Some(used))).s, used, recent);
  }
}
