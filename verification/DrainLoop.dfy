/** The wake signal and the drain loop that pulls sessions (wake, drainLoop),
    interleaved step by step. */
module DrainLoop {
  import opened Envelope
  import opened Sequences

  /** Where the loop stands: in the wait for a wake, at the top of a pass, in a
      BeginSession call, in the backoff after an error, in a session. */
  datatype Place = Waiting | Pulling | Calling | BackingOff | InSession

  /** `wake` is the one-place wake channel; `last` the start of the last session. */
  datatype Loop = Loop(at: Place, wake: bool, now: nat, last: Option<nat>)

  datatype Step =
    | Wake                 // someone signals; dropped when one is pending
    | Tick(d: nat)
    | Receive              // the loop takes the pending wake
    | Call(token: bool)    // the loop calls BeginSession; without a token the call fails at once
    | ReplyError
    | ReplyIdle
    | ReplyWork
    | Retry                // the backoff is over
    | EndSession

  const MIN_SESSION_GAP := 1000

  predicate ByTheLoop(s: Step) {
    !s.Wake? && !s.Tick?
  }

  /** A pass waits out the gap since the last session started. */
  predicate Enabled(l: Loop, s: Step) {
    match s
    case Wake => true
    case Tick(_) => true
    case Receive => l.at.Waiting? && l.wake
    case Call(_) => l.at.Pulling? && (l.last.Some? ==> l.now - l.last.value >= MIN_SESSION_GAP)
    case ReplyError => l.at.Calling?
    case ReplyIdle => l.at.Calling?
    case ReplyWork => l.at.Calling?
    case Retry => l.at.BackingOff?
    case EndSession => l.at.InSession?
  }

  function Apply(l: Loop, s: Step): Loop
    requires Enabled(l, s)
  {
    match s
    case Wake => l.(wake := true)
    case Tick(d) => l.(now := l.now + d)
    case Receive => l.(at := Pulling, wake := false)
    case Call(token) => l.(at := if token then Calling else BackingOff)
    case ReplyError => l.(at := BackingOff)
    case ReplyIdle => l.(at := Waiting)
    case ReplyWork => l.(at := InSession, last := Some(l.now))
    case Retry => l.(at := Pulling)
    case EndSession => l.(at := Pulling)
  }

  predicate Legal(l: Loop, ss: seq<Step>)
    decreases |ss|
  {
    ss != [] ==> Enabled(l, ss[0]) && Legal(Apply(l, ss[0]), ss[1..])
  }

  function Run(l: Loop, ss: seq<Step>): Loop
    requires Legal(l, ss)
    decreases |ss|
  {
    if ss == [] then l else Run(Apply(l, ss[0]), ss[1..])
  }

  function Initial(): Loop {
    Loop(Waiting, false, 0, None)
  }

  // ---------- no wake is lost ----------

  /** No BeginSession call was issued. */
  predicate NoCall(ss: seq<Step>) {
    forall i :: 0 <= i < |ss| ==> !ss[i].Call?
  }

  /** The steps the loop itself took. */
  function OwnSteps(ss: seq<Step>): nat {
    if ss == [] then 0 else OwnSteps(ss[1..]) + if ByTheLoop(ss[0]) then 1 else 0
  }

  /** A wake is owed a call: the loop is on its way to one, or the wake pends. */
  predicate Remembers(l: Loop) {
    l.at.Waiting? || l.at.Calling? ==> l.wake
  }

  /** The loop's own steps still to come before its next call. */
  function Distance(l: Loop): nat {
    match l.at
    case Pulling => 0
    case Waiting => 1
    case BackingOff => 1
    case InSession => 1
    case Calling => 2
  }

  lemma {:induction false} RemembersTillTheCall(l: Loop, ss: seq<Step>)
    requires Remembers(l) && Legal(l, ss) && NoCall(ss)
    ensures Remembers(Run(l, ss)) && OwnSteps(ss) + Distance(Run(l, ss)) <= Distance(l)
    decreases |ss|
  {
    if ss != [] {
      assert !ss[0].Call?;
      RemembersTillTheCall(Apply(l, ss[0]), ss[1..]);
    }
  }

  lemma {:induction false} RunsJoin(l: Loop, a: seq<Step>, b: seq<Step>)
    ensures Legal(l, a + b) <==> Legal(l, a) && Legal(Run(l, a), b)
    ensures Legal(l, a + b) ==> Run(l, a + b) == Run(Run(l, a), b)
    decreases |a|
  {
    if a == [] {
      assert a + b == b;
    } else {
      assert (a + b)[0] == a[0] && (a + b)[1..] == a[1..] + b;
      if Enabled(l, a[0]) { RunsJoin(Apply(l, a[0]), a[1..], b); }
    }
  }

  /** After a wake, and until the loop's next BeginSession call, the loop is never
      blocked: it makes at most two steps of its own, and then its next step is
      the call, for any history and any wakes and replies in between. */
  lemma NoLostWake(before: seq<Step>, after: seq<Step>)
    requires Legal(Initial(), before + [Wake] + after) && NoCall(after)
    ensures var l := Run(Initial(), before + [Wake] + after);
            && !(l.at.Waiting? && !l.wake)
            && OwnSteps(after) <= 2
            && (OwnSteps(after) == 2 ==> l.at.Pulling?)
  {
    RunsJoin(Initial(), before + [Wake], after);
    RunsJoin(Initial(), before, [Wake]);
    var l := Run(Initial(), before);
    assert Run(l, [Wake]) == Apply(l, Wake) by { assert [Wake][1..] == []; }
    RemembersTillTheCall(Run(l, [Wake]), after);
  }

  // ---------- and none is made up ----------

  function Receives(ss: seq<Step>): nat {
    if ss == [] then 0 else Receives(ss[..|ss| - 1]) + if ss[|ss| - 1].Receive? then 1 else 0
  }

  function Wakes(ss: seq<Step>): nat {
    if ss == [] then 0 else Wakes(ss[..|ss| - 1]) + if ss[|ss| - 1].Wake? then 1 else 0
  }

  /** The loop wakes up at most once for each signal, and one that pends is still
      to come. */
  lemma {:induction false} OneWakeUpEach(ss: seq<Step>)
    requires Legal(Initial(), ss)
    ensures Receives(ss) + (if Run(Initial(), ss).wake then 1 else 0) <= Wakes(ss)
  {
    if ss != [] {
      var n := |ss| - 1;
      assert ss == ss[..n] + [ss[n]];
      RunsJoin(Initial(), ss[..n], [ss[n]]);
      OneWakeUpEach(ss[..n]);
      assert [ss[n]][1..] == [];
      assert Run(Initial(), ss) == Apply(Run(Initial(), ss[..n]), ss[n]);
    }
  }

  /** After an idle reply with no wake pending the loop makes no step of its own
      until it is signalled. */
  lemma {:induction false} IdleTillSignalled(l: Loop, ss: seq<Step>)
    requires l.at.Waiting? && !l.wake && Legal(l, ss) && forall k :: 0 <= k < |ss| ==> !ss[k].Wake?
    ensures OwnSteps(ss) == 0 && Run(l, ss).at.Waiting?
    decreases |ss|
  {
    if ss != [] {
      IdleTillSignalled(Apply(l, ss[0]), ss[1..]);
    }
  }

  // ---------- the floor between sessions ----------

  /** The times at which sessions start. */
  function Starts(l: Loop, ss: seq<Step>): seq<nat>
    requires Legal(l, ss)
    decreases |ss|
  {
    if ss == [] then []
    else (if ss[0].ReplyWork? then [l.now] else []) + Starts(Apply(l, ss[0]), ss[1..])
  }

  predicate Spaced(ts: seq<nat>) {
    forall i :: 0 < i < |ts| ==> ts[i - 1] + 1000 <= ts[i]
  }

  /** In a call, the gap has passed. */
  predicate Paced(l: Loop) {
    l.last.Some? ==> l.last.value <= l.now && (l.at.Calling? ==> l.last.value + MIN_SESSION_GAP <= l.now)
  }

  lemma StepKeepsPace(l: Loop, s: Step)
    requires Paced(l) && Enabled(l, s)
    ensures Paced(Apply(l, s))
    ensures Apply(l, s).last == if s.ReplyWork? then Some(l.now) else l.last
    ensures s.ReplyWork? && l.last.Some? ==> l.last.value + MIN_SESSION_GAP <= l.now
  {
  }

  lemma SpacedBefore(t: nat, ts: seq<nat>)
    requires Spaced(ts) && (ts != [] ==> t + MIN_SESSION_GAP <= ts[0])
    ensures Spaced([t] + ts)
  {
    forall i | 0 < i < |[t] + ts| ensures ([t] + ts)[i - 1] + MIN_SESSION_GAP <= ([t] + ts)[i] {
      if i > 1 { assert ts[i - 2] + MIN_SESSION_GAP <= ts[i - 1]; }
    }
  }

  lemma {:induction false} PacedStarts(l: Loop, ss: seq<Step>)
    requires Paced(l) && Legal(l, ss)
    ensures Spaced(Starts(l, ss))
    ensures Starts(l, ss) != [] && l.last.Some? ==> l.last.value + MIN_SESSION_GAP <= Starts(l, ss)[0]
    decreases |ss|
  {
    if ss != [] {
      var l' := Apply(l, ss[0]);
      StepKeepsPace(l, ss[0]);
      PacedStarts(l', ss[1..]);
      if ss[0].ReplyWork? {
        SpacedBefore(l.now, Starts(l', ss[1..]));
      } else {
        assert Starts(l, ss) == Starts(l', ss[1..]);
      }
    }
  }

  /** However fast sessions end and wakes arrive, no two sessions start less than
      the gap apart. */
  lemma SessionsKeepTheirDistance(ss: seq<Step>)
    requires Legal(Initial(), ss)
    ensures Spaced(Starts(Initial(), ss))
  {
    PacedStarts(Initial(), ss);
  }

  // ---------- the loop as the agent runs it ----------

  datatype Reply = Failed | Idle | Work

  /** What happens around the loop's next blocking point: wakes, time passing,
      and the manager's answer if it is a call. */
  datatype Happening = Happening(wakes: bool, pass: nat, token: bool, reply: Reply)

  function Around(h: Happening): seq<Step> {
    (if h.wakes then [Wake] else []) + [Tick(h.pass)]
  }

  function Later(l: Loop, h: Happening): Loop {
    l.(wake := l.wake || h.wakes, now := l.now + h.pass)
  }

  /** The rest of the gap since the last session started. */
  function Gap(l: Loop): nat {
    if l.last.Some? && l.now - l.last.value < MIN_SESSION_GAP then MIN_SESSION_GAP - (l.now - l.last.value) else 0
  }

  function Answered(reply: Reply): seq<Step> {
    match reply
    case Failed => [ReplyError, Retry]
    case Idle => [ReplyIdle]
    case Work => [ReplyWork, EndSession]
  }

  /** What the loop does with one happening, waiting for a wake or in a pass. */
  function Moves(l: Loop, h: Happening): seq<Step> {
    if l.at.Waiting? then Around(h) + if Later(l, h).wake then [Receive] else []
    else [Tick(Gap(l)), Call(h.token)] + if h.token then Around(h) + Answered(h.reply) else [Retry]
  }

  function Next(l: Loop, h: Happening): Loop {
    if l.at.Waiting? then
      if Later(l, h).wake then Later(l, h).(at := Pulling, wake := false) else Later(l, h)
    else
      var called := l.(now := l.now + Gap(l));
      if !h.token then called
      else
        var l' := Later(called, h);
        match h.reply
        case Failed => l'
        case Idle => l'.(at := Waiting)
        case Work => l'.(last := Some(l'.now))
  }

  function Moved(l: Loop, script: seq<Happening>): seq<Step>
    decreases |script|
  {
    if script == [] then [] else Moves(l, script[0]) + Moved(Next(l, script[0]), script[1..])
  }

  /** `trace` continues `base` with what the first i happenings led to, up to `l`. */
  predicate PlayedSoFar(base: seq<Step>, from: Loop, script: seq<Happening>, i: nat, trace: seq<Step>, l: Loop) {
    i <= |script| && trace + Moved(l, script[i..]) == base + Moved(from, script)
  }

  lemma PlayedFurther(base: seq<Step>, from: Loop, script: seq<Happening>, i: nat, trace: seq<Step>, l: Loop)
    requires PlayedSoFar(base, from, script, i, trace, l) && i < |script|
    ensures PlayedSoFar(base, from, script, i + 1, trace + Moves(l, script[i]), Next(l, script[i]))
  {
    var rest := Moved(Next(l, script[i]), script[i + 1..]);
    assert script[i..][1..] == script[i + 1..];
    Assoc(trace, Moves(l, script[i]), rest);
  }

  lemma TraceGrows(trace: seq<Step>, l: Loop, s: Step)
    requires Legal(Initial(), trace) && Run(Initial(), trace) == l && Enabled(l, s)
    ensures Legal(Initial(), trace + [s]) && Run(Initial(), trace + [s]) == Apply(l, s)
  {
    RunsJoin(Initial(), trace, [s]);
    assert [s][1..] == [];
  }

  class Drainer {
    var wakeCh: bool
    var now: nat
    var lastSessionStart: Option<nat>
    ghost var at: Place
    ghost var trace: seq<Step>

    ghost function Value(): Loop
      reads this
    {
      Loop(at, wakeCh, now, lastSessionStart)
    }

    /** What has happened so far is a run of the machine. */
    ghost predicate Valid()
      reads this
    {
      Legal(Initial(), trace) && Run(Initial(), trace) == Value()
    }

    constructor ()
      ensures Valid() && trace == []
    {
      wakeCh, now, lastSessionStart, at, trace := false, 0, None, Waiting, [];
    }

    ghost method Note(s: Step, before: Loop)
      requires Legal(Initial(), trace) && Run(Initial(), trace) == before
      requires Enabled(before, s) && Value() == Apply(before, s)
      modifies `trace
      ensures Valid() && trace == old(trace) + [s]
    {
      TraceGrows(trace, before, s);
      trace := trace + [s];
    }

    method Signal()
      requires Valid()
      modifies this
      ensures Valid() && trace == old(trace) + [Wake] && Value() == old(Value()).(wake := true)
    {
      ghost var before := Value();
      wakeCh := true;
      Note(Wake, before);
    }

    method Pass(d: nat)
      requires Valid()
      modifies this
      ensures Valid() && trace == old(trace) + [Tick(d)] && Value() == old(Value()).(now := old(now) + d)
    {
      ghost var before := Value();
      now := now + d;
      Note(Tick(d), before);
    }

    /** The world around the loop moves on. */
    method Await(h: Happening)
      requires Valid()
      modifies this
      ensures Valid() && trace == old(trace) + Around(h) && Value() == Later(old(Value()), h)
    {
      if h.wakes { Signal(); }
      Pass(h.pass);
    }

    /** The select on the wake channel. */
    method WaitForWake(h: Happening) returns (woken: bool)
      requires Valid() && at.Waiting?
      modifies this
      ensures woken == at.Pulling? && (at.Waiting? || at.Pulling?)
      ensures Valid() && trace == old(trace) + Moves(old(Value()), h) && Value() == Next(old(Value()), h)
    {
      Await(h);
      woken := wakeCh;
      if woken {
        ghost var before := Value();
        wakeCh, at := false, Pulling;
        Note(Receive, before);
      }
    }

    method BeginSession(h: Happening) returns (reply: Reply)
      requires Valid() && at.Pulling? && Gap(Value()) == 0
      modifies this
      ensures Valid() && reply == (if h.token then h.reply else Failed)
      ensures trace == old(trace) + [Call(h.token)] + if h.token then Around(h) + Answered(h.reply)[..1] else []
      ensures var l := if h.token then Later(old(Value()), h) else old(Value());
              Value() == match reply
                         case Failed => l.(at := BackingOff)
                         case Idle => l.(at := Waiting)
                         case Work => l.(at := InSession, last := Some(l.now))
    {
      ghost var before := Value();
      at := if h.token then Calling else BackingOff;
      Note(Call(h.token), before);
      if !h.token { return Failed; }
      Await(h);
      before := Value();
      reply := h.reply;
      match reply {
        case Failed => at := BackingOff; Note(ReplyError, before);
        case Idle => at := Waiting; Note(ReplyIdle, before);
        case Work => at := InSession; lastSessionStart := Some(now); Note(ReplyWork, before);
      }
    }

    /** Waits out the gap since the last session started. */
    method KeepDistance()
      requires Valid() && at.Pulling?
      modifies this
      ensures Valid() && trace == old(trace) + [Tick(Gap(old(Value())))]
      ensures Value() == old(Value()).(now := old(now) + Gap(old(Value()))) && Gap(Value()) == 0
    {
      Pass(if lastSessionStart.Some? && now - lastSessionStart.value < MIN_SESSION_GAP
           then MIN_SESSION_GAP - (now - lastSessionStart.value) else 0);
    }

    /** The call, and the backoff or the session it leads to. */
    method PullNow(h: Happening) returns (idle: bool)
      requires Valid() && at.Pulling? && Gap(Value()) == 0
      modifies this
      ensures Valid() && Value() == Next(old(Value()), h) && idle == at.Waiting? && (at.Waiting? || at.Pulling?)
      ensures trace == old(trace) + [Call(h.token)] + if h.token then Around(h) + Answered(h.reply) else [Retry]
    {
      var reply := BeginSession(h);
      ghost var before := Value();
      match reply {
        case Failed =>
          at := Pulling;
          Note(Retry, before);
        case Idle =>
        case Work =>
          at := Pulling;
          Note(EndSession, before);
      }
      idle := reply.Idle?;
      assert Answered(reply)[..1] + Answered(reply)[1..] == Answered(reply);
    }

    method PullOnce(h: Happening) returns (idle: bool)
      requires Valid() && at.Pulling?
      modifies this
      ensures Valid() && trace == old(trace) + Moves(old(Value()), h) && Value() == Next(old(Value()), h)
      ensures idle == at.Waiting? && (at.Waiting? || at.Pulling?)
    {
      KeepDistance();
      idle := PullNow(h);
    }

    /** The pass, until an idle reply or the end of the script. */
    method DrainPass(script: seq<Happening>, start: nat, ghost base: seq<Step>, ghost from: Loop) returns (i: nat, idle: bool)
      requires Valid() && at.Pulling? && PlayedSoFar(base, from, script, start, trace, Value())
      modifies this
      ensures start <= i <= |script| && Valid() && idle == at.Waiting? && (!idle ==> i == |script|)
      ensures PlayedSoFar(base, from, script, i, trace, Value())
    {
      i, idle := start, false;
      while !idle && i < |script|
        invariant start <= i <= |script| && Valid() && idle == at.Waiting? && (at.Waiting? || at.Pulling?)
        invariant PlayedSoFar(base, from, script, i, trace, Value())
        decreases |script| - i
      {
        PlayedFurther(base, from, script, i, trace, Value());
        idle := PullOnce(script[i]);
        i := i + 1;
      }
    }

    /** The loop, for as long as the script of its world lasts: whatever the
        world does, its history is this run of the machine. */
    method DrainLoop(script: seq<Happening>)
      requires Valid() && at.Waiting?
      modifies this
      ensures Valid() && trace == old(trace) + Moved(old(Value()), script)
    {
      var i, waiting := 0, true;
      while waiting && i < |script|
        invariant i <= |script| && Valid() && (waiting ==> at.Waiting?) && (!waiting ==> i == |script|)
        invariant PlayedSoFar(old(trace), old(Value()), script, i, trace, Value())
        decreases |script| - i
      {
        PlayedFurther(old(trace), old(Value()), script, i, trace, Value());
        var woken := WaitForWake(script[i]);
        i := i + 1;
        if woken { i, waiting := DrainPass(script, i, old(trace), old(Value())); }
      }
      assert Moved(Value(), []) == [] && trace + [] == trace;
    }
  }
}
