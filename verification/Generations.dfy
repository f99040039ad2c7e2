/** All threads around one session, one critical section at a time: the turns
    (one after the other), one reaper per process, the idle-eviction callbacks,
    process exits, and the traffic on the channels. */
module Generations {
  import opened Envelope
  import opened Residency
  import R = Residency

  /** Where the turn stands. `Booting`, `Ready`, `Opened`, `InTurn` and `Ending`
      hold the process of that generation. */
  datatype Turn =
    | NoTurn
    | Waiting(reap: Option<nat>)     // for an eviction to end
    | Spawning
    | Booting(gen: nat)              // the startup handshake
    | Killing(reap: Option<nat>)     // a wedged startup
    | Ready(gen: nat)
    | Opened(gen: nat)
    | InTurn(gen: nat)
    | Ending(gen: nat)

  /** A reaper: waits for its process, then takes the turn's channel, closes it,
      closes the response channels, resets the start state, and closes the
      waitDone it captured. */
  datatype Pump = Attached | TookTurn(ch: Option<nat>) | ClosedTurn | ClosedResp | Reset(reap: Option<nat>) | Finished

  /** An eviction past its point of no return. */
  datatype Evictor = Evictor(gen: nat, reap: Option<nat>)

  datatype Sys = Sys(
    s: Session, turn: Turn, pumps: seq<Pump>, evictors: seq<Evictor>,
    dead: set<nat>, doomed: set<nat>, closedWaits: set<nat>,
    closedTurns: set<nat>, routed: set<nat>, answered: set<nat>, closedResps: set<nat>,
    next: nat, cancelled: bool)

  datatype Step =
    | Claim | Wake | Start(spawns: bool) | Boot | BootTimeout | Killed
    | OpenTurn | StopTimer | CloseTurn | ArmTimer
    | Exit(gen: nat)
    | PumpTurn(gen: nat) | PumpCloseTurn(gen: nat) | PumpResp(gen: nat) | PumpReset(gen: nat) | PumpDone(gen: nat)
    | Evict                 // any armed timer's callback, stale ones too
    | EvictDone(i: nat)
    | Halt                  // the section of Stop and of Kill
    | Cancel                // Stop cancels the session's context
    | SendEvent
    | Register(id: nat) | Forget(id: nat) | Route(id: nat) | Answer(ch: nat)

  function Holder(t: Turn): Option<nat> {
    match t
    case Booting(g) => Some(g)
    case Ready(g) => Some(g)
    case Opened(g) => Some(g)
    case InTurn(g) => Some(g)
    case Ending(g) => Some(g)
    case _ => None
  }

  predicate Closed(y: Sys, reap: Option<nat>) {
    reap.Some? && reap.value in y.closedWaits
  }


  predicate Enabled(y: Sys, t: Step) {
    match t
    case Claim => y.turn.NoTurn?
    case Wake => y.turn.Waiting? && (y.turn.reap.None? || Closed(y, y.turn.reap))
    case Start(spawns) => y.turn.Spawning? && (y.cancelled ==> !spawns)
    case Boot => y.turn.Booting?
    case BootTimeout => y.turn.Booting?
    case Killed => y.turn.Killing? && Closed(y, y.turn.reap)
    case OpenTurn => y.turn.Ready?
    case StopTimer => y.turn.Opened?
    case CloseTurn => y.turn.InTurn?
    case ArmTimer => y.turn.Ending?
    case Exit(g) => 0 < g <= y.s.gen
    case PumpTurn(g) => g in y.dead && y.s.flavor.Pi? && 0 < g <= |y.pumps| && y.pumps[g - 1].Attached?
    case PumpCloseTurn(g) => 0 < g <= |y.pumps| && y.pumps[g - 1].TookTurn?
    case PumpResp(g) => 0 < g <= |y.pumps| && y.pumps[g - 1].ClosedTurn?
    case PumpReset(g) =>
      0 < g <= |y.pumps| && if y.s.flavor.Pi? then y.pumps[g - 1].ClosedResp? else g in y.dead && y.pumps[g - 1].Attached?
    case PumpDone(g) => 0 < g <= |y.pumps| && y.pumps[g - 1].Reset?
    case Evict => true
    case EvictDone(i) => i < |y.evictors| && Closed(y, y.evictors[i].reap)
    case Halt => true
    case Cancel => true
    case SendEvent => y.s.active.Some?
    case Register(id) => y.s.flavor.Pi? && id !in y.s.resp
    case Forget(_) => true
    case Route(id) => id in y.s.resp
    case Answer(ch) => ch in y.routed
  }

  function ClaimBy(y: Sys): Sys {
    var c := R.Claim(y.s);
    y.(s := c.s, turn := if c.wait then Waiting(c.reap) else if c.alive then Ready(c.s.gen) else Spawning)
  }

  function StartBy(y: Sys, spawns: bool): Sys {
    var r := StartUp(y.s, spawns);
    match r.outcome
    case Up => y.(s := r.s, turn := Booting(r.s.gen), pumps := y.pumps + [Attached])
    case AlreadyUp => y.(s := r.s, turn := Ready(r.s.gen))
    case Failed => y.(s := r.s, turn := NoTurn)
  }

  /** The turn's own sections. */
  function TurnStep(y: Sys, t: Step): Sys
    requires Enabled(y, t)
  {
    match t
    case Claim => ClaimBy(y)
    case Wake => ClaimBy(y)
    case Start(spawns) => StartBy(y, spawns)
    case Boot => y.(turn := Ready(y.turn.gen))
    case BootTimeout => y.(turn := if y.s.started then Killing(y.s.waitDone) else NoTurn)
    case Killed => y.(turn := NoTurn)
    case OpenTurn => y.(s := TurnOpened(y.s, y.next), turn := Opened(y.turn.gen), next := y.next + 1)
    case StopTimer => y.(s := TimerStopped(y.s), turn := InTurn(y.turn.gen))
    case CloseTurn => y.(s := TurnCleared(y.s), turn := Ending(y.turn.gen))
    case ArmTimer => y.(s := TimerArmed(y.s), turn := NoTurn)
    case _ => y
  }

  /** A reaper's sections. */
  function PumpStep(y: Sys, t: Step): Sys
    requires Enabled(y, t)
  {
    match t
    case PumpTurn(g) => y.(s := TurnCleared(y.s), pumps := y.pumps[g - 1 := TookTurn(y.s.active)])
    case PumpCloseTurn(g) =>
      y.(pumps := y.pumps[g - 1 := ClosedTurn],
         closedTurns := y.closedTurns + if y.pumps[g - 1].ch.Some? then {y.pumps[g - 1].ch.value} else {})
    case PumpResp(g) => y.(s := Unblocked(y.s), pumps := y.pumps[g - 1 := ClosedResp], closedResps := y.closedResps + y.s.resp.Values)
    case PumpReset(g) => y.(s := Reap(y.s).s, pumps := y.pumps[g - 1 := Reset(Reap(y.s).reap)])
    case PumpDone(g) =>
      y.(pumps := y.pumps[g - 1 := Finished],
         closedWaits := y.closedWaits + if y.pumps[g - 1].reap.Some? then {y.pumps[g - 1].reap.value} else {})
    case _ => y
  }

  predicate ByPump(t: Step) {
    t.PumpTurn? || t.PumpCloseTurn? || t.PumpResp? || t.PumpReset? || t.PumpDone?
  }

  predicate ByTurn(t: Step) {
    || t.Claim? || t.Wake? || t.Start? || t.Boot? || t.BootTimeout? || t.Killed?
    || t.OpenTurn? || t.StopTimer? || t.CloseTurn? || t.ArmTimer?
  }

  function Apply(y: Sys, t: Step): Sys
    requires Enabled(y, t)
  {
    match t
    case Exit(g) => y.(dead := y.dead + {g})
    case Evict =>
      var e := R.Evict(y.s);
      if e.commits then y.(s := e.s, evictors := y.evictors + [Evictor(e.gen, e.reap)], doomed := y.doomed + {e.gen})
      else y.(s := e.s)
    case EvictDone(i) => y.(s := EvictEnded(y.s), evictors := y.evictors[..i] + y.evictors[i + 1..])
    case Halt => y.(s := TimerStopped(y.s))
    case Cancel => y.(cancelled := true)
    case SendEvent => y
    case Register(id) => y.(s := Registered(y.s, id, y.next), next := y.next + 1)
    case Forget(id) => y.(s := Forgotten(y.s, id))
    case Route(id) => y.(s := R.Route(y.s, id).s, routed := y.routed + {R.Route(y.s, id).ch.value})
    case Answer(ch) => y.(routed := y.routed - {ch}, answered := y.answered + {ch})
    case _ => if ByPump(t) then PumpStep(y, t) else TurnStep(y, t)
  }

  predicate Legal(y: Sys, ts: seq<Step>)
    decreases |ts|
  {
    ts != [] ==> Enabled(y, ts[0]) && Legal(Apply(y, ts[0]), ts[1..])
  }

  function Run(y: Sys, ts: seq<Step>): Sys
    requires Legal(y, ts)
    decreases |ts|
  {
    if ts == [] then y else Run(Apply(y, ts[0]), ts[1..])
  }

  function Initial(flavor: Flavor, evictable: bool): Sys {
    Sys(NewSession(flavor, evictable), NoTurn, [], [], {}, {}, {}, {}, {}, {}, {}, 0, false)
  }

  // ---------- what every reachable state keeps ----------

  predicate Living(p: Pump) {
    p.Attached? || p.TookTurn? || p.ClosedTurn? || p.ClosedResp?
  }

  /** The process side: one reaper per generation; the newest is before its reset
      exactly while the session counts as started; each closes its own waitDone. */
  predicate Pumps(y: Sys) {
    && |y.pumps| == y.s.gen
    && (y.s.started ==> y.s.gen > 0 && y.s.waitDone == Some(y.s.gen))
    && (forall g :: g in y.closedWaits ==> 0 < g <= y.s.gen)
    && forall i :: 0 <= i < |y.pumps| ==>
         && (Living(y.pumps[i]) <==> y.s.started && i + 1 == y.s.gen)
         && (y.pumps[i].Reset? ==> y.pumps[i].reap == Some(i + 1))
         && (y.pumps[i].Finished? <==> i + 1 in y.closedWaits)
  }

  /** Evictions and turns. */
  predicate Claims(y: Sys) {
    && (!y.turn.NoTurn? && !y.turn.Waiting? ==> !y.s.idleTimer && !y.s.evicting)
    && (y.s.evicting ==> !y.s.idleTimer)
    && |y.evictors| == (if y.s.evicting then 1 else 0)
    && (y.s.evicting ==> y.s.gen > 0 && y.evictors[0] == Evictor(y.s.gen, Some(y.s.gen)))
    && (forall g :: g in y.doomed ==> 0 < g <= y.s.gen && (g in y.closedWaits || (y.s.evicting && g == y.s.gen)))
    && (Holder(y.turn).Some? ==> Holder(y.turn).value == y.s.gen && y.s.gen !in y.doomed)
  }

  /** The turn's channel and those a reaper took. */
  predicate TurnChannels(y: Sys) {
    && (y.s.active.Some? ==> y.s.active.value < y.next && y.s.active.value !in y.closedTurns)
    && (forall ch :: ch in y.closedTurns ==> ch < y.next)
    && forall i :: 0 <= i < |y.pumps| && y.pumps[i].TookTurn? && y.pumps[i].ch.Some? ==>
         var ch := y.pumps[i].ch.value; ch < y.next && ch !in y.closedTurns && y.s.active != Some(ch)
  }

  /** The response channels that are waited on. */
  predicate Pending(y: Sys) {
    && (forall id :: id in y.s.resp ==>
          var ch := y.s.resp[id];
          ch < y.next && ch !in y.routed && ch !in y.answered && ch !in y.closedResps)
    && (forall id, id' :: id in y.s.resp && id' in y.s.resp && y.s.resp[id] == y.s.resp[id'] ==> id == id')
  }

  /** Those taken out to be answered, answered, or closed. */
  predicate Settled(y: Sys) {
    && (forall ch :: ch in y.routed ==> ch < y.next)
    && (forall ch :: ch in y.answered ==> ch < y.next)
    && (forall ch :: ch in y.closedResps ==> ch < y.next)
    && y.routed !! y.closedResps && y.routed !! y.answered
  }

  /** A wait is for the end of a process that there is. */
  predicate Waits(y: Sys) {
    && (y.turn.Waiting? && y.turn.reap.Some? ==> 0 < y.turn.reap.value <= y.s.gen)
    && (y.turn.Killing? ==> y.turn.reap.Some? && 0 < y.turn.reap.value <= y.s.gen)
    && (y.s.waitDone.Some? ==> 0 < y.s.waitDone.value <= y.s.gen)
    && (y.s.flavor.Thread? ==>
          forall i :: 0 <= i < |y.pumps| ==> y.pumps[i].Attached? || y.pumps[i].Reset? || y.pumps[i].Finished?)
  }

  predicate Inv(y: Sys) {
    Pumps(y) && Claims(y) && TurnChannels(y) && Pending(y) && Settled(y) && Waits(y)
  }

  lemma TurnStepKeeps(y: Sys, t: Step)
    requires Pumps(y) && Waits(y) && Enabled(y, t) && ByTurn(t)
    ensures Pumps(TurnStep(y, t)) && Waits(TurnStep(y, t))
  {
  }

  lemma TurnStepKeepsChannels(y: Sys, t: Step)
    requires TurnChannels(y) && Pending(y) && Settled(y) && Enabled(y, t) && ByTurn(t)
    ensures TurnChannels(TurnStep(y, t)) && Pending(TurnStep(y, t)) && Settled(TurnStep(y, t))
  {
  }

  lemma RunningIsNotDoomed(y: Sys)
    requires Pumps(y) && Claims(y) && y.s.started && !y.s.evicting
    ensures y.s.gen !in y.doomed
  {
    assert Living(y.pumps[y.s.gen - 1]);
  }

  lemma TurnStepKeepsClaims(y: Sys, t: Step)
    requires Pumps(y) && Claims(y) && Enabled(y, t) && ByTurn(t)
    ensures Claims(TurnStep(y, t))
  {
    if y.s.started && !y.s.evicting { RunningIsNotDoomed(y); }
  }

  lemma PumpStepKeepsPumps(y: Sys, t: Step)
    requires Pumps(y) && Enabled(y, t) && ByPump(t)
    ensures Pumps(PumpStep(y, t)) && (Waits(y) ==> Waits(PumpStep(y, t)))
  {
  }

  lemma PumpStepKeepsClaims(y: Sys, t: Step)
    requires Claims(y) && Enabled(y, t) && ByPump(t)
    ensures Claims(PumpStep(y, t))
  {
  }

  lemma PumpStepKeepsChannels(y: Sys, t: Step)
    requires Pumps(y) && TurnChannels(y) && Pending(y) && Settled(y) && Enabled(y, t) && ByPump(t)
    ensures TurnChannels(PumpStep(y, t)) && Pending(PumpStep(y, t)) && Settled(PumpStep(y, t))
  {
  }

  /** Evictions, exits and Stop leave the channels alone; traffic leaves
      everything else alone. */
  lemma OthersKeepProcesses(y: Sys, t: Step)
    requires Pumps(y) && Claims(y) && Waits(y) && Enabled(y, t) && !ByTurn(t) && !ByPump(t)
    ensures Pumps(Apply(y, t)) && Claims(Apply(y, t)) && Waits(Apply(y, t))
  {
    if t.Evict? {
      EvictKeepsProcesses(y);
    } else if t.EvictDone? {
      EvictDoneKeepsProcesses(y, t.i);
    } else {
      TrafficKeepsProcesses(y, t);
    }
  }

  lemma EvictKeepsProcesses(y: Sys)
    requires Pumps(y) && Claims(y) && Waits(y)
    ensures Pumps(Apply(y, Evict)) && Claims(Apply(y, Evict)) && Waits(Apply(y, Evict))
  {
  }

  lemma EvictDoneKeepsProcesses(y: Sys, i: nat)
    requires Pumps(y) && Claims(y) && Waits(y) && Enabled(y, EvictDone(i))
    ensures Pumps(Apply(y, EvictDone(i))) && Claims(Apply(y, EvictDone(i))) && Waits(Apply(y, EvictDone(i)))
  {
  }

  /** What the rest touches is the channels, the timer and what has died. */
  lemma TrafficIsElsewhere(y: Sys, t: Step)
    requires Enabled(y, t) && !ByTurn(t) && !ByPump(t) && !t.Evict? && !t.EvictDone?
    ensures var z := Apply(y, t);
            && z.turn == y.turn && z.pumps == y.pumps && z.evictors == y.evictors && z.doomed == y.doomed
            && z.closedWaits == y.closedWaits
            && z.s.(idleTimer := y.s.idleTimer, active := y.s.active, resp := y.s.resp) == y.s
            && (z.s.idleTimer ==> y.s.idleTimer)
  {
  }

  lemma TrafficKeepsProcesses(y: Sys, t: Step)
    requires Pumps(y) && Claims(y) && Waits(y) && Enabled(y, t) && !ByTurn(t) && !ByPump(t) && !t.Evict? && !t.EvictDone?
    ensures Pumps(Apply(y, t)) && Claims(Apply(y, t)) && Waits(Apply(y, t))
  {
    TrafficIsElsewhere(y, t);
  }

  lemma OthersKeepChannels(y: Sys, t: Step)
    requires TurnChannels(y) && Pending(y) && Settled(y) && Enabled(y, t) && !ByTurn(t) && !ByPump(t)
    ensures TurnChannels(Apply(y, t)) && Pending(Apply(y, t)) && Settled(Apply(y, t))
  {
  }

  lemma StepKeepsInv(y: Sys, t: Step)
    requires Inv(y) && Enabled(y, t)
    ensures Inv(Apply(y, t))
  {
    if ByTurn(t) {
      TurnStepKeeps(y, t);
      TurnStepKeepsChannels(y, t);
      TurnStepKeepsClaims(y, t);
    } else if ByPump(t) {
      PumpStepKeepsPumps(y, t);
      PumpStepKeepsClaims(y, t);
      PumpStepKeepsChannels(y, t);
    } else {
      OthersKeepProcesses(y, t);
      OthersKeepChannels(y, t);
    }
  }

  lemma {:induction false} RunKeepsInv(y: Sys, ts: seq<Step>)
    requires Inv(y) && Legal(y, ts)
    ensures Inv(Run(y, ts))
    decreases |ts|
  {
    if ts != [] {
      StepKeepsInv(y, ts[0]);
      RunKeepsInv(Apply(y, ts[0]), ts[1..]);
    }
  }

  // ---------- theorems ----------

  /** In every interleaving, with callbacks of any arming: an eviction can commit
      only while no turn holds the process, and a turn never holds a process
      that an eviction has committed to kill. */
  lemma EvictionNeverRacesATurn(flavor: Flavor, evictable: bool, ts: seq<Step>)
    requires Legal(Initial(flavor, evictable), ts)
    ensures var y := Run(Initial(flavor, evictable), ts);
            && (Commits(y.s) ==> Holder(y.turn).None?)
            && (Holder(y.turn).Some? ==> Holder(y.turn).value !in y.doomed && !y.s.evicting)
            && |y.evictors| <= 1
  {
    RunKeepsInv(Initial(flavor, evictable), ts);
  }

  /** In every reachable state, whatever is closed or sent on next is still open:
      a reaper closes the waitDone of its own process and of no other, and each is
      closed exactly when its reaper has finished; the channel that events go to
      and the one a reaper is about to close are open and not the same; every
      channel a response goes to is open and has had none. */
  lemma GenerationsDoNotCross(flavor: Flavor, evictable: bool, ts: seq<Step>)
    requires Legal(Initial(flavor, evictable), ts)
    ensures var y := Run(Initial(flavor, evictable), ts);
            && (forall i :: 0 <= i < |y.pumps| ==>
                  && (y.pumps[i].Reset? ==> y.pumps[i].reap == Some(i + 1) && i + 1 !in y.closedWaits)
                  && (y.pumps[i].Finished? <==> i + 1 in y.closedWaits)
                  && (y.pumps[i].TookTurn? && y.pumps[i].ch.Some? ==> y.pumps[i].ch.value !in y.closedTurns && y.pumps[i].ch != y.s.active))
            && (y.s.active.Some? ==> y.s.active.value !in y.closedTurns)
            && (forall id :: id in y.s.resp ==> y.s.resp[id] !in y.closedResps + y.answered + y.routed)
            && (forall id, id' :: id in y.s.resp && id' in y.s.resp && id != id' ==> y.s.resp[id] != y.s.resp[id'])
            && (forall ch :: ch in y.routed ==> ch !in y.closedResps && ch !in y.answered)
  {
    RunKeepsInv(Initial(flavor, evictable), ts);
    var y := Run(Initial(flavor, evictable), ts);
    forall i | 0 <= i < |y.pumps| && y.pumps[i].Reset? ensures i + 1 !in y.closedWaits {
      assert !y.pumps[i].Finished?;
    }
  }

  /** A reaper's next section. */
  function NextOf(y: Sys, g: nat): Step
    requires 0 < g <= |y.pumps|
  {
    match y.pumps[g - 1]
    case Attached => if g !in y.dead then Exit(g) else if y.s.flavor.Pi? then PumpTurn(g) else PumpReset(g)
    case TookTurn(_) => PumpCloseTurn(g)
    case ClosedTurn => PumpResp(g)
    case ClosedResp => PumpReset(g)
    case Reset(_) => PumpDone(g)
    case Finished => Halt
  }

  function Remaining(y: Sys, g: nat): nat
    requires 0 < g <= |y.pumps|
  {
    match y.pumps[g - 1]
    case Attached => if g !in y.dead then 6 else 5
    case TookTurn(_) => 4
    case ClosedTurn => 3
    case ClosedResp => 2
    case Reset(_) => 1
    case Finished => 0
  }

  lemma ReaperAdvances(y: Sys, g: nat)
    requires Inv(y) && 0 < g <= |y.pumps| && !y.pumps[g - 1].Finished?
    ensures var t := NextOf(y, g); Enabled(y, t) && var y' := Apply(y, t);
            && |y'.pumps| == |y.pumps| && y'.turn == y.turn && y'.evictors == y.evictors
            && Remaining(y', g) < Remaining(y, g)
  {
  }

  predicate ByReaper(t: Step) {
    t.Exit? || ByPump(t)
  }

  lemma ReaperFinishes(y: Sys, g: nat) returns (ts: seq<Step>)
    requires Inv(y) && 0 < g <= |y.pumps|
    ensures Legal(y, ts) && |ts| <= Remaining(y, g) && forall t :: t in ts ==> ByReaper(t)
    ensures var y' := Run(y, ts); g in y'.closedWaits && y'.turn == y.turn && y'.evictors == y.evictors
    decreases Remaining(y, g)
  {
    if y.pumps[g - 1].Finished? {
      ts := [];
    } else {
      ReaperAdvances(y, g);
      var t := NextOf(y, g);
      StepKeepsInv(y, t);
      var rest := ReaperFinishes(Apply(y, t), g);
      ts := [t] + rest;
      assert ts[1..] == rest;
    }
  }

  predicate CanGoOn(y: Sys) {
    && (y.turn.Waiting? ==> Enabled(y, Wake))
    && (y.turn.Killing? ==> Enabled(y, Killed))
    && (y.turn.NoTurn? && y.evictors != [] ==> Enabled(y, EvictDone(0)))
  }

  lemma ReapEndsTheWait(y: Sys) returns (more: seq<Step>)
    requires Inv(y)
    ensures Legal(y, more) && |more| <= 6 && (forall t :: t in more ==> ByReaper(t)) && CanGoOn(Run(y, more))
  {
    more := [];
    if (y.turn.Waiting? || y.turn.Killing?) && y.turn.reap.Some? {
      more := ReaperFinishes(y, y.turn.reap.value);
    } else if y.turn.NoTurn? && y.evictors != [] {
      more := ReaperFinishes(y, y.s.gen);
    }
  }

  /** A wait for a reap always ends once the process has exited, without any help
      from the one who waits: six steps of the process and its reaper at most,
      and the turn, or the eviction, can go on. */
  lemma NoWaitIsForever(flavor: Flavor, evictable: bool, ts: seq<Step>) returns (more: seq<Step>)
    requires Legal(Initial(flavor, evictable), ts)
    ensures var y := Run(Initial(flavor, evictable), ts);
            && Legal(y, more) && |more| <= 6 && (forall t :: t in more ==> ByReaper(t))
            && CanGoOn(Run(y, more))
  {
    RunKeepsInv(Initial(flavor, evictable), ts);
    more := ReapEndsTheWait(Run(Initial(flavor, evictable), ts));
  }

  // ---------- what eviction and the channels do achieve ----------

  predicate Untouched(y: Sys) {
    !y.s.idleTimer && !y.s.evicting && y.evictors == [] && y.doomed == {}
  }

  lemma StepLeavesUntouched(y: Sys, t: Step)
    requires Enabled(y, t) && !y.s.evictable && Untouched(y)
    ensures !Apply(y, t).s.evictable && Untouched(Apply(y, t))
  {
  }

  lemma {:induction false} RunLeavesUntouched(y: Sys, ts: seq<Step>)
    requires Legal(y, ts) && !y.s.evictable && Untouched(y)
    ensures !Run(y, ts).s.evictable && Untouched(Run(y, ts))
    decreases |ts|
  {
    if ts != [] {
      StepLeavesUntouched(y, ts[0]);
      RunLeavesUntouched(Apply(y, ts[0]), ts[1..]);
    }
  }

  /** With idle eviction off no timer is ever armed and no process is doomed. */
  lemma OffMeansNever(flavor: Flavor, ts: seq<Step>)
    requires Legal(Initial(flavor, false), ts)
    ensures Untouched(Run(Initial(flavor, false), ts))
  {
    RunLeavesUntouched(Initial(flavor, false), ts);
  }

  /** With it on, a turn that ends while the process is up arms the timer, and
      its callback, if it comes next, commits to kill that process. */
  lemma IdleSessionIsEvicted(y: Sys)
    requires Enabled(y, ArmTimer) && y.s.evictable && y.s.started
    ensures var z := Apply(y, ArmTimer);
            && z.turn.NoTurn? && z.s.idleTimer && Commits(z.s) && Enabled(z, Evict)
            && var e := Apply(z, Evict);
               && e.s.evicting && !e.s.idleTimer
               && e.evictors == y.evictors + [Evictor(y.s.gen, y.s.waitDone)] && e.doomed == y.doomed + {y.s.gen}
  {
  }

  lemma OneMore(y: Sys, t: Step, rest: seq<Step>)
    requires Enabled(y, t) && Legal(Apply(y, t), rest)
    ensures Legal(y, [t] + rest) && Run(y, [t] + rest) == Run(Apply(y, t), rest)
  {
    assert ([t] + rest)[1..] == rest;
  }

  /** Through the turn itself: its channel is opened, the timer stopped, the
      channel closed again, the timer armed. */
  const THROUGH := [OpenTurn] + ([StopTimer] + ([CloseTurn] + ([ArmTimer] + [])))

  lemma InTurnEnds(y: Sys)
    requires y.turn.InTurn? && !y.s.idleTimer
    ensures var ts := [CloseTurn] + ([ArmTimer] + []);
            Legal(y, ts) && var z := Run(y, ts);
            && z.turn.NoTurn? && z.pumps == y.pumps && z.evictors == y.evictors && z.doomed == y.doomed
            && z.s.started == y.s.started && z.s.gen == y.s.gen && z.s.active == None
            && (z.s.idleTimer <==> y.s.evictable && y.s.started)
  {
    OneMore(Apply(y, CloseTurn), ArmTimer, []);
    OneMore(y, CloseTurn, [ArmTimer] + []);
  }

  lemma ReadyTurnEnds(y: Sys)
    requires y.turn.Ready? && !y.s.idleTimer
    ensures Legal(y, THROUGH)
    ensures var z := Run(y, THROUGH);
            && z.turn.NoTurn? && z.pumps == y.pumps && z.evictors == y.evictors && z.doomed == y.doomed
            && z.s.started == y.s.started && z.s.gen == y.s.gen && z.s.active == None
            && (z.s.idleTimer <==> y.s.evictable && y.s.started)
  {
    var y1 := Apply(y, OpenTurn);
    var y2 := Apply(y1, StopTimer);
    InTurnEnds(y2);
    OneMore(y1, StopTimer, [CloseTurn] + ([ArmTimer] + []));
    OneMore(y, OpenTurn, [StopTimer] + ([CloseTurn] + ([ArmTimer] + [])));
  }

  /** A turn that finds no process gets a new one. */
  lemma FreshTurnEnds(y: Sys)
    requires y.turn.Spawning? && !y.s.started && !y.s.idleTimer && !y.cancelled
    ensures var ts := [Start(true)] + ([Boot] + THROUGH);
            Legal(y, ts) && var z := Run(y, ts);
            && z.turn.NoTurn? && z.s.started && z.s.gen == y.s.gen + 1 && z.pumps == y.pumps + [Attached]
            && z.evictors == y.evictors && z.doomed == y.doomed && (z.s.idleTimer <==> y.s.evictable)
  {
    var y2 := Apply(y, Start(true));
    var y3 := Apply(y2, Boot);
    ReadyTurnEnds(y3);
    OneMore(y2, Boot, THROUGH);
    OneMore(y, Start(true), [Boot] + THROUGH);
  }

  /** In any reachable state between turns, with no eviction under way and not
      stopped, a turn that nothing comes in the way of runs to its end: on the
      process that is up, or on a new one with a reaper of its own; and the timer
      is armed behind it exactly if eviction is on. */
  lemma TurnGoesThrough(flavor: Flavor, evictable: bool, ts: seq<Step>)
    requires Legal(Initial(flavor, evictable), ts)
    requires var y := Run(Initial(flavor, evictable), ts); y.turn.NoTurn? && !y.s.evicting && !y.cancelled
    ensures var y := Run(Initial(flavor, evictable), ts);
            var turn := [Claim] + if y.s.started then THROUGH else [Start(true)] + ([Boot] + THROUGH);
            Legal(y, turn) && var z := Run(y, turn);
            && z.turn.NoTurn? && z.s.started && z.evictors == y.evictors && z.doomed == y.doomed
            && (z.s.idleTimer <==> evictable)
            && (if y.s.started then z.s.gen == y.s.gen && z.pumps == y.pumps
                else z.s.gen == y.s.gen + 1 && z.pumps == y.pumps + [Attached])
  {
    RunKeepsInv(Initial(flavor, evictable), ts);
    EvictableStays(Initial(flavor, evictable), ts);
    var y := Run(Initial(flavor, evictable), ts);
    var y1 := Apply(y, Claim);
    if y.s.started {
      ReadyTurnEnds(y1);
      OneMore(y, Claim, THROUGH);
    } else {
      FreshTurnEnds(y1);
      OneMore(y, Claim, [Start(true)] + ([Boot] + THROUGH));
    }
  }

  lemma {:induction false} EvictableStays(y: Sys, ts: seq<Step>)
    requires Legal(y, ts)
    ensures Run(y, ts).s.evictable == y.s.evictable && Run(y, ts).s.flavor == y.s.flavor
    decreases |ts|
  {
    if ts != [] { EvictableStays(Apply(y, ts[0]), ts[1..]); }
  }

  lemma StepKeepsChannel(y: Sys, t: Step, ch: nat)
    requires Enabled(y, t) && (y.turn.Opened? || y.turn.InTurn?) && y.s.active == Some(ch) && !t.CloseTurn? && !t.PumpTurn?
    ensures var z := Apply(y, t); (z.turn.Opened? || z.turn.InTurn?) && z.s.active == Some(ch)
  {
  }

  lemma {:induction false} ChannelStays(y: Sys, ts: seq<Step>, ch: nat)
    requires Legal(y, ts) && (y.turn.Opened? || y.turn.InTurn?) && y.s.active == Some(ch) && LeavesChannel(ts)
    ensures Run(y, ts).s.active == Some(ch)
    decreases |ts|
  {
    if ts != [] {
      StepKeepsChannel(y, ts[0], ch);
      ChannelStays(Apply(y, ts[0]), ts[1..], ch);
    }
  }

  /** Events go to the turn's own channel from its opening on, until the turn or
      a reaper takes it. */
  lemma TurnHasItsChannel(y: Sys, ts: seq<Step>)
    requires Enabled(y, OpenTurn) && y.s.flavor.Pi? && Legal(Apply(y, OpenTurn), ts) && LeavesChannel(ts)
    ensures var z := Run(Apply(y, OpenTurn), ts); z.s.active == Some(y.next) && Enabled(z, SendEvent)
  {
    ChannelStays(Apply(y, OpenTurn), ts, y.next);
  }

  predicate LeavesResponse(ts: seq<Step>, id: nat) {
    forall k :: 0 <= k < |ts| ==> !ts[k].PumpResp? && ts[k] != Forget(id) && ts[k] != Route(id)
  }

  predicate LeavesChannel(ts: seq<Step>) {
    forall k :: 0 <= k < |ts| ==> !ts[k].CloseTurn? && !ts[k].PumpTurn?
  }

  lemma OwnStepsKeepResponses(y: Sys, t: Step)
    requires Enabled(y, t)
    ensures ByTurn(t) ==> TurnStep(y, t).s.resp == y.s.resp
    ensures ByPump(t) && !t.PumpResp? ==> PumpStep(y, t).s.resp == y.s.resp
  {
  }

  lemma StepKeepsRegistration(y: Sys, t: Step, id: nat, ch: nat)
    requires Enabled(y, t) && id in y.s.resp && y.s.resp[id] == ch && !t.PumpResp? && t != Forget(id) && t != Route(id)
    ensures var z := Apply(y, t); id in z.s.resp && z.s.resp[id] == ch
  {
    if ByTurn(t) || ByPump(t) {
      OwnStepsKeepResponses(y, t);
    } else {
      OthersKeepRegistration(y, t, id, ch);
    }
  }

  lemma OthersKeepRegistration(y: Sys, t: Step, id: nat, ch: nat)
    requires Enabled(y, t) && id in y.s.resp && y.s.resp[id] == ch && !ByTurn(t) && !ByPump(t) && t != Forget(id) && t != Route(id)
    ensures var z := Apply(y, t); id in z.s.resp && z.s.resp[id] == ch
  {
  }

  lemma {:induction false} RegistrationStays(y: Sys, ts: seq<Step>, id: nat, ch: nat)
    requires Legal(y, ts) && id in y.s.resp && y.s.resp[id] == ch && LeavesResponse(ts, id)
    ensures var z := Run(y, ts); id in z.s.resp && z.s.resp[id] == ch
    decreases |ts|
  {
    if ts != [] {
      StepKeepsRegistration(y, ts[0], id, ch);
      RegistrationStays(Apply(y, ts[0]), ts[1..], id, ch);
    }
  }

  /** The response to a registered id goes to the channel it was registered with,
      and to nobody afterwards, unless it is forgotten or the process reaped. */
  lemma ResponseFindsItsChannel(y: Sys, ts: seq<Step>, id: nat)
    requires Enabled(y, Register(id)) && Legal(Apply(y, Register(id)), ts) && LeavesResponse(ts, id)
    ensures var z := Run(Apply(y, Register(id)), ts);
            && Enabled(z, Route(id)) && Apply(z, Route(id)).routed == z.routed + {y.next}
            && id !in Apply(z, Route(id)).s.resp
            && Enabled(Apply(z, Route(id)), Answer(y.next))
            && Apply(Apply(z, Route(id)), Answer(y.next)).answered == z.answered + {y.next}
  {
    RegistrationStays(Apply(y, Register(id)), ts, id, y.next);
  }

  /** When the process has died, its reaper closes the channel of the turn that
      was waiting on it, and every response channel that was waited on. */
  lemma ReaperUnblocksTheTurn(y: Sys, g: nat)
    requires Enabled(y, PumpTurn(g))
    ensures var z := Apply(y, PumpTurn(g));
            && Enabled(z, PumpCloseTurn(g))
            && var c := Apply(z, PumpCloseTurn(g));
               && c.closedTurns == (y.closedTurns + if y.s.active.Some? then {y.s.active.value} else {}) && c.s.active == None
               && Enabled(c, PumpResp(g)) && Apply(c, PumpResp(g)).closedResps == y.closedResps + y.s.resp.Values
  {
  }

  lemma KillingLasts(y: Sys, t: Step)
    requires Enabled(y, t) && y.turn.Killing? && !t.Killed?
    ensures Apply(y, t).turn == y.turn
  {
  }

  lemma {:induction false} KillingStays(y: Sys, ts: seq<Step>)
    requires Legal(y, ts) && y.turn.Killing? && forall k :: 0 <= k < |ts| ==> !ts[k].Killed?
    ensures Run(y, ts).turn == y.turn
    decreases |ts|
  {
    if ts != [] {
      KillingLasts(y, ts[0]);
      KillingStays(Apply(y, ts[0]), ts[1..]);
    }
  }

  /** A turn whose process does not come up gives up only once that very process
      is reaped. */
  lemma WedgedStartupIsReaped(y: Sys, ts: seq<Step>)
    requires Inv(y) && y.turn.Booting? && y.s.started && Legal(Apply(y, BootTimeout), ts)
    requires forall k :: 0 <= k < |ts| ==> !ts[k].Killed?
    ensures var z := Run(Apply(y, BootTimeout), ts);
            && z.turn == Killing(Some(y.turn.gen))
            && (Enabled(z, Killed) <==> y.turn.gen in z.closedWaits)
            && (Enabled(z, Killed) ==> Apply(z, Killed).turn.NoTurn?)
  {
    KillingStays(Apply(y, BootTimeout), ts);
  }

  lemma NoSpawn(y: Sys, t: Step)
    requires Enabled(y, t) && y.cancelled
    ensures Apply(y, t).cancelled && Apply(y, t).s.gen == y.s.gen
  {
  }

  lemma {:induction false} NoSpawns(y: Sys, ts: seq<Step>)
    requires Legal(y, ts) && y.cancelled
    ensures Run(y, ts).s.gen == y.s.gen
    decreases |ts|
  {
    if ts != [] {
      NoSpawn(y, ts[0]);
      NoSpawns(Apply(y, ts[0]), ts[1..]);
    }
  }

  /** Once the session's context is cancelled no process is spawned any more. */
  lemma NoSpawnAfterStop(y: Sys, ts: seq<Step>)
    requires Legal(Apply(y, Cancel), ts)
    ensures Run(Apply(y, Cancel), ts).s.gen == y.s.gen
  {
    NoSpawns(Apply(y, Cancel), ts);
  }

  // ---------- the machine's steps are the sections ----------

  /** What a section tells its caller. */
  datatype Told =
    | Nothing
    | Claimed(wait: bool, reap: Option<nat>, alive: bool)
    | Started(outcome: R.Start)
    | Taken(ch: Option<nat>)              // a turn's channel, or a response's
    | Unblocks(channels: set<nat>)
    | Reaps(reap: Option<nat>)
    | Evicts(commits: bool, gen: nat, reap: Option<nat>)

  /** What the machine does beside the session in this step is what the section
      told its caller to do. */
  predicate Heeds(y: Sys, t: Step, told: Told)
    requires Enabled(y, t)
  {
    var y' := Apply(y, t);
    match t
    case Claim => told.Claimed? && y'.turn == TurnAfterClaim(y, told)
    case Wake => told.Claimed? && y'.turn == TurnAfterClaim(y, told)
    case Start(_) =>
      && told.Started?
      && y'.turn == (match told.outcome case Up => Booting(y'.s.gen) case AlreadyUp => Ready(y.s.gen) case Failed => NoTurn)
      && y'.pumps == y.pumps + if told.outcome.Up? then [Attached] else []
    case PumpTurn(g) => told.Taken? && y'.pumps == y.pumps[g - 1 := TookTurn(told.ch)]
    case PumpResp(_) => told.Unblocks? && y'.closedResps == y.closedResps + told.channels
    case PumpReset(g) => told.Reaps? && y'.pumps == y.pumps[g - 1 := Reset(told.reap)]
    case Evict =>
      && told.Evicts?
      && y'.evictors == (y.evictors + if told.commits then [Evictor(told.gen, told.reap)] else [])
      && y'.doomed == y.doomed + if told.commits then {told.gen} else {}
    case Route(_) => told.Taken? && told.ch.Some? && y'.routed == y.routed + {told.ch.value}
    case _ => told.Nothing?
  }

  function TurnAfterClaim(y: Sys, told: Told): Turn
    requires told.Claimed?
  {
    if told.wait then Waiting(told.reap) else if told.alive then Ready(y.s.gen) else Spawning
  }

  /** A step on a pi session, carried out by its methods; `ch` is the number of a
      channel made for it. */
  method PerformPi(p: PiSession, t: Step, ch: nat, ghost y: Sys) returns (told: Told)
    requires Enabled(y, t) && y.s == p.Value() && ch == y.next
    modifies p
    ensures p.Value() == Apply(y, t).s && Heeds(y, t, told)
  {
    told := Nothing;
    match t {
      case Claim => told := ClaimPi(p);
      case Wake => told := ClaimPi(p);
      case Start(spawns) => var outcome := p.Start(spawns); told := Started(outcome);
      case OpenTurn => p.BeginTurn(ch);
      case StopTimer => p.StopIdleTimer();
      case CloseTurn => p.EndTurn();
      case ArmTimer => p.ArmIdleTimer();
      case PumpTurn(_) => var taken := p.TakeTurn(); told := Taken(taken);
      case PumpResp(_) => var closed := p.Unblock(); told := Unblocks(closed);
      case PumpReset(_) => var reap := p.Reset(); told := Reaps(reap);
      case Evict => var commits, target, reap := p.EvictIdle(); told := Evicts(commits, target, reap);
      case EvictDone(_) => p.ClearEvicting();
      case Halt => p.StopIdleTimer();
      case Register(id) => p.Register(id, ch);
      case Forget(id) => p.Forget(id);
      case Route(id) => var routed := p.RouteResponse(id); told := Taken(routed);
      case _ =>
    }
  }

  method ClaimPi(p: PiSession) returns (told: Told)
    modifies p
    ensures told.Claimed? && Claiming(p.Value(), told.wait, told.reap, told.alive) == R.Claim(old(p.Value()))
  {
    var wait, reap, alive := p.EnsureStarted();
    told := Claimed(wait, reap, alive);
  }

  /** The same on a thread session, which has no response channels to unblock. */
  method PerformThread(p: ThreadSession, t: Step, ghost y: Sys) returns (told: Told)
    requires Enabled(y, t) && y.s == p.Value()
    modifies p
    ensures p.Value() == Apply(y, t).s && (!t.PumpResp? ==> Heeds(y, t, told))
  {
    told := Nothing;
    match t {
      case Claim => told := ClaimThread(p);
      case Wake => told := ClaimThread(p);
      case Start(spawns) => var outcome := p.Start(spawns); told := Started(outcome);
      case StopTimer => var running, reap := p.Halt();
      case ArmTimer => p.ArmIdleTimer();
      case PumpReset(_) => var reap := p.Reset(); told := Reaps(reap);
      case Evict => var commits, target, reap := p.EvictIdle(); told := Evicts(commits, target, reap);
      case EvictDone(_) => p.ClearEvicting();
      case Halt => var running, reap := p.Halt();
      case _ =>
    }
  }

  method ClaimThread(p: ThreadSession) returns (told: Told)
    modifies p
    ensures told.Claimed? && Claiming(p.Value(), told.wait, told.reap, told.alive) == R.Claim(old(p.Value()))
  {
    var wait, reap, alive := p.EnsureStarted();
    told := Claimed(wait, reap, alive);
  }
}
