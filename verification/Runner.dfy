/** The runner that swaps an agent's long-lived sessions: at most one pi session
    and one resident thread session, taken and replaced under one lock, stopped
    outside it (agentRunner). */
module Runner {
  import opened Envelope

  /** `launch` is the launch fingerprint, `prompt` all else. */
  datatype PiConfig = PiConfig(launch: nat, prompt: nat)

  /** `resident`: the thread protocol with resident mode on. */
  datatype AcpConfig = AcpConfig(resident: bool, launch: nat)

  /** A session and the launch shape it was made for. */
  datatype Sess = Sess(id: nat, launch: nat)

  /** The fields under the runner's lock. */
  datatype Held = Held(piConfig: Option<PiConfig>, piSession: Option<Sess>, threadSession: Option<Sess>, acpConfig: Option<AcpConfig>)

  // ---------- the sections ----------

  /** restartPiSession. */
  function Swapped(h: Held, s: Sess, cfg: PiConfig): Held {
    h.(piSession := Some(s), piConfig := Some(cfg))
  }

  function PiTaken(h: Held): Held {
    h.(piSession := None, piConfig := None)
  }

  function ThreadTaken(h: Held): Held {
    h.(threadSession := None)
  }

  /** The lazy creation when a turn finds a config and no session. */
  predicate Lacks(h: Held) {
    h.piConfig.Some? && h.piSession.None?
  }

  function PiBuilt(h: Held, id: nat): Held {
    if Lacks(h) then h.(piSession := Some(Sess(id, h.piConfig.value.launch))) else h
  }

  /** A turn's thread session is of the launch shape it asks for. */
  predicate Mismatch(h: Held, launch: nat) {
    h.threadSession.None? || h.threadSession.value.launch != launch
  }

  function ThreadBuilt(h: Held, id: nat, launch: nat): Held {
    if Mismatch(h, launch) then h.(threadSession := Some(Sess(id, launch))) else h
  }

  // ---------- every interleaving of the sections ----------

  /** What an operation has in hand between its sections: a session it made and
      will install, one it took out and will stop, a config it found to keep the
      launch shape, or a turn that found no pi config. */
  datatype Task = Install(s: Sess, cfg: PiConfig) | ToStop(s: Sess) | Keep(cfg: PiConfig) | Turn

  datatype World = World(held: Held, tasks: seq<Task>, created: set<nat>, stopped: set<nat>, next: nat)

  datatype Step =
    | MakePi(cfg: PiConfig)              // restartPiSession makes the new session
    | Swap(i: nat)                       // and installs it
    | TakePi                             // stopPiSession
    | TakeThread                         // stopThreadSession
    | CheckPi(cfg: PiConfig)             // an assignment compares launch shapes
    | SetPi(i: nat)                      // and sets the config that keeps it
    | SetAcp(acp: Option<AcpConfig>)
    | BuildPi                            // the turn's snapshot, with the lazy creation
    | BuildThread(i: nat, launch: nat)   // the turn's thread session
    | BuildPlain(i: nat)                 // or a runtime of its own
    | StopTaken(i: nat)                  // Stop on a session taken out

  function ToStopIf(s: Option<Sess>): seq<Task> {
    if s.Some? then [ToStop(s.value)] else []
  }

  predicate Enabled(w: World, t: Step) {
    match t
    case Swap(i) => i < |w.tasks| && w.tasks[i].Install?
    case SetPi(i) => i < |w.tasks| && w.tasks[i].Keep?
    case BuildThread(i, _) => i < |w.tasks| && w.tasks[i].Turn?
    case BuildPlain(i) => i < |w.tasks| && w.tasks[i].Turn?
    case StopTaken(i) => i < |w.tasks| && w.tasks[i].ToStop?
    case _ => true
  }

  function Without(ts: seq<Task>, i: nat): seq<Task>
    requires i < |ts|
  {
    ts[..i] + ts[i + 1..]
  }

  function Apply(w: World, t: Step): World
    requires Enabled(w, t)
  {
    match t
    case MakePi(cfg) =>
      w.(tasks := w.tasks + [Install(Sess(w.next, cfg.launch), cfg)], created := w.created + {w.next}, next := w.next + 1)
    case Swap(i) =>
      w.(held := Swapped(w.held, w.tasks[i].s, w.tasks[i].cfg), tasks := Without(w.tasks, i) + ToStopIf(w.held.piSession))
    case TakePi => w.(held := PiTaken(w.held), tasks := w.tasks + ToStopIf(w.held.piSession))
    case TakeThread => w.(held := ThreadTaken(w.held), tasks := w.tasks + ToStopIf(w.held.threadSession))
    case CheckPi(cfg) =>
      if w.held.piConfig.Some? && w.held.piConfig.value.launch == cfg.launch then w.(tasks := w.tasks + [Keep(cfg)]) else w
    case SetPi(i) => w.(held := w.held.(piConfig := Some(w.tasks[i].cfg)), tasks := Without(w.tasks, i))
    case SetAcp(cfg) => w.(held := w.held.(acpConfig := cfg))
    case BuildPi =>
      if w.held.piConfig.None? then w.(tasks := w.tasks + [Turn])
      else if Lacks(w.held) then w.(held := PiBuilt(w.held, w.next), created := w.created + {w.next}, next := w.next + 1)
      else w
    case BuildThread(i, launch) =>
      if Mismatch(w.held, launch) then
        w.(held := ThreadBuilt(w.held, w.next, launch), tasks := Without(w.tasks, i) + ToStopIf(w.held.threadSession),
           created := w.created + {w.next}, next := w.next + 1)
      else w.(tasks := Without(w.tasks, i))
    case BuildPlain(i) => w.(tasks := Without(w.tasks, i))
    case StopTaken(i) => w.(tasks := Without(w.tasks, i), stopped := w.stopped + {w.tasks[i].s.id})
  }

  predicate Legal(w: World, ts: seq<Step>)
    decreases |ts|
  {
    ts != [] ==> Enabled(w, ts[0]) && Legal(Apply(w, ts[0]), ts[1..])
  }

  function Run(w: World, ts: seq<Step>): World
    requires Legal(w, ts)
    decreases |ts|
  {
    if ts == [] then w else Run(Apply(w, ts[0]), ts[1..])
  }

  const EMPTY: World := World(Held(None, None, None, None), [], {}, {}, 0)

  // ---------- no session is orphaned ----------

  function Is(s: Option<Sess>, id: nat): nat {
    if s.Some? && s.value.id == id then 1 else 0
  }

  function Holds(t: Task, id: nat): nat {
    if (t.Install? || t.ToStop?) && t.s.id == id then 1 else 0
  }

  function InHand(ts: seq<Task>, id: nat): nat {
    if ts == [] then 0 else InHand(ts[..|ts| - 1], id) + Holds(ts[|ts| - 1], id)
  }

  /** In how many places a session is: held, in an operation's hands, stopped. */
  function Places(w: World, id: nat): nat {
    Is(w.held.piSession, id) + Is(w.held.threadSession, id) + InHand(w.tasks, id) + if id in w.stopped then 1 else 0
  }

  /** Every session made is in exactly one place, and no other is anywhere. */
  ghost predicate Accounted(w: World) {
    && (forall id: nat :: Places(w, id) == if id in w.created then 1 else 0)
    && forall id :: id in w.created ==> id < w.next
  }

  /** The same for one session. */
  predicate AccountedAt(w: World, id: nat) {
    Places(w, id) == (if id in w.created then 1 else 0) && (id in w.created ==> id < w.next)
  }

  lemma InHandGrows(ts: seq<Task>, t: Task, id: nat)
    ensures InHand(ts + [t], id) == InHand(ts, id) + Holds(t, id)
  {
    assert (ts + [t])[..|ts + [t]| - 1] == ts;
  }

  lemma {:induction false} InHandShrinks(ts: seq<Task>, i: nat, id: nat)
    requires i < |ts|
    ensures InHand(ts, id) == InHand(Without(ts, i), id) + Holds(ts[i], id)
  {
    if i == |ts| - 1 {
      assert Without(ts, i) == ts[..|ts| - 1];
    } else {
      var init, t := ts[..|ts| - 1], ts[|ts| - 1];
      InHandShrinks(init, i, id);
      assert Without(ts, i) == Without(init, i) + [t];
      InHandGrows(Without(init, i), t, id);
    }
  }

  lemma TasksGrow(ts: seq<Task>, s: Option<Sess>, id: nat)
    ensures InHand(ts + ToStopIf(s), id) == InHand(ts, id) + Is(s, id)
  {
    if s.Some? { InHandGrows(ts, ToStop(s.value), id); } else { assert ts + [] == ts; }
  }

  lemma MakeMovesOne(w: World, cfg: PiConfig, id: nat)
    requires AccountedAt(w, id)
    ensures var w' := Apply(w, MakePi(cfg)); Places(w', id) == if id in w'.created then 1 else 0
  {
    InHandGrows(w.tasks, Install(Sess(w.next, cfg.launch), cfg), id);
  }

  lemma SwapMovesOne(w: World, i: nat, id: nat)
    requires Enabled(w, Swap(i))
    ensures Places(Apply(w, Swap(i)), id) == Places(w, id)
  {
    InHandShrinks(w.tasks, i, id);
    TasksGrow(Without(w.tasks, i), w.held.piSession, id);
  }

  lemma TakeMovesNone(w: World, id: nat)
    ensures Places(Apply(w, TakePi), id) == Places(w, id)
  {
    TasksGrow(w.tasks, w.held.piSession, id);
  }

  lemma TakeThreadMovesNone(w: World, id: nat)
    ensures Places(Apply(w, TakeThread), id) == Places(w, id)
  {
    TasksGrow(w.tasks, w.held.threadSession, id);
  }

  lemma CheckMovesNone(w: World, cfg: PiConfig, id: nat)
    ensures Places(Apply(w, CheckPi(cfg)), id) == Places(w, id)
  {
    InHandGrows(w.tasks, Keep(cfg), id);
  }

  lemma TurnMovesOne(w: World, id: nat)
    requires AccountedAt(w, id)
    ensures var w' := Apply(w, BuildPi); Places(w', id) == if id in w'.created then 1 else 0
  {
    InHandGrows(w.tasks, Turn, id);
  }

  lemma BuildMovesOne(w: World, i: nat, launch: nat, id: nat)
    requires AccountedAt(w, id) && Enabled(w, BuildThread(i, launch))
    ensures var w' := Apply(w, BuildThread(i, launch)); Places(w', id) == if id in w'.created then 1 else 0
  {
    InHandShrinks(w.tasks, i, id);
    TasksGrow(Without(w.tasks, i), w.held.threadSession, id);
  }

  /** Steps that end a task. */
  lemma EndingMovesOne(w: World, t: Step, id: nat)
    requires AccountedAt(w, id) && Enabled(w, t) && (t.SetPi? || t.BuildPlain? || t.StopTaken?)
    ensures Places(Apply(w, t), id) == if id in Apply(w, t).created then 1 else 0
  {
    InHandShrinks(w.tasks, t.i, id);
  }

  lemma StepMovesOne(w: World, t: Step, id: nat)
    requires AccountedAt(w, id) && Enabled(w, t)
    ensures Places(Apply(w, t), id) == if id in Apply(w, t).created then 1 else 0
  {
    match t
    case MakePi(cfg) => MakeMovesOne(w, cfg, id);
    case Swap(i) => SwapMovesOne(w, i, id);
    case TakePi => TakeMovesNone(w, id);
    case TakeThread => TakeThreadMovesNone(w, id);
    case CheckPi(cfg) => CheckMovesNone(w, cfg, id);
    case SetPi(_) => EndingMovesOne(w, t, id);
    case SetAcp(_) =>
    case BuildPi => TurnMovesOne(w, id);
    case BuildThread(i, launch) => BuildMovesOne(w, i, launch, id);
    case BuildPlain(_) => EndingMovesOne(w, t, id);
    case StopTaken(_) => EndingMovesOne(w, t, id);
  }

  lemma StepKeepsAccount(w: World, t: Step)
    requires Accounted(w) && Enabled(w, t)
    ensures Accounted(Apply(w, t))
  {
    forall id: nat ensures Places(Apply(w, t), id) == if id in Apply(w, t).created then 1 else 0 {
      assert AccountedAt(w, id);
      StepMovesOne(w, t, id);
    }
  }

  lemma {:induction false} RunKeepsAccount(w: World, ts: seq<Step>)
    requires Accounted(w) && Legal(w, ts)
    ensures Accounted(Run(w, ts))
    decreases |ts|
  {
    if ts != [] {
      StepKeepsAccount(w, ts[0]);
      RunKeepsAccount(Apply(w, ts[0]), ts[1..]);
    }
  }

  /** Over any interleaving, every session ever made is held, in the hands of an
      operation, or stopped, in one place only; so once no operation is in
      progress, it is held or has been stopped. */
  lemma NoOrphanedSession(ts: seq<Step>)
    requires Legal(EMPTY, ts)
    ensures var w := Run(EMPTY, ts);
            && (forall id: nat :: id in w.created <==> Places(w, id) == 1)
            && (w.tasks == [] ==>
                  forall id :: id in w.created <==> Is(w.held.piSession, id) + Is(w.held.threadSession, id) == 1 || id in w.stopped)
  {
    RunKeepsAccount(EMPTY, ts);
    var w := Run(EMPTY, ts);
    forall id: nat ensures id in w.created <==> Places(w, id) == 1 {
    }
    if w.tasks == [] {
      forall id ensures id in w.created <==> Is(w.held.piSession, id) + Is(w.held.threadSession, id) == 1 || id in w.stopped {
        assert InHand(w.tasks, id) == 0 && Places(w, id) <= 1;
      }
    }
  }

  // ---------- config and session ----------

  /** A session comes with a config. */
  lemma {:induction false} SessionHasConfig(w: World, ts: seq<Step>)
    requires Legal(w, ts) && (w.held.piSession.Some? ==> w.held.piConfig.Some?)
    ensures var h := Run(w, ts).held; h.piSession.Some? ==> h.piConfig.Some?
    decreases |ts|
  {
    if ts != [] { SessionHasConfig(Apply(w, ts[0]), ts[1..]); }
  }

  lemma OneMore(w: World, t: Step, rest: seq<Step>)
    requires Enabled(w, t) && Legal(Apply(w, t), rest)
    ensures Legal(w, [t] + rest) && Run(w, [t] + rest) == Run(Apply(w, t), rest)
  {
    assert ([t] + rest)[1..] == rest;
  }

  predicate Paired(h: Held) {
    h.piConfig.Some? <==> h.piSession.Some?
  }

  /** A config that an assignment sets to keep the launch shape comes after a
      teardown took what it compared with. */
  predicate Late(h: Held, t: Step) {
    t.SetPi? && h.piConfig.None?
  }

  predicate NoneLate(w: World, ts: seq<Step>)
    requires Legal(w, ts)
    decreases |ts|
  {
    ts != [] ==> !Late(w.held, ts[0]) && NoneLate(Apply(w, ts[0]), ts[1..])
  }

  predicate AllPaired(w: World, ts: seq<Step>)
    requires Legal(w, ts)
    decreases |ts|
  {
    Paired(w.held) && (ts != [] ==> AllPaired(Apply(w, ts[0]), ts[1..]))
  }

  /** A config and a session come together in every state of a run exactly if no
      such config comes late. */
  lemma {:induction false} ConfigComesWithSession(w: World, ts: seq<Step>)
    requires Paired(w.held) && Legal(w, ts)
    ensures AllPaired(w, ts) <==> NoneLate(w, ts)
    decreases |ts|
  {
    if ts != [] {
      assert Paired(Apply(w, ts[0]).held) <==> !Late(w.held, ts[0]);
      if !Late(w.held, ts[0]) { ConfigComesWithSession(Apply(w, ts[0]), ts[1..]); }
    }
  }

  /** An assignment finds its launch shape unchanged, a teardown takes config and
      session, the assignment sets its config: a config without a session. */
  lemma ConfigWithoutSession(cfg: PiConfig, cfg': PiConfig)
    requires cfg.launch == cfg'.launch
    ensures var ts := [MakePi(cfg)] + ([Swap(0)] + ([CheckPi(cfg')] + ([TakePi] + ([SetPi(0)] + []))));
            Legal(EMPTY, ts) && Lacks(Run(EMPTY, ts).held)
  {
    var w1 := Apply(EMPTY, MakePi(cfg));
    var w2 := Apply(w1, Swap(0));
    var w3 := Apply(w2, CheckPi(cfg'));
    var w4 := Apply(w3, TakePi);
    assert w4.tasks[0] == Keep(cfg');
    OneMore(w4, SetPi(0), []);
    OneMore(w3, TakePi, [SetPi(0)] + []);
    OneMore(w2, CheckPi(cfg'), [TakePi] + ([SetPi(0)] + []));
    OneMore(w1, Swap(0), [CheckPi(cfg')] + ([TakePi] + ([SetPi(0)] + [])));
    OneMore(EMPTY, MakePi(cfg), [Swap(0)] + ([CheckPi(cfg')] + ([TakePi] + ([SetPi(0)] + []))));
  }

  // ---------- the launch shape ----------

  /** A pi session is of its config's launch shape. */
  predicate Fits(h: Held) {
    h.piSession.Some? ==> h.piConfig.Some? && h.piSession.value.launch == h.piConfig.value.launch
  }

  /** A config that an assignment sets to keep the launch shape comes after the
      session was replaced by one of another shape. */
  predicate Misfit(w: World, t: Step) {
    t.SetPi? && t.i < |w.tasks| && w.tasks[t.i].Keep? && w.held.piSession.Some? && w.held.piSession.value.launch != w.tasks[t.i].cfg.launch
  }

  /** A session in hand was made for the config that comes with it. */
  predicate MadeToFit(ts: seq<Task>) {
    forall k :: 0 <= k < |ts| && ts[k].Install? ==> ts[k].s.launch == ts[k].cfg.launch
  }

  predicate NoMisfit(w: World, ts: seq<Step>)
    requires Legal(w, ts)
    decreases |ts|
  {
    ts != [] ==> !Misfit(w, ts[0]) && NoMisfit(Apply(w, ts[0]), ts[1..])
  }

  predicate AllFit(w: World, ts: seq<Step>)
    requires Legal(w, ts)
    decreases |ts|
  {
    Fits(w.held) && (ts != [] ==> AllFit(Apply(w, ts[0]), ts[1..]))
  }

  lemma StepFits(w: World, t: Step)
    requires Fits(w.held) && MadeToFit(w.tasks) && Enabled(w, t)
    ensures MadeToFit(Apply(w, t).tasks) && (Fits(Apply(w, t).held) <==> !Misfit(w, t))
  {
  }

  /** The pi session is of its config's launch shape in every state of a run
      exactly if no kept config comes after another shape's session. */
  lemma {:induction false} SessionFitsConfig(w: World, ts: seq<Step>)
    requires Fits(w.held) && MadeToFit(w.tasks) && Legal(w, ts)
    ensures AllFit(w, ts) <==> NoMisfit(w, ts)
    decreases |ts|
  {
    if ts != [] {
      StepFits(w, ts[0]);
      if !Misfit(w, ts[0]) { SessionFitsConfig(Apply(w, ts[0]), ts[1..]); }
    }
  }

  predicate LeavesPi(ts: seq<Step>) {
    forall k :: 0 <= k < |ts| ==> !ts[k].Swap? && !ts[k].TakePi? && !ts[k].SetPi?
  }

  lemma {:induction false} ShapeStays(w: World, ts: seq<Step>)
    requires Legal(w, ts) && LeavesPi(ts) && Fits(w.held)
    ensures Run(w, ts).held.piConfig == w.held.piConfig && Fits(Run(w, ts).held)
    decreases |ts|
  {
    if ts != [] {
      ShapeStays(Apply(w, ts[0]), ts[1..]);
    }
  }

  /** What the comparison is for: an assignment keeps the session exactly if the
      config it finds is of the same launch shape, and then, if no swap, teardown
      or other assignment comes in between, the config it sets fits. */
  lemma KeptConfigFits(w: World, cfg: PiConfig, ts: seq<Step>)
    requires Fits(w.held) && Legal(Apply(w, CheckPi(cfg)), ts) && LeavesPi(ts)
    ensures var kept := w.held.piConfig.Some? && w.held.piConfig.value.launch == cfg.launch;
            && Apply(w, CheckPi(cfg)).tasks == w.tasks + (if kept then [Keep(cfg)] else [])
            && var z := Run(Apply(w, CheckPi(cfg)), ts);
               kept ==> z.held.piConfig.Some? && Fits(z.held.(piConfig := Some(cfg)))
  {
    ShapeStays(Apply(w, CheckPi(cfg)), ts);
  }

  /** The ACP config that the last assignment among these set. */
  function LastAcp(ts: seq<Step>, before: Option<AcpConfig>): Option<AcpConfig> {
    if ts == [] then before
    else if ts[|ts| - 1].SetAcp? then ts[|ts| - 1].acp
    else LastAcp(ts[..|ts| - 1], before)
  }

  lemma {:induction false} LastAcpFromTheFront(ts: seq<Step>, before: Option<AcpConfig>)
    requires ts != []
    ensures LastAcp(ts, before) == LastAcp(ts[1..], if ts[0].SetAcp? then ts[0].acp else before)
  {
    var n := |ts| - 1;
    if n > 0 {
      assert ts[1..][..n - 1] == ts[..n][1..] && ts[1..][n - 1] == ts[n];
      LastAcpFromTheFront(ts[..n], before);
    }
  }

  /** No other operation touches it. */
  lemma {:induction false} AcpConfigIsTheLast(w: World, ts: seq<Step>)
    requires Legal(w, ts)
    ensures Run(w, ts).held.acpConfig == LastAcp(ts, w.held.acpConfig)
    decreases |ts|
  {
    if ts != [] {
      LastAcpFromTheFront(ts, w.held.acpConfig);
      AcpConfigIsTheLast(Apply(w, ts[0]), ts[1..]);
    }
  }

  // ---------- the two runtimes ----------

  predicate Coexist(h: Held) {
    h.piSession.Some? && h.threadSession.Some?
  }

  /** What an operation saw before it took the lock still holds: a turn builds a
      thread session where there is no pi config, and a pi config comes where
      there is no thread session. */
  predicate UpToDate(h: Held, t: Step) {
    match t
    case Swap(_) => h.threadSession.None?
    case SetPi(_) => h.threadSession.None?
    case BuildThread(_, _) => h.piConfig.None?
    case _ => true
  }

  predicate AllUpToDate(w: World, ts: seq<Step>)
    requires Legal(w, ts)
    decreases |ts|
  {
    ts != [] ==> UpToDate(w.held, ts[0]) && AllUpToDate(Apply(w, ts[0]), ts[1..])
  }

  /** At most one runtime is configured or held. */
  predicate Apart(h: Held) {
    (h.piSession.Some? ==> h.piConfig.Some?) && (h.piConfig.Some? ==> h.threadSession.None?)
  }

  predicate AllApart(w: World, ts: seq<Step>)
    requires Legal(w, ts)
    decreases |ts|
  {
    Apart(w.held) && (ts != [] ==> AllApart(Apply(w, ts[0]), ts[1..]))
  }

  lemma StepKeepsApart(w: World, t: Step)
    requires Apart(w.held) && Enabled(w, t)
    ensures Apart(Apply(w, t).held) <==> UpToDate(w.held, t)
  {
  }

  /** The two runtimes stay apart in every state of a run exactly if every step's
      view is up to date; and apart they do not coexist. */
  lemma {:induction false} RuntimesStayApart(w: World, ts: seq<Step>)
    requires Apart(w.held) && Legal(w, ts)
    ensures AllApart(w, ts) <==> AllUpToDate(w, ts)
    ensures AllApart(w, ts) ==> !Coexist(Run(w, ts).held)
    decreases |ts|
  {
    if ts != [] {
      StepKeepsApart(w, ts[0]);
      if UpToDate(w.held, ts[0]) { RuntimesStayApart(Apply(w, ts[0]), ts[1..]); }
    }
  }

  /** A turn finds no pi config, an assignment switches the agent to pi, and the
      turn goes on to build its thread session: both runtimes end up held. */
  lemma RuntimesCanCoexist(cfg: PiConfig, launch: nat)
    ensures var ts := [BuildPi] + ([TakeThread] + ([MakePi(cfg)] + ([Swap(1)] + ([BuildThread(0, launch)] + []))));
            Legal(EMPTY, ts) && Coexist(Run(EMPTY, ts).held)
  {
    var w1 := Apply(EMPTY, BuildPi);
    var w2 := Apply(w1, TakeThread);
    var w3 := Apply(w2, MakePi(cfg));
    assert w3.tasks[0] == Turn && w3.tasks[1] == Install(Sess(0, cfg.launch), cfg);
    var w4 := Apply(w3, Swap(1));
    assert w4.tasks[0] == Turn && w4.held.threadSession == None;
    OneMore(w4, BuildThread(0, launch), []);
    OneMore(w3, Swap(1), [BuildThread(0, launch)] + []);
    OneMore(w2, MakePi(cfg), [Swap(1)] + ([BuildThread(0, launch)] + []));
    OneMore(w1, TakeThread, [MakePi(cfg)] + ([Swap(1)] + ([BuildThread(0, launch)] + [])));
    OneMore(EMPTY, BuildPi, [TakeThread] + ([MakePi(cfg)] + ([Swap(1)] + ([BuildThread(0, launch)] + []))));
  }

  // ---------- the operations, one at a time ----------

  datatype Assignment = Pi(cfg: Option<PiConfig>) | Acp(acp: Option<AcpConfig>)

  /** The books between operations. */
  datatype Books = Books(created: set<nat>, stopped: set<nat>, next: nat)

  ghost predicate Balanced(h: Held, b: Books) {
    Accounted(World(h, [], b.created, b.stopped, b.next))
  }

  function Made(b: Books): Books {
    b.(created := b.created + {b.next}, next := b.next + 1)
  }

  function Stopped(b: Books, s: Option<Sess>): Books {
    b.(stopped := b.stopped + if s.Some? then {s.value.id} else {})
  }

  /** An operation that takes a session out and stops it. */
  lemma TakenIsStopped(w: World, s: Option<Sess>)
    requires Accounted(w) && w.tasks == ToStopIf(s)
    ensures Balanced(w.held, Stopped(Books(w.created, w.stopped, w.next), s))
  {
    if s.Some? {
      StepKeepsAccount(w, StopTaken(0));
      assert Without(w.tasks, 0) == [];
    } else {
      assert w.stopped + {} == w.stopped;
    }
  }

  lemma RestartBalances(h: Held, b: Books, cfg: PiConfig)
    requires Balanced(h, b)
    ensures Balanced(Swapped(h, Sess(b.next, cfg.launch), cfg), Stopped(Made(b), h.piSession))
  {
    var w := World(h, [], b.created, b.stopped, b.next);
    StepKeepsAccount(w, MakePi(cfg));
    var w1 := Apply(w, MakePi(cfg));
    StepKeepsAccount(w1, Swap(0));
    assert Without(w1.tasks, 0) == [] && [] + ToStopIf(h.piSession) == ToStopIf(h.piSession);
    TakenIsStopped(Apply(w1, Swap(0)), h.piSession);
  }

  lemma PiTakenBalances(h: Held, b: Books)
    requires Balanced(h, b)
    ensures Balanced(PiTaken(h), Stopped(b, h.piSession))
  {
    var w := World(h, [], b.created, b.stopped, b.next);
    StepKeepsAccount(w, TakePi);
    assert [] + ToStopIf(h.piSession) == ToStopIf(h.piSession);
    TakenIsStopped(Apply(w, TakePi), h.piSession);
  }

  lemma ThreadTakenBalances(h: Held, b: Books)
    requires Balanced(h, b)
    ensures Balanced(ThreadTaken(h), Stopped(b, h.threadSession))
  {
    var w := World(h, [], b.created, b.stopped, b.next);
    StepKeepsAccount(w, TakeThread);
    assert [] + ToStopIf(h.threadSession) == ToStopIf(h.threadSession);
    TakenIsStopped(Apply(w, TakeThread), h.threadSession);
  }

  lemma ThreadBuiltBalances(h: Held, b: Books, launch: nat)
    requires Balanced(h, b) && Mismatch(h, launch)
    ensures Balanced(ThreadBuilt(h, b.next, launch), Stopped(Made(b), h.threadSession))
  {
    var w := World(h, [Turn], b.created, b.stopped, b.next);
    forall id: nat ensures Places(w, id) == Places(World(h, [], b.created, b.stopped, b.next), id) {
      assert [] + [Turn] == [Turn];
      InHandGrows([], Turn, id);
    }
    StepKeepsAccount(w, BuildThread(0, launch));
    assert Without([Turn], 0) == [] && [] + ToStopIf(h.threadSession) == ToStopIf(h.threadSession);
    TakenIsStopped(Apply(w, BuildThread(0, launch)), h.threadSession);
  }

  lemma NothingHeldAllStopped(h: Held, b: Books)
    requires Balanced(h, b) && h.piSession.None? && h.threadSession.None?
    ensures b.stopped == b.created
  {
    var w := World(h, [], b.created, b.stopped, b.next);
    forall id: nat ensures id in b.stopped <==> id in b.created {
      assert Places(w, id) == if id in b.created then 1 else 0;
    }
  }

  lemma HeldIsOld(h: Held, b: Books)
    requires Balanced(h, b)
    ensures h.piSession.Some? ==> h.piSession.value.id < b.next
    ensures h.threadSession.Some? ==> h.threadSession.value.id < b.next
  {
    var w := World(h, [], b.created, b.stopped, b.next);
    if h.piSession.Some? { assert Places(w, h.piSession.value.id) >= 1; }
    if h.threadSession.Some? { assert Places(w, h.threadSession.value.id) >= 1; }
  }

  class AgentRunner {
    var piConfig: Option<PiConfig>
    var piSession: Option<Sess>
    var threadSession: Option<Sess>
    var acpConfig: Option<AcpConfig>
    var next: nat
    ghost var created: set<nat>
    ghost var stopped: set<nat>

    ghost function Value(): Held
      reads this
    {
      Held(piConfig, piSession, threadSession, acpConfig)
    }

    ghost function Ledger(): Books
      reads this
    {
      Books(created, stopped, next)
    }

    /** Between operations: every session made is held or stopped, and a pi
        session is of its config's launch shape. */
    ghost predicate Valid()
      reads this
    {
      && Balanced(Value(), Ledger())
      && (piSession.Some? ==> piConfig.Some? && piSession.value.launch == piConfig.value.launch)
    }

    constructor ()
      ensures Valid() && Value() == EMPTY.held && Ledger() == Books({}, {}, 0)
    {
      piConfig, piSession, threadSession, acpConfig, next, created, stopped := None, None, None, None, 0, {}, {};
    }

    method NewSession(launch: nat) returns (s: Sess)
      modifies `next, `created
      ensures s == Sess(old(next), launch) && Ledger() == Made(old(Ledger()))
    {
      s := Sess(next, launch);
      created := created + {next};
      next := next + 1;
    }

    method StopSession(s: Option<Sess>)
      modifies `stopped
      ensures Ledger() == Stopped(old(Ledger()), s)
    {
      if s.Some? { stopped := stopped + {s.value.id}; }
    }

    method RestartPiSession(cfg: PiConfig)
      requires Valid()
      modifies this
      ensures Valid() && Value() == Swapped(old(Value()), Sess(old(next), cfg.launch), cfg)
      ensures Ledger() == Stopped(Made(old(Ledger())), old(piSession))
      ensures piConfig == Some(cfg) && piSession == Some(Sess(old(next), cfg.launch)) && next == old(next) + 1
      ensures threadSession == old(threadSession) && acpConfig == old(acpConfig) && created == old(created) + {old(next)}
      ensures stopped == old(stopped) + if old(piSession).Some? then {old(piSession).value.id} else {}
    {
      RestartBalances(Value(), Ledger(), cfg);
      var s := NewSession(cfg.launch);
      var was := piSession;
      piSession, piConfig := Some(s), Some(cfg);
      StopSession(was);
    }

    method StopPiSession()
      requires Valid()
      modifies this
      ensures Valid() && Value() == PiTaken(old(Value())) && Ledger() == Stopped(old(Ledger()), old(piSession))
      ensures piConfig.None? && piSession.None? && threadSession == old(threadSession) && acpConfig == old(acpConfig)
      ensures stopped == old(stopped) + if old(piSession).Some? then {old(piSession).value.id} else {}
    {
      PiTakenBalances(Value(), Ledger());
      var s := piSession;
      piSession, piConfig := None, None;
      StopSession(s);
    }

    method StopThreadSession()
      requires Valid()
      modifies this
      ensures Valid() && Value() == ThreadTaken(old(Value())) && Ledger() == Stopped(old(Ledger()), old(threadSession))
      ensures threadSession.None? && piConfig == old(piConfig) && piSession == old(piSession) && acpConfig == old(acpConfig)
      ensures stopped == old(stopped) + if old(threadSession).Some? then {old(threadSession).value.id} else {}
    {
      ThreadTakenBalances(Value(), Ledger());
      var s := threadSession;
      threadSession := None;
      StopSession(s);
    }

    /** An assignment alone. A usable pi config leaves a session of its launch
        shape, the one there was exactly if the shape is the same, and no thread
        session; anything else leaves no pi session, and the thread session only
        if it may be resident. */
    method ApplyAssignment(a: Assignment)
      requires Valid()
      modifies this
      ensures Valid()
      ensures a.Pi? && a.cfg.Some? ==>
                && piConfig == a.cfg
                && (if old(piConfig).Some? && old(piConfig).value.launch == a.cfg.value.launch then piSession == old(piSession)
                    else piSession == Some(Sess(old(next), a.cfg.value.launch)) && piSession != old(piSession))
      ensures !(a.Pi? && a.cfg.Some?) ==> piSession.None? && acpConfig == if a.Pi? then None else a.acp
      ensures threadSession == if a.Acp? && a.acp.Some? && a.acp.value.resident then old(threadSession) else None
    {
      HeldIsOld(Value(), Ledger());
      match a
      case Pi(cfg) =>
        if cfg.None? {
          StopThreadSession();
          StopPiSession();
          acpConfig := None;
          return;
        }
        if piConfig.Some? && piConfig.value.launch == cfg.value.launch {
          if threadSession.Some? { StopThreadSession(); }
          piConfig := cfg;
          return;
        }
        StopThreadSession();
        acpConfig := None;
        RestartPiSession(cfg.value);
      case Acp(cfg) =>
        if piConfig.Some? { StopPiSession(); }
        acpConfig := cfg;
        if !(cfg.Some? && cfg.value.resident) && threadSession.Some? { StopThreadSession(); }
    }

    /** Under the same config, a fresh pi session if it is a pi agent, and no
        thread session; what was held is stopped. */
    method ColdRestart()
      requires Valid()
      modifies this
      ensures Valid() && piConfig == old(piConfig) && threadSession.None?
      ensures piSession == if old(piConfig).Some? then Some(Sess(old(next), old(piConfig).value.launch)) else None
      ensures stopped == Stopped(Stopped(old(Ledger()), old(piSession)), old(threadSession)).stopped
    {
      if piConfig.Some? { RestartPiSession(piConfig.value); }
      StopThreadSession();
    }

    /** A turn's runtime, and the session it runs on: the pi session, made now if
        there is none, or the resident thread session of the current shape. */
    method BuildRuntime() returns (s: Option<Sess>)
      requires Valid()
      modifies this
      ensures Valid() && piConfig == old(piConfig) && acpConfig == old(acpConfig)
      ensures old(piConfig).Some? ==>
                s == piSession == Some(if old(piSession).Some? then old(piSession).value else Sess(old(next), old(piConfig).value.launch))
      ensures old(piConfig).Some? || !(acpConfig.Some? && acpConfig.value.resident) ==> threadSession == old(threadSession)
      ensures old(piConfig).None? && acpConfig.Some? && acpConfig.value.resident ==>
                && s == threadSession && Value() == ThreadBuilt(old(Value()), old(next), acpConfig.value.launch)
                && s.Some? && s.value.launch == acpConfig.value.launch
                && (s == old(threadSession) <==> old(threadSession).Some? && old(threadSession).value.launch == acpConfig.value.launch)
                && (s != old(threadSession) ==>
                      s.value.id == old(next) && (old(threadSession).Some? ==> old(threadSession).value.id in stopped))
    {
      if piConfig.Some? {
        if piSession.None? {
          StepKeepsAccount(World(Value(), [], created, stopped, next), BuildPi);
          var made := NewSession(piConfig.value.launch);
          piSession := Some(made);
        }
        return piSession;
      }
      s := None;
      if acpConfig.Some? && acpConfig.value.resident { s := BuildThreadRuntime(acpConfig.value.launch); }
    }

    /** A launch shape other than the held session's replaces it, and stops it. */
    method BuildThreadRuntime(launch: nat) returns (s: Option<Sess>)
      requires Valid()
      modifies this
      ensures Valid() && s == threadSession && Value() == ThreadBuilt(old(Value()), old(next), launch)
      ensures old(threadSession) != s ==> stopped == Stopped(old(Ledger()), old(threadSession)).stopped
      ensures old(threadSession) == s ==> Ledger() == old(Ledger())
      ensures s.Some? && s.value.launch == launch
      ensures s == old(threadSession) <==> old(threadSession).Some? && old(threadSession).value.launch == launch
      ensures s != old(threadSession) ==>
                s.value.id == old(next) && (old(threadSession).Some? ==> old(threadSession).value.id in stopped)
      ensures piConfig == old(piConfig) && piSession == old(piSession) && acpConfig == old(acpConfig)
    {
      HeldIsOld(Value(), Ledger());
      if threadSession.None? || threadSession.value.launch != launch {
        ThreadBuiltBalances(Value(), Ledger(), launch);
        var made := NewSession(launch);
        var was := threadSession;
        threadSession := Some(made);
        StopSession(was);
      }
      s := threadSession;
    }

    /** Teardown: nothing is held, and every session ever made is stopped. */
    method Stop()
      requires Valid()
      modifies this
      ensures Valid() && piSession.None? && threadSession.None? && stopped == created
    {
      StopPiSession();
      StopThreadSession();
      NothingHeldAllStopped(Value(), Ledger());
    }
  }
}
