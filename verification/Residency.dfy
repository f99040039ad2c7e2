/** The long-lived agent process behind a session (pi Session, ThreadSession):
    what each critical section makes of the session's fields and tells its
    caller, and the classes whose methods are those sections. */
module Residency {
  import opened Envelope

  /** A thread session has no turn or response channels of its own, and its reap
      clears `waitDone`. */
  datatype Flavor = Pi | Thread

  /** The fields under the session's locks. A process is its generation number,
      and so is the waitDone channel that its start makes; `active` and the
      values of `resp` are channel numbers. */
  datatype Session = Session(
    flavor: Flavor, evictable: bool,
    started: bool, gen: nat, waitDone: Option<nat>,
    idleTimer: bool, evicting: bool,
    active: Option<nat>, resp: map<nat, nat>)

  function NewSession(flavor: Flavor, evictable: bool): Session {
    Session(flavor, evictable, false, 0, None, false, false, None, map[])
  }

  /** ensureStarted: the channel to wait on while an eviction is under way, else
      whether the process is alive. */
  datatype Claiming = Claiming(s: Session, wait: bool, reap: Option<nat>, alive: bool)

  function Claim(s: Session): Claiming {
    if s.evicting then Claiming(s, true, s.waitDone, false)
    else Claiming(s.(idleTimer := false), false, None, s.started)
  }

  datatype Start = AlreadyUp | Failed | Up

  datatype Starting = Starting(s: Session, outcome: Start)

  /** Start: `spawns` tells whether a new process can be had. */
  function StartUp(s: Session, spawns: bool): Starting {
    if s.started then Starting(s, AlreadyUp)
    else if !spawns then Starting(s, Failed)
    else Starting(s.(started := true, gen := s.gen + 1, waitDone := Some(s.gen + 1)), Up)
  }

  function TurnOpened(s: Session, ch: nat): Session {
    if s.flavor.Pi? then s.(active := Some(ch)) else s
  }

  /** Both endTurn and the reap clear the turn's channel. */
  function TurnCleared(s: Session): Session {
    s.(active := None)
  }

  function TimerStopped(s: Session): Session {
    s.(idleTimer := false)
  }

  function TimerArmed(s: Session): Session {
    if s.evictable && s.started then s.(idleTimer := true) else s
  }

  /** The idle-eviction callback, with the process and the channel it captures. */
  datatype Evicting = Evicting(s: Session, commits: bool, gen: nat, reap: Option<nat>)

  predicate Commits(s: Session) {
    s.started && s.idleTimer
  }

  function Evict(s: Session): Evicting {
    Evicting(if Commits(s) then s.(idleTimer := false, evicting := true) else s, Commits(s), s.gen, s.waitDone)
  }

  function EvictEnded(s: Session): Session {
    s.(evicting := false)
  }

  function Unblocked(s: Session): Session {
    s.(resp := map[])
  }

  /** The reap's last section, and the channel it closes. */
  datatype Reaping = Reaping(s: Session, reap: Option<nat>)

  function Reap(s: Session): Reaping {
    Reaping(s.(started := false, waitDone := if s.flavor.Thread? then None else s.waitDone),
            if s.flavor.Thread? && !s.started then None else s.waitDone)
  }

  function Registered(s: Session, id: nat, ch: nat): Session {
    s.(resp := s.resp[id := ch])
  }

  function Forgotten(s: Session, id: nat): Session {
    s.(resp := s.resp - {id})
  }

  datatype Routing = Routing(s: Session, ch: Option<nat>)

  /** A response takes its channel out before it is sent. */
  function Route(s: Session, id: nat): Routing {
    Routing(Forgotten(s, id), if id in s.resp then Some(s.resp[id]) else None)
  }

  // ---------- the sections as the agent runs them ----------

  class PiSession {
    const evictable: bool
    var started: bool
    var gen: nat
    var waitDone: Option<nat>
    var idleTimer: bool
    var evicting: bool
    var active: Option<nat>
    var resp: map<nat, nat>

    ghost function Value(): Session
      reads this
    {
      Session(Pi, evictable, started, gen, waitDone, idleTimer, evicting, active, resp)
    }

    constructor (evictable: bool)
      ensures Value() == NewSession(Pi, evictable)
      ensures this.evictable == evictable && !started && gen == 0 && waitDone == None && !idleTimer && !evicting
      ensures active == None && resp == map[]
    {
      this.evictable := evictable;
      started, gen, waitDone, idleTimer, evicting, active, resp := false, 0, None, false, false, None, map[];
    }

    method EnsureStarted() returns (wait: bool, reap: Option<nat>, alive: bool)
      modifies `idleTimer
      ensures Claiming(Value(), wait, reap, alive) == Claim(old(Value()))
      ensures old(evicting) ==> wait && !alive && reap == old(waitDone) && idleTimer == old(idleTimer)
      ensures !old(evicting) ==> !wait && reap == None && alive == old(started) && !idleTimer
    {
      if evicting { return true, waitDone, false; }
      if idleTimer { idleTimer := false; }
      return false, None, started;
    }

    method Start(spawns: bool) returns (outcome: Start)
      modifies `started, `gen, `waitDone
      ensures Starting(Value(), outcome) == StartUp(old(Value()), spawns)
      ensures outcome == if old(started) then AlreadyUp else if spawns then Up else Failed
      ensures if outcome == Up then started && gen == old(gen) + 1 && waitDone == Some(gen)
              else started == old(started) && gen == old(gen) && waitDone == old(waitDone)
    {
      if started { return AlreadyUp; }
      if !spawns { return Failed; }
      gen := gen + 1;
      started, waitDone := true, Some(gen);
      return Up;
    }

    method BeginTurn(ch: nat)
      modifies `active
      ensures Value() == TurnOpened(old(Value()), ch)
      ensures active == Some(ch)
    {
      active := Some(ch);
    }

    method StopIdleTimer()
      modifies `idleTimer
      ensures Value() == TimerStopped(old(Value()))
      ensures !idleTimer
    {
      if idleTimer { idleTimer := false; }
    }

    method EndTurn()
      modifies `active
      ensures Value() == TurnCleared(old(Value()))
      ensures active == None
    {
      active := None;
    }

    method ArmIdleTimer()
      modifies `idleTimer
      ensures Value() == TimerArmed(old(Value()))
      ensures idleTimer == (old(idleTimer) || (evictable && started))
    {
      if !evictable || !started { return; }
      idleTimer := true;
    }

    method EvictIdle() returns (commits: bool, target: nat, reap: Option<nat>)
      modifies `idleTimer, `evicting
      ensures Evicting(Value(), commits, target, reap) == Evict(old(Value()))
      ensures commits == (started && old(idleTimer)) && target == gen && reap == waitDone
      ensures if commits then evicting && !idleTimer else evicting == old(evicting) && idleTimer == old(idleTimer)
    {
      target, reap := gen, waitDone;
      if !started || !idleTimer { return false, target, reap; }
      idleTimer, evicting, commits := false, true, true;
    }

    method ClearEvicting()
      modifies `evicting
      ensures Value() == EvictEnded(old(Value()))
      ensures !evicting
    {
      evicting := false;
    }

    /** The reap's three sections: the turn's channel, the response channels, the
        start state. */
    method TakeTurn() returns (ch: Option<nat>)
      modifies `active
      ensures ch == old(active) && Value() == TurnCleared(old(Value()))
      ensures active == None
    {
      ch := active;
      active := None;
    }

    method Unblock() returns (closed: set<nat>)
      modifies `resp
      ensures closed == old(resp).Values && Value() == Unblocked(old(Value()))
      ensures resp == map[]
    {
      closed := resp.Values;
      resp := map[];
    }

    method Reset() returns (reap: Option<nat>)
      modifies `started
      ensures Reaping(Value(), reap) == Reap(old(Value()))
      ensures !started && reap == waitDone
    {
      started := false;
      reap := waitDone;
    }

    method Register(id: nat, ch: nat)
      modifies `resp
      ensures Value() == Registered(old(Value()), id, ch)
      ensures resp == old(resp)[id := ch]
    {
      resp := resp[id := ch];
    }

    method Forget(id: nat)
      modifies `resp
      ensures Value() == Forgotten(old(Value()), id)
      ensures resp == old(resp) - {id}
    {
      resp := resp - {id};
    }

    method RouteResponse(id: nat) returns (ch: Option<nat>)
      modifies `resp
      ensures Routing(Value(), ch) == Route(old(Value()), id)
      ensures ch == (if id in old(resp) then Some(old(resp)[id]) else None) && resp == old(resp) - {id}
    {
      ch := None;
      if id in resp { ch := Some(resp[id]); }
      resp := resp - {id};
    }
  }

  class ThreadSession {
    const evictable: bool
    var started: bool
    var gen: nat
    var waitDone: Option<nat>
    var idleTimer: bool
    var evicting: bool

    ghost function Value(): Session
      reads this
    {
      Session(Thread, evictable, started, gen, waitDone, idleTimer, evicting, None, map[])
    }

    constructor (evictable: bool)
      ensures Value() == NewSession(Thread, evictable)
      ensures this.evictable == evictable && !started && gen == 0 && waitDone == None && !idleTimer && !evicting
    {
      this.evictable := evictable;
      started, gen, waitDone, idleTimer, evicting := false, 0, None, false, false;
    }

    method EnsureStarted() returns (wait: bool, reap: Option<nat>, alive: bool)
      modifies `idleTimer
      ensures Claiming(Value(), wait, reap, alive) == Claim(old(Value()))
      ensures old(evicting) ==> wait && !alive && reap == old(waitDone) && idleTimer == old(idleTimer)
      ensures !old(evicting) ==> !wait && reap == None && alive == old(started) && !idleTimer
    {
      if evicting { return true, waitDone, false; }
      if idleTimer { idleTimer := false; }
      return false, None, started;
    }

    method Start(spawns: bool) returns (outcome: Start)
      modifies `started, `gen, `waitDone
      ensures Starting(Value(), outcome) == StartUp(old(Value()), spawns)
      ensures outcome == if old(started) then AlreadyUp else if spawns then Up else Failed
      ensures if outcome == Up then started && gen == old(gen) + 1 && waitDone == Some(gen)
              else started == old(started) && gen == old(gen) && waitDone == old(waitDone)
    {
      if started { return AlreadyUp; }
      if !spawns { return Failed; }
      gen := gen + 1;
      started, waitDone := true, Some(gen);
      return Up;
    }

    method ArmIdleTimer()
      modifies `idleTimer
      ensures Value() == TimerArmed(old(Value()))
      ensures idleTimer == (old(idleTimer) || (evictable && started))
    {
      if !evictable || !started { return; }
      idleTimer := true;
    }

    /** The section that Kill, killProcess and Stop share. */
    method Halt() returns (running: bool, reap: Option<nat>)
      modifies `idleTimer
      ensures running == started && reap == waitDone && Value() == TimerStopped(old(Value()))
      ensures !idleTimer
    {
      running, reap := started, waitDone;
      if idleTimer { idleTimer := false; }
    }

    method EvictIdle() returns (commits: bool, target: nat, reap: Option<nat>)
      modifies `idleTimer, `evicting
      ensures Evicting(Value(), commits, target, reap) == Evict(old(Value()))
      ensures commits == (started && old(idleTimer)) && target == gen && reap == waitDone
      ensures if commits then evicting && !idleTimer else evicting == old(evicting) && idleTimer == old(idleTimer)
    {
      target, reap := gen, waitDone;
      if !started || !idleTimer { return false, target, reap; }
      idleTimer, evicting, commits := false, true, true;
    }

    method ClearEvicting()
      modifies `evicting
      ensures Value() == EvictEnded(old(Value()))
      ensures !evicting
    {
      evicting := false;
    }

    method Reset() returns (reap: Option<nat>)
      modifies `started, `waitDone
      ensures Reaping(Value(), reap) == Reap(old(Value()))
      ensures !started && waitDone == None && reap == if old(started) then old(waitDone) else None
    {
      var was := started;
      started := false;
      reap := if was then waitDone else None;
      waitDone := None;
    }
  }
}
