/** The Discord gateway runtime: its object, its steps between awaits, and what a role read may rely
    on in any interleaving of events, late replies, reconnect sleeps and stop. */
module Gateway {
  import opened Options

  datatype Lifecycle = Idle | Connecting | Ready | Disconnected | Reconnecting | Stopping | Stopped

  datatype Reconciliation = Unknown | Current | Failed

  datatype Mode = Resume | Identify

  datatype Seat = Seat(actor: string, tier: string)

  datatype Config = Config(staleAfter: int, delays: seq<int>)

  datatype Runtime = Runtime(lifecycle: Lifecycle, lastSequence: Option<int>, lastHeartbeatAt: Option<int>,
                             reconnectAttempts: nat, reconciliation: Reconciliation, generation: nat,
                             roles: map<string, string>)

  const FRESH_RUNTIME := Runtime(Idle, None, None, 0, Unknown, 0, map[])

  // ---- Steps between awaits ----

  predicate Closing(rt: Runtime) {
    rt.lifecycle.Stopping? || rt.lifecycle.Stopped?
  }

  predicate Newer(lastSequence: Option<int>, sequence: int) {
    lastSequence.None? || sequence > lastSequence.value
  }

  predicate Accepts(rt: Runtime, sequence: int) {
    !Closing(rt) && Newer(rt.lastSequence, sequence)
  }

  /** An accepted ready or resumed event, up to the call of the reconciler. */
  function BeginReady(rt: Runtime, sequence: int, now: int): Runtime {
    if !Accepts(rt, sequence) then rt
    else rt.(lifecycle := Ready, lastSequence := Some(sequence), lastHeartbeatAt := Some(now),
             reconnectAttempts := 0, reconciliation := Unknown, generation := rt.generation + 1)
  }

  function RolesOf(seats: seq<Seat>): map<string, string> {
    if seats == [] then map[] else RolesOf(seats[..|seats| - 1])[seats[|seats| - 1].actor := seats[|seats| - 1].tier]
  }

  /** The tier the last row for the actor grants. */
  function TierOf(seats: seq<Seat>, actor: string): Option<string> {
    if seats == [] then None
    else if seats[|seats| - 1].actor == actor then Some(seats[|seats| - 1].tier)
    else TierOf(seats[..|seats| - 1], actor)
  }

  lemma {:induction false} RolesGrantTiers(seats: seq<Seat>, actor: string)
    ensures TierOf(seats, actor) == if actor in RolesOf(seats) then Some(RolesOf(seats)[actor]) else None
    ensures TierOf(seats, actor).None? ==> forall i | 0 <= i < |seats| :: seats[i].actor != actor
    ensures TierOf(seats, actor).Some? ==>
              exists i | 0 <= i < |seats| ::
                && seats[i] == Seat(actor, TierOf(seats, actor).value)
                && forall j | i < j < |seats| :: seats[j].actor != actor
    decreases |seats|
  {
    if seats != [] {
      var front, last := seats[..|seats| - 1], seats[|seats| - 1];
      RolesGrantTiers(front, actor);
      assert forall i | 0 <= i < |front| :: seats[i] == front[i];
      if last.actor == actor {
        assert seats[|front|] == Seat(actor, last.tier);
      } else if TierOf(front, actor).Some? {
        var i :| 0 <= i < |front| && front[i] == Seat(actor, TierOf(front, actor).value)
                 && forall j | i < j < |front| :: front[j].actor != actor;
        assert seats[i] == front[i];
      }
    }
  }

  function FinishReconcile(rt: Runtime, generation: nat, seats: seq<Seat>): Runtime {
    if generation != rt.generation || !rt.lifecycle.Ready? then rt
    else rt.(roles := RolesOf(seats), reconciliation := Current)
  }

  function FailReconcile(rt: Runtime, generation: nat): Runtime {
    if generation != rt.generation then rt else rt.(roles := map[], reconciliation := Failed)
  }

  function Beat(rt: Runtime, sequence: int, now: int): Runtime {
    if !Accepts(rt, sequence) then rt else rt.(lastSequence := Some(sequence), lastHeartbeatAt := Some(now))
  }

  /** The configured delay of the next reconnect; an empty table gives 0. */
  function ConfiguredDelay(config: Config, attempts: nat): int {
    if |config.delays| == 0 then 0
    else if attempts < |config.delays| then config.delays[attempts]
    else config.delays[|config.delays| - 1]
  }

  function SleepFor(config: Config, attempts: nat, minimum: int): int {
    if ConfiguredDelay(config, attempts) > minimum then ConfiguredDelay(config, attempts) else minimum
  }

  /** A disconnect, invalid session or rate limit, up to the reconnect sleep. */
  function Lose(rt: Runtime): Runtime {
    if Closing(rt) then rt
    else rt.(lifecycle := Reconnecting, reconciliation := Unknown, roles := map[],
             reconnectAttempts := rt.reconnectAttempts + 1)
  }

  function BeginStop(rt: Runtime): Runtime {
    if rt.lifecycle.Stopped? then rt
    else rt.(lifecycle := Stopping, generation := rt.generation + 1, reconciliation := Unknown, roles := map[])
  }

  function EndStop(rt: Runtime): Runtime {
    rt.(lifecycle := Stopped)
  }

  predicate Connected(rt: Runtime, config: Config, now: int) {
    && rt.lifecycle.Ready? && rt.reconciliation.Current?
    && rt.lastHeartbeatAt.Some? && now - rt.lastHeartbeatAt.value <= config.staleAfter
  }

  function ReadRole(rt: Runtime, config: Config, now: int, actor: string): Option<string> {
    if Connected(rt, config, now) && actor in rt.roles then Some(rt.roles[actor]) else None
  }

  // ---- The runtime object ----

  class GatewayRuntime {
    const config: Config
    var lifecycle: Lifecycle
    var lastSequence: Option<int>
    var lastHeartbeatAt: Option<int>
    var reconnectAttempts: nat
    var reconciliation: Reconciliation
    var generation: nat
    var roles: map<string, string>

    function View(): Runtime
      reads this
    {
      Runtime(lifecycle, lastSequence, lastHeartbeatAt, reconnectAttempts, reconciliation, generation, roles)
    }

    constructor (config: Config)
      ensures View() == FRESH_RUNTIME && this.config == config
    {
      this.config := config;
      lifecycle, lastSequence, lastHeartbeatAt := Idle, None, None;
      reconnectAttempts, reconciliation, generation, roles := 0, Unknown, 0, map[];
    }

    method Start() returns (login: bool)
      modifies this
      ensures login <==> old(lifecycle).Idle?
      ensures View() == if login then old(View()).(lifecycle := Connecting) else old(View())
    {
      login := lifecycle.Idle?;
      if login {
        lifecycle := Connecting;
      }
    }

    method AcceptSequence(sequence: int) returns (accepted: bool)
      modifies this`lastSequence
      ensures accepted <==> old(lastSequence).None? || sequence > old(lastSequence).value
      ensures lastSequence == if accepted then Some(sequence) else old(lastSequence)
    {
      if lastSequence.Some? && sequence <= lastSequence.value {
        return false;
      }
      lastSequence := Some(sequence);
      accepted := true;
    }

    /** The generation of the reconciliation it starts, if the event is accepted. */
    method AcceptReady(sequence: int, now: int) returns (started: Option<nat>)
      modifies this
      ensures View() == BeginReady(old(View()), sequence, now)
      ensures started == if Accepts(old(View()), sequence) then Some(old(generation) + 1) else None
    {
      if lifecycle.Stopping? || lifecycle.Stopped? { return None; }
      var accepted := AcceptSequence(sequence);
      if !accepted { return None; }
      lifecycle := Ready;
      lastHeartbeatAt := Some(now);
      reconnectAttempts := 0;
      generation := generation + 1;
      reconciliation := Unknown;
      started := Some(generation);
    }

    method ReconcileReply(started: nat, seats: seq<Seat>)
      modifies this
      ensures View() == FinishReconcile(old(View()), started, seats)
    {
      if started != generation || !lifecycle.Ready? { return; }
      var next: map<string, string> := map[];
      for i := 0 to |seats|
        invariant next == RolesOf(seats[..i])
        invariant View() == old(View())
      {
        assert seats[..i + 1][..i] == seats[..i];
        next := next[seats[i].actor := seats[i].tier];
      }
      assert seats[..|seats|] == seats;
      roles := next;
      reconciliation := Current;
    }

    method ReconcileFailed(started: nat)
      modifies this
      ensures View() == FailReconcile(old(View()), started)
    {
      if started == generation {
        roles := map[];
        reconciliation := Failed;
      }
    }

    method AcceptHeartbeat(sequence: int, now: int)
      modifies this
      ensures View() == Beat(old(View()), sequence, now)
    {
      if lifecycle.Stopping? || lifecycle.Stopped? { return; }
      var accepted := AcceptSequence(sequence);
      if accepted {
        lastHeartbeatAt := Some(now);
      }
    }

    /** How long to sleep before reconnecting, unless the runtime is closing. */
    method AcceptLoss(minimumDelay: int) returns (sleep: Option<int>)
      modifies this
      ensures View() == Lose(old(View()))
      ensures sleep == if Closing(old(View())) then None
                       else Some(SleepFor(config, old(reconnectAttempts), minimumDelay))
    {
      if lifecycle.Stopping? || lifecycle.Stopped? { return None; }
      lifecycle := Disconnected;
      reconciliation := Unknown;
      roles := map[];
      var delay := ConfiguredDelay(config, reconnectAttempts);
      reconnectAttempts := reconnectAttempts + 1;
      lifecycle := Reconnecting;
      sleep := Some(if delay > minimumDelay then delay else minimumDelay);
    }

    method Stop() returns (destroy: bool)
      modifies this
      ensures View() == BeginStop(old(View()))
      ensures destroy <==> !old(lifecycle).Stopped?
    {
      if lifecycle.Stopped? { return false; }
      lifecycle := Stopping;
      generation := generation + 1;
      reconciliation := Unknown;
      roles := map[];
      destroy := true;
    }

    method Destroyed()
      modifies this
      ensures View() == EndStop(old(View()))
    {
      lifecycle := Stopped;
    }

    method ReadCurrentRole(actor: string, now: int) returns (tier: Option<string>)
      ensures tier == ReadRole(View(), config, now, actor)
    {
      if !Connected(View(), config, now) || !reconciliation.Current? { return None; }
      if actor in roles {
        tier := Some(roles[actor]);
      } else {
        tier := None;
      }
    }
  }

  // ---- Runs ----

  /** Anything that can happen: deliveries, replies and failures of the k-th reconciliation started,
      wake-ups of the k-th sleep begun, stop calls and completions, and time passing. */
  datatype Event =
    | StartCalled
    | ReadyEvent(sequence: int)
    | HeartbeatAck(sequence: int)
    | Lost(mode: Mode, minimumDelay: int)
    | Reply(reply: nat, seats: seq<Seat>)
    | ReplyFails(failing: nat)
    | Wake(sleeper: nat)
    | StopCalled
    | DestroyDone
    | TimePasses(ms: nat)

  datatype Call = Call(generation: nat, answered: bool)

  datatype Sleep = Sleep(mode: Mode, due: int, woken: bool)

  datatype Reconnect = Reconnect(at: int, mode: Mode)

  datatype System = System(rt: Runtime, calls: seq<Call>, sleeps: seq<Sleep>, destroying: nat, now: int,
                           reconnects: seq<Reconnect>)

  const FRESH_SYSTEM := System(FRESH_RUNTIME, [], [], 0, 0, [])

  function Next(sys: System, config: Config, event: Event): System {
    match event
    case StartCalled => if sys.rt.lifecycle.Idle? then sys.(rt := sys.rt.(lifecycle := Connecting)) else sys
    case ReadyEvent(sequence) =>
      if Accepts(sys.rt, sequence)
      then sys.(rt := BeginReady(sys.rt, sequence, sys.now), calls := sys.calls + [Call(sys.rt.generation + 1, false)])
      else sys
    case HeartbeatAck(sequence) => sys.(rt := Beat(sys.rt, sequence, sys.now))
    case Lost(mode, minimum) =>
      if Closing(sys.rt) then sys
      else sys.(rt := Lose(sys.rt),
                sleeps := sys.sleeps
                          + [Sleep(mode, sys.now + SleepFor(config, sys.rt.reconnectAttempts, minimum), false)])
    case Reply(k, seats) =>
      if k < |sys.calls| && !sys.calls[k].answered
      then sys.(rt := FinishReconcile(sys.rt, sys.calls[k].generation, seats),
                calls := sys.calls[k := sys.calls[k].(answered := true)])
      else sys
    case ReplyFails(k) =>
      if k < |sys.calls| && !sys.calls[k].answered
      then sys.(rt := FailReconcile(sys.rt, sys.calls[k].generation),
                calls := sys.calls[k := sys.calls[k].(answered := true)])
      else sys
    case Wake(k) =>
      if k < |sys.sleeps| && !sys.sleeps[k].woken && sys.sleeps[k].due <= sys.now
      then sys.(sleeps := sys.sleeps[k := sys.sleeps[k].(woken := true)],
                reconnects := if sys.rt.lifecycle.Reconnecting?
                              then sys.reconnects + [Reconnect(sys.now, sys.sleeps[k].mode)] else sys.reconnects)
      else sys
    case StopCalled =>
      if sys.rt.lifecycle.Stopped? then sys else sys.(rt := BeginStop(sys.rt), destroying := sys.destroying + 1)
    case DestroyDone =>
      if sys.destroying > 0 then sys.(rt := EndStop(sys.rt), destroying := sys.destroying - 1) else sys
    case TimePasses(ms) => sys.(now := sys.now + ms)
  }

  function Exec(config: Config, events: seq<Event>): System {
    if events == [] then FRESH_SYSTEM
    else Next(Exec(config, events[..|events| - 1]), config, events[|events| - 1])
  }

  // ---- What a role read may rely on, from the events alone ----

  /** A plain record of the history: which reconciliation the latest accepted ready event started,
      whether the connection was lost since, and that reconciliation's own reply if it came in
      between. No generations and no lifecycle. */
  datatype Watch = Watch(now: int, sequence: Option<int>, begun: nat, answered: set<nat>, latest: Option<nat>,
                         lost: bool, reply: Option<seq<Seat>>, lastBeat: Option<int>, stopping: bool)

  const FRESH_WATCH := Watch(0, None, 0, {}, None, false, None, None, false)

  function Observe(w: Watch, event: Event): Watch {
    match event
    case ReadyEvent(sequence) =>
      if w.stopping || (w.sequence.Some? && sequence <= w.sequence.value) then w
      else w.(sequence := Some(sequence), begun := w.begun + 1, latest := Some(w.begun), lost := false, reply := None,
              lastBeat := Some(w.now))
    case HeartbeatAck(sequence) =>
      if w.stopping || (w.sequence.Some? && sequence <= w.sequence.value) then w
      else w.(sequence := Some(sequence), lastBeat := Some(w.now))
    case Lost(_, _) => if w.stopping then w else w.(lost := true)
    case Reply(k, seats) =>
      if k >= w.begun || k in w.answered then w
      else w.(answered := w.answered + {k},
              reply := if w.latest == Some(k) && !w.lost && !w.stopping then Some(seats) else w.reply)
    case ReplyFails(k) => if k >= w.begun || k in w.answered then w else w.(answered := w.answered + {k})
    case StopCalled => w.(stopping := true)
    case TimePasses(ms) => w.(now := w.now + ms)
    case _ => w
  }

  function History(events: seq<Event>): Watch {
    if events == [] then FRESH_WATCH else Observe(History(events[..|events| - 1]), events[|events| - 1])
  }

  function Permitted(w: Watch, config: Config, actor: string): Option<string> {
    if w.stopping || w.latest.None? || w.lost || w.reply.None? || w.lastBeat.None?
       || w.now - w.lastBeat.value > config.staleAfter
    then None
    else TierOf(w.reply.value, actor)
  }

  /** The k-th reconciliation has generation k + 1. */
  ghost predicate CallsEncoded(calls: seq<Call>, w: Watch) {
    && |calls| == w.begun && (forall k | k in w.answered :: k < w.begun)
    && (forall k | 0 <= k < |calls| :: calls[k].generation == k + 1 && (calls[k].answered <==> k in w.answered))
  }

  /** The generation counter and lifecycle encode the record. */
  ghost predicate Encodes(sys: System, w: Watch) {
    && sys.now == w.now && sys.rt.lastSequence == w.sequence && sys.rt.lastHeartbeatAt == w.lastBeat
    && CallsEncoded(sys.calls, w)
    && (w.stopping <==> Closing(sys.rt)) && (sys.destroying > 0 ==> w.stopping)
    && sys.rt.generation >= |sys.calls|
    && (!w.stopping ==>
          && sys.rt.generation == |sys.calls|
          && w.latest == (if w.begun == 0 then None else Some(w.begun - 1))
          && (sys.rt.lifecycle.Ready? <==> w.latest.Some? && !w.lost)
          && (sys.rt.lifecycle.Ready? ==> (sys.rt.reconciliation.Current? <==> w.reply.Some?))
          && (sys.rt.lifecycle.Ready? && w.reply.Some?
              ==> sys.rt.roles == RolesOf(w.reply.value) && w.begun - 1 in w.answered))
  }

  lemma ReadyEncodes(sys: System, w: Watch, config: Config, event: Event)
    requires Encodes(sys, w) && event.ReadyEvent?
    ensures Encodes(Next(sys, config, event), Observe(w, event))
  {
  }

  lemma AnswerEncodes(calls: seq<Call>, w: Watch, k: nat)
    requires CallsEncoded(calls, w) && k < |calls|
    ensures CallsEncoded(calls[k := calls[k].(answered := true)], w.(answered := w.answered + {k}))
  {
  }

  lemma ReplyEncodes(sys: System, w: Watch, config: Config, event: Event)
    requires Encodes(sys, w) && event.Reply?
    ensures Encodes(Next(sys, config, event), Observe(w, event))
  {
    if event.reply < |sys.calls| {
      AnswerEncodes(sys.calls, w, event.reply);
    }
  }

  lemma FailureEncodes(sys: System, w: Watch, config: Config, event: Event)
    requires Encodes(sys, w) && event.ReplyFails?
    ensures Encodes(Next(sys, config, event), Observe(w, event))
  {
    if event.failing < |sys.calls| {
      AnswerEncodes(sys.calls, w, event.failing);
    }
  }

  lemma LossEncodes(sys: System, w: Watch, config: Config, event: Event)
    requires Encodes(sys, w) && (event.Lost? || event.HeartbeatAck? || event.StartCalled?)
    ensures Encodes(Next(sys, config, event), Observe(w, event))
  {
  }

  lemma StopEncodes(sys: System, w: Watch, config: Config, event: Event)
    requires Encodes(sys, w) && (event.StopCalled? || event.DestroyDone? || event.Wake? || event.TimePasses?)
    ensures Encodes(Next(sys, config, event), Observe(w, event))
  {
  }

  lemma NextEncodes(sys: System, w: Watch, config: Config, event: Event)
    requires Encodes(sys, w)
    ensures Encodes(Next(sys, config, event), Observe(w, event))
  {
    if event.ReadyEvent? {
      ReadyEncodes(sys, w, config, event);
    } else if event.Reply? {
      ReplyEncodes(sys, w, config, event);
    } else if event.ReplyFails? {
      FailureEncodes(sys, w, config, event);
    } else if event.Lost? || event.HeartbeatAck? || event.StartCalled? {
      LossEncodes(sys, w, config, event);
    } else {
      StopEncodes(sys, w, config, event);
    }
  }

  lemma {:induction false} ExecEncodes(config: Config, events: seq<Event>)
    ensures Encodes(Exec(config, events), History(events))
    decreases |events|
  {
    if events != [] {
      var front := events[..|events| - 1];
      ExecEncodes(config, front);
      NextEncodes(Exec(config, front), History(front), config, events[|events| - 1]);
    }
  }

  /** In every interleaving a role read answers exactly what the reply to the reconciliation of the
      latest accepted ready event grants, provided nothing was lost since that event, stop was not
      called, and the last accepted heartbeat is recent; otherwise it answers nothing. */
  lemma RoleReadIsCurrent(config: Config, events: seq<Event>, actor: string)
    ensures var sys := Exec(config, events);
            ReadRole(sys.rt, config, sys.now, actor) == Permitted(History(events), config, actor)
  {
    ExecEncodes(config, events);
    var w := History(events);
    if w.reply.Some? {
      RolesGrantTiers(w.reply.value, actor);
    }
  }

  lemma {:induction false} StoppingIsForever(config: Config, events: seq<Event>, later: seq<Event>)
    requires Closing(Exec(config, events).rt)
    ensures Closing(Exec(config, events + later).rt)
    ensures Exec(config, events + later).reconnects == Exec(config, events).reconnects
    decreases |later|
  {
    if later == [] {
      assert events + later == events;
    } else {
      var front := later[..|later| - 1];
      assert (events + later)[..|events + later| - 1] == events + front;
      StoppingIsForever(config, events, front);
      ExecEncodes(config, events + front);
    }
  }

  /** Once stop was called the runtime stays stopping or stopped, never reconnects again and answers
      no role read, however many sleeps and replies are still out. */
  lemma StopIsFinal(config: Config, events: seq<Event>, later: seq<Event>, actor: string)
    ensures var sys, end := Exec(config, events + [StopCalled]), Exec(config, events + [StopCalled] + later);
            && Closing(end.rt) && end.reconnects == sys.reconnects
            && ReadRole(end.rt, config, end.now, actor) == None
  {
    assert (events + [StopCalled])[..|events|] == events;
    StoppingIsForever(config, events + [StopCalled], later);
  }

  // ---- Backing off ----

  lemma ExecGrows(config: Config, events: seq<Event>, event: Event)
    ensures Exec(config, events + [event]) == Next(Exec(config, events), config, event)
  {
    assert (events + [event])[..|events|] == events;
  }

  lemma LossSleeps(sys: System, config: Config, mode: Mode, floor: int)
    requires !Closing(sys.rt)
    ensures var next := Next(sys, config, Lost(mode, floor));
            var due := sys.now + SleepFor(config, sys.rt.reconnectAttempts, floor);
            && next.rt.lifecycle.Reconnecting? && next.now == sys.now && next.reconnects == sys.reconnects
            && next.sleeps == sys.sleeps + [Sleep(mode, due, false)] && due >= sys.now + floor
            && next.rt.reconnectAttempts == sys.rt.reconnectAttempts + 1
  {
  }

  /** The losses accepted since the latest accepted ready event. */
  function LossRun(events: seq<Event>): nat {
    if events == [] then 0
    else
      var front := events[..|events| - 1];
      match events[|events| - 1]
      case ReadyEvent(sequence) =>
        var w := History(front);
        if w.stopping || (w.sequence.Some? && sequence <= w.sequence.value) then LossRun(front) else 0
      case Lost(_, _) => if History(front).stopping then LossRun(front) else LossRun(front) + 1
      case _ => LossRun(front)
  }

  lemma {:induction false} AttemptsCountLosses(config: Config, events: seq<Event>)
    ensures Exec(config, events).rt.reconnectAttempts == LossRun(events)
    decreases |events|
  {
    if events != [] {
      var front := events[..|events| - 1];
      AttemptsCountLosses(config, front);
      ExecEncodes(config, front);
    }
  }

  /** A loss that follows n others without a ready event in between sleeps for the n-th configured
      delay, or the last one if the table is shorter, or not at all if it is empty, and never less than
      its own floor. */
  lemma BackoffFollowsTable(config: Config, events: seq<Event>, mode: Mode, floor: int)
    requires !Closing(Exec(config, events).rt)
    ensures var sys, n := Exec(config, events), LossRun(events);
            var configured := if config.delays == [] then 0
                              else config.delays[if n < |config.delays| then n else |config.delays| - 1];
            Exec(config, events + [Lost(mode, floor)]).sleeps
            == sys.sleeps + [Sleep(mode, sys.now + (if configured > floor then configured else floor), false)]
  {
    AttemptsCountLosses(config, events);
    ExecGrows(config, events, Lost(mode, floor));
    LossSleeps(Exec(config, events), config, mode, floor);
  }

  // ---- The retry floor ----

  /** A wake-up reconnects exactly when the runtime is waiting to, and then no earlier than its own
      sleep was due. */
  lemma WakeReconnects(config: Config, events: seq<Event>, k: nat)
    requires var sys := Exec(config, events);
             k < |sys.sleeps| && !sys.sleeps[k].woken && sys.sleeps[k].due <= sys.now
    ensures var sys, next := Exec(config, events), Exec(config, events + [Wake(k)]);
            && (sys.rt.lifecycle.Reconnecting? ==>
                  next.reconnects == sys.reconnects + [Reconnect(sys.now, sys.sleeps[k].mode)])
            && (!sys.rt.lifecycle.Reconnecting? ==> next.reconnects == sys.reconnects)
  {
    assert (events + [Wake(k)])[..|events|] == events;
  }

  /** A sleep is still out that will be due before the positive floor of a loss accepted now. */
  predicate EarlierSleeper(sys: System, floor: int) {
    floor > 0 && exists k | 0 <= k < |sys.sleeps| :: !sys.sleeps[k].woken && sys.sleeps[k].due < sys.now + floor
  }

  predicate NoLoss(events: seq<Event>) {
    forall n | 0 <= n < |events| :: !events[n].Lost?
  }

  /** Every reconnect made after the first `done` of them waited for the instant. */
  predicate ReconnectsFrom(reconnects: seq<Reconnect>, done: nat, instant: int) {
    forall n | done <= n < |reconnects| :: reconnects[n].at >= instant
  }

  predicate AllDueFrom(sleeps: seq<Sleep>, instant: int) {
    forall k | 0 <= k < |sleeps| :: sleeps[k].woken || sleeps[k].due >= instant
  }

  lemma WakesUp(sys: System, config: Config, k: nat)
    requires sys.rt.lifecycle.Reconnecting?
    requires k < |sys.sleeps| && !sys.sleeps[k].woken && sys.sleeps[k].due <= sys.now
    ensures Next(sys, config, Wake(k)).reconnects == sys.reconnects + [Reconnect(sys.now, sys.sleeps[k].mode)]
  {
  }

  /** A sleep that was out when the loss came reconnects when it is due. */
  lemma LossThenWake(sys: System, config: Config, mode: Mode, floor: int, k: nat, wait: nat)
    requires !Closing(sys.rt)
    requires k < |sys.sleeps| && !sys.sleeps[k].woken && sys.sleeps[k].due <= sys.now + wait
    ensures var waited := Next(Next(sys, config, Lost(mode, floor)), config, TimePasses(wait));
            Next(waited, config, Wake(k)).reconnects
            == sys.reconnects + [Reconnect(sys.now + wait, sys.sleeps[k].mode)]
  {
    LossSleeps(sys, config, mode, floor);
    WakesUp(Next(Next(sys, config, Lost(mode, floor)), config, TimePasses(wait)), config, k);
  }

  lemma ThreeMore(config: Config, events: seq<Event>, a: Event, b: Event, c: Event)
    ensures Exec(config, events + [a] + [b, c])
         == Next(Next(Next(Exec(config, events), config, a), config, b), config, c)
  {
    ExecGrows(config, events, a);
    ExecGrows(config, events + [a], b);
    ExecGrows(config, events + [a] + [b], c);
    assert events + [a] + [b, c] == (events + [a] + [b]) + [c];
  }

  /** Every reconnect after the first `done` waited for the instant, and so will those still to come. */
  predicate Waits(sys: System, done: nat, instant: int) {
    && done <= |sys.reconnects| && ReconnectsFrom(sys.reconnects, done, instant)
    && (sys.now >= instant || AllDueFrom(sys.sleeps, instant))
  }

  lemma NextWaits(sys: System, config: Config, event: Event, done: nat, instant: int)
    requires Waits(sys, done, instant) && !event.Lost?
    ensures Waits(Next(sys, config, event), done, instant)
  {
  }

  lemma {:induction false} SleepersWait(config: Config, events: seq<Event>, later: seq<Event>, done: nat, instant: int)
    requires NoLoss(later) && Waits(Exec(config, events), done, instant)
    ensures Waits(Exec(config, events + later), done, instant)
    decreases |later|
  {
    if later == [] {
      assert events + later == events;
    } else {
      var front, last := later[..|later| - 1], later[|later| - 1];
      SleepersWait(config, events, front, done, instant);
      assert events + later == (events + front) + [last];
      ExecGrows(config, events + front, last);
      NextWaits(Exec(config, events + front), config, last, done, instant);
    }
  }

  /** If no earlier sleeper is out, the retry floor of an accepted loss holds until the next loss. */
  lemma RetryFloorHolds(config: Config, events: seq<Event>, mode: Mode, floor: int, later: seq<Event>)
    requires !Closing(Exec(config, events).rt) && !EarlierSleeper(Exec(config, events), floor) && NoLoss(later)
    ensures var sys := Exec(config, events);
            ReconnectsFrom(Exec(config, events + [Lost(mode, floor)] + later).reconnects, |sys.reconnects|,
                           sys.now + floor)
  {
    var sys := Exec(config, events);
    ExecGrows(config, events, Lost(mode, floor));
    LossSleeps(sys, config, mode, floor);
    SleepersWait(config, events + [Lost(mode, floor)], later, |sys.reconnects|, sys.now + floor);
  }

  /** If one is, it can reconnect before the floor. */
  lemma RetryFloorIsOverrun(config: Config, events: seq<Event>, mode: Mode, floor: int) returns (later: seq<Event>)
    requires !Closing(Exec(config, events).rt) && EarlierSleeper(Exec(config, events), floor)
    ensures NoLoss(later)
    ensures var sys := Exec(config, events);
            !ReconnectsFrom(Exec(config, events + [Lost(mode, floor)] + later).reconnects, |sys.reconnects|,
                            sys.now + floor)
  {
    var sys := Exec(config, events);
    var k :| 0 <= k < |sys.sleeps| && !sys.sleeps[k].woken && sys.sleeps[k].due < sys.now + floor;
    var wait: nat := if sys.sleeps[k].due > sys.now then sys.sleeps[k].due - sys.now else 0;
    later := [TimePasses(wait), Wake(k)];
    LossThenWake(sys, config, mode, floor, k, wait);
    ThreeMore(config, events, Lost(mode, floor), TimePasses(wait), Wake(k));
    assert Exec(config, events + [Lost(mode, floor)] + later).reconnects[|sys.reconnects|].at == sys.now + wait;
  }

  /** Such a history exists: a rate limit of 250 ms right after a disconnect is overrun after 10 ms. */
  lemma RetryFloorCanBeOverrun() returns (config: Config, events: seq<Event>)
    ensures Exec(config, events).reconnects == [Reconnect(10, Resume)]
    ensures |events| == 4 && events[1] == Lost(Identify, 250) && Exec(config, events[..1]).now == 0
  {
    config := Config(100, [10, 20]);
    var first, second := Lost(Resume, 0), Lost(Identify, 250);
    events := [first, second, TimePasses(10), Wake(0)];
    ExecGrows(config, [], first);
    assert [] + [first] == [first] == events[..1];
    var begun := Exec(config, [first]);
    LossSleeps(FRESH_SYSTEM, config, Resume, 0);
    LossThenWake(begun, config, Identify, 250, 0, 10);
    ThreeMore(config, [first], second, TimePasses(10), Wake(0));
    assert events == [first] + [second] + [TimePasses(10), Wake(0)];
  }
}
