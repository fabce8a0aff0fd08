/** The game observation scheduler: its object, and its steps between awaits. */
module Scheduler {
  import opened Members
  import opened Options
  import opened Streams
  import opened Incidents

  datatype Target = Target(linkId: Id, guild: Id, user: Id, platformId: string, version: int)

  datatype ActiveGame = ActiveGame(gameId: string, queueId: int, startedAt: int)

  datatype RiotReply = RiotActive(game: ActiveGame) | RiotInactive | RiotUnknown(reason: string)

  datatype PollResult = StoreSays(result: RecordResult) | IgnoredQueue | AlreadyRunning | NoActiveGame | Superseded

  /** What a reconciliation remembers of its members while it waits for the voice source. */
  datatype Snapshot = Snapshot(users: seq<Id>, baseline: map<Id, nat>, previous: map<Id, EvidenceState>)

  datatype Scheduler = Scheduler(streams: Streams, inFlight: set<Id>, generations: map<Id, nat>,
                                 activeGames: map<Id, ActiveGame>, interruptedAt: map<Member, int>,
                                 pendingViolations: set<Id>, lastReconciledAt: map<Id, int>, reconciliations: set<Id>)

  const IDLE_SCHEDULER := Scheduler(NO_STREAMS, {}, map[], map[], map[], {}, map[], {})

  // ---- Voice ----

  /** Streaming ends an interruption; stopping, when streaming was seen last, starts one. */
  function MoveCut(cuts: map<Member, int>, m: Member, previous: Option<EvidenceState>, state: EvidenceState, at: int)
    : map<Member, int>
  {
    if state.Active? then cuts - {m}
    else if state.Inactive? && previous == Some(Active) then cuts[m := at]
    else cuts
  }

  function StateNow(streams: Streams, m: Member): Option<EvidenceState> {
    if m in streams.states then Some(streams.states[m].state) else None
  }

  function HearVoice(s: Scheduler, m: Member, selfStream: Option<bool>, at: int): Scheduler {
    s.(streams := Observe(s.streams, m, selfStream, at),
       interruptedAt := MoveCut(s.interruptedAt, m, StateNow(s.streams, m), StateOf(selfStream), at))
  }

  function LoseGateway(s: Scheduler, at: int): Scheduler {
    s.(streams := Disconnect(s.streams, at))
  }

  /** The users of the guild among the targets, each once. */
  function RequestedUsers(targets: seq<Target>, guild: Id): seq<Id> {
    if targets == [] then []
    else
      var earlier := RequestedUsers(targets[..|targets| - 1], guild);
      var last := targets[|targets| - 1];
      if last.guild == guild && last.user !in earlier then earlier + [last.user] else earlier
  }

  function TakeSnapshot(streams: Streams, guild: Id, users: seq<Id>): Snapshot {
    Snapshot(users,
             map u | u in users && Member(guild, u) in streams.states :: streams.states[Member(guild, u)].generation,
             map u | u in users && Member(guild, u) in streams.states :: streams.states[Member(guild, u)].state)
  }

  /** What stands in for a reply when the voice source fails or runs out of time. */
  function NoReplies(users: seq<Id>): seq<Reply> {
    seq(|users|, i requires 0 <= i < |users| => Reply(users[i], None))
  }

  function MoveCuts(cuts: map<Member, int>, taken: seq<(Member, Observation)>, previous: map<Id, EvidenceState>,
                    at: int)
    : map<Member, int>
  {
    if taken == [] then cuts
    else
      var earlier := MoveCuts(cuts, taken[..|taken| - 1], previous, at);
      var (m, observation) := taken[|taken| - 1];
      MoveCut(earlier, m, Lookup(previous, m.user), observation.state, at)
  }

  function FinishReconcile(s: Scheduler, guild: Id, replies: seq<Reply>, at: int, snapshot: Snapshot): Scheduler {
    s.(streams := Reconcile(s.streams, guild, replies, at, Some(snapshot.baseline)),
       interruptedAt := MoveCuts(s.interruptedAt, Taken(s.streams, guild, replies, at, Some(snapshot.baseline)),
                                 snapshot.previous, at),
       lastReconciledAt := s.lastReconciledAt[guild := at], reconciliations := s.reconciliations - {guild})
  }

  // ---- Polls ----

  function NextGeneration(s: Scheduler, linkId: Id): nat {
    (if linkId in s.generations then s.generations[linkId] else 0) + 1
  }

  function BeginPoll(s: Scheduler, linkId: Id): Scheduler {
    s.(inFlight := s.inFlight + {linkId}, generations := s.generations[linkId := NextGeneration(s, linkId)])
  }

  function Leave(s: Scheduler, linkId: Id): Scheduler {
    s.(inFlight := s.inFlight - {linkId})
  }

  function NoteRiot(s: Scheduler, linkId: Id, reply: RiotReply): Scheduler {
    if reply.RiotActive? then s.(activeGames := s.activeGames[linkId := reply.game]) else s
  }

  function RiotState(reply: RiotReply): EvidenceState {
    match reply
    case RiotActive(_) => Active
    case RiotInactive => Inactive
    case RiotUnknown(_) => Unknown
  }

  function RiotCode(reply: RiotReply): string {
    match reply
    case RiotActive(_) => "spectator_active"
    case RiotInactive => "spectator_inactive"
    case RiotUnknown(reason) => reason
  }

  function CodeText(code: EvidenceCode): string {
    match code
    case VoiceStateEvent => "voice_state_event"
    case Reconciled => "reconciled"
    case GatewayUnavailable => "gateway_unavailable"
    case Stale => "stale"
  }

  function VoiceEvidence(s: Scheduler, m: Member, generation: nat, now: int, freshness: int): StreamEvidence {
    var voice := CurrentAt(s.streams, m, now, freshness);
    var interruption := Lookup(s.interruptedAt, m);
    match voice
    case None => StreamEvidence(Unknown, CodeText(GatewayUnavailable), generation, None, interruption)
    case Some(seen) => StreamEvidence(seen.state, CodeText(seen.code), generation, Some(seen.observedAt), interruption)
  }

  function Assemble(s: Scheduler, target: Target, game: ActiveGame, generation: nat, reply: RiotReply, now: int,
                    freshness: int) : GameObservation
  {
    GameObservation(target.linkId, target.version, target.platformId, game.gameId, game.queueId, game.startedAt,
                    target.user, now, RiotEvidence(RiotState(reply), RiotCode(reply), generation),
                    VoiceEvidence(s, Member(target.guild, target.user), generation, now, freshness))
  }

  /** What the poll does once Riot has answered. */
  datatype Decision = Returns(result: PollResult) | Throws | Ignores | Stores(row: Persisted)

  datatype Decided = Decided(scheduler: Scheduler, decision: Decision)

  function DecidePoll(s: Scheduler, target: Target, generation: nat, reply: RiotReply, now: int, freshness: int)
    : Decided
  {
    var noted := NoteRiot(s, target.linkId, reply);
    if Lookup(s.generations, target.linkId) != Some(generation)
    then Decided(Leave(s, target.linkId), Returns(Superseded))
    else if target.linkId !in noted.activeGames then Decided(Leave(noted, target.linkId), Returns(NoActiveGame))
    else
      match Execute(Assemble(noted, target, noted.activeGames[target.linkId], generation, reply, now, freshness))
      case Rejected => Decided(Leave(noted, target.linkId), Throws)
      case QueueIgnored => Decided(noted, Ignores)
      case Recording(row) => Decided(noted, Stores(row))
  }

  /** A recorded violation owes the link a notification. */
  function TakeResult(s: Scheduler, linkId: Id, result: PollResult): Scheduler {
    if result == StoreSays(ViolationRecorded) then s.(pendingViolations := s.pendingViolations + {linkId}) else s
  }

  function FinishPoll(s: Scheduler, linkId: Id, riot: EvidenceState): Scheduler {
    Leave(if riot.Inactive? then s.(activeGames := s.activeGames - {linkId}) else s, linkId)
  }

  function ClearPending(s: Scheduler, linkId: Id): Scheduler {
    s.(pendingViolations := s.pendingViolations - {linkId})
  }

  // ---- The scheduler object ----

  class GameObservationScheduler {
    const streams: DiscordStreamObserver
    var inFlight: set<Id>
    var generations: map<Id, nat>
    var activeGames: map<Id, ActiveGame>
    var interruptedAt: map<Member, int>
    var pendingViolations: set<Id>
    var lastReconciledAt: map<Id, int>
    var reconciliations: set<Id>
    const freshness: int

    function View(): Scheduler
      reads this, streams
    {
      Scheduler(streams.View(), inFlight, generations, activeGames, interruptedAt, pendingViolations, lastReconciledAt,
                reconciliations)
    }

    constructor (freshness: int)
      ensures View() == IDLE_SCHEDULER && fresh(streams) && this.freshness == freshness
    {
      streams := new DiscordStreamObserver();
      inFlight, generations, activeGames, interruptedAt := {}, map[], map[], map[];
      pendingViolations, lastReconciledAt, reconciliations := {}, map[], {};
      this.freshness := freshness;
    }

    method ObserveVoice(m: Member, selfStream: Option<bool>, at: int)
      modifies this, streams
      ensures View() == HearVoice(old(View()), m, selfStream, at)
    {
      var previous := StateNow(streams.View(), m);
      var current := streams.ObserveMember(m, selfStream, at);
      if previous == Some(Active) && current.state.Inactive? {
        interruptedAt := interruptedAt[m := at];
      } else if current.state.Active? {
        interruptedAt := interruptedAt - {m};
      }
    }

    method Disconnected(at: int)
      requires Sound(streams.View())
      modifies this, streams
      ensures View() == LoseGateway(old(View()), at)
    {
      streams.DisconnectAll(at);
    }

    /** Whether a new reconciliation starts; otherwise the running one is joined. */
    method StartReconcile(guild: Id) returns (started: bool)
      modifies this
      ensures started <==> guild !in old(reconciliations)
      ensures View() == old(View()).(reconciliations := old(reconciliations) + {guild})
    {
      started := guild !in reconciliations;
      reconciliations := reconciliations + {guild};
    }

    method AskVoice(guild: Id, targets: seq<Target>) returns (snapshot: Snapshot)
      ensures snapshot == TakeSnapshot(View().streams, guild, RequestedUsers(targets, guild))
    {
      var users := [];
      for i := 0 to |targets|
        invariant users == RequestedUsers(targets[..i], guild)
      {
        assert targets[..i + 1][..i] == targets[..i];
        if targets[i].guild == guild && targets[i].user !in users {
          users := users + [targets[i].user];
        }
      }
      assert targets[..|targets|] == targets;
      snapshot := TakeSnapshot(streams.View(), guild, users);
    }

    method VoiceReplied(guild: Id, replies: seq<Reply>, at: int, snapshot: Snapshot)
      modifies this, streams
      ensures View() == FinishReconcile(old(View()), guild, replies, at, snapshot)
    {
      ghost var start := interruptedAt;
      var made := streams.ReconcileMembers(guild, replies, at, Some(snapshot.baseline));
      for i := 0 to |made|
        invariant interruptedAt == MoveCuts(start, made[..i], snapshot.previous, at)
        invariant View() == old(View()).(streams := streams.View(), interruptedAt := interruptedAt)
        invariant streams.View() == Reconcile(old(streams.View()), guild, replies, at, Some(snapshot.baseline))
      {
        assert made[..i + 1][..i] == made[..i];
        var (m, observation) := made[i];
        if observation.state.Active? {
          interruptedAt := interruptedAt - {m};
        } else if observation.state.Inactive? && Lookup(snapshot.previous, m.user) == Some(Active) {
          interruptedAt := interruptedAt[m := at];
        }
      }
      assert made[..|made|] == made;
      lastReconciledAt := lastReconciledAt[guild := at];
      reconciliations := reconciliations - {guild};
    }

    method StartPoll(linkId: Id) returns (generation: Option<nat>)
      modifies this
      ensures generation == if linkId in old(inFlight) then None else Some(NextGeneration(old(View()), linkId))
      ensures View() == if linkId in old(inFlight) then old(View()) else BeginPoll(old(View()), linkId)
    {
      if linkId in inFlight { return None; }
      inFlight := inFlight + {linkId};
      var next := (if linkId in generations then generations[linkId] else 0) + 1;
      generations := generations[linkId := next];
      generation := Some(next);
    }

    method RiotAnswered(target: Target, generation: nat, reply: RiotReply, now: int) returns (decision: Decision)
      modifies this
      ensures DecidePoll(old(View()), target, generation, reply, now, freshness) == Decided(View(), decision)
    {
      var linkId := target.linkId;
      if Lookup(generations, linkId) != Some(generation) {
        inFlight := inFlight - {linkId};
        return Returns(Superseded);
      }
      if reply.RiotActive? {
        activeGames := activeGames[linkId := reply.game];
      }
      if linkId !in activeGames {
        inFlight := inFlight - {linkId};
        return Returns(NoActiveGame);
      }
      match Execute(Assemble(View(), target, activeGames[linkId], generation, reply, now, freshness))
      case Rejected =>
        inFlight := inFlight - {linkId};
        return Throws;
      case QueueIgnored => return Ignores;
      case Recording(row) => return Stores(row);
    }

    /** Whether a notification must be sent before the poll can end. */
    method ResultArrived(linkId: Id, riot: EvidenceState, result: PollResult) returns (notify: bool)
      modifies this
      ensures var taken := TakeResult(old(View()), linkId, result);
              && (notify <==> linkId in taken.pendingViolations)
              && View() == if notify then taken else FinishPoll(taken, linkId, riot)
    {
      if result == StoreSays(ViolationRecorded) {
        pendingViolations := pendingViolations + {linkId};
      }
      notify := linkId in pendingViolations;
      if !notify {
        EndPoll(linkId, riot);
      }
    }

    method NotificationSent(linkId: Id, riot: EvidenceState)
      modifies this
      ensures View() == FinishPoll(ClearPending(old(View()), linkId), linkId, riot)
    {
      pendingViolations := pendingViolations - {linkId};
      EndPoll(linkId, riot);
    }

    method EndPoll(linkId: Id, riot: EvidenceState)
      modifies this
      ensures View() == FinishPoll(old(View()), linkId, riot)
    {
      if riot.Inactive? {
        activeGames := activeGames - {linkId};
      }
      inFlight := inFlight - {linkId};
    }

    /** The store or the announcer failed: the poll throws. */
    method PollFailed(linkId: Id)
      modifies this
      ensures View() == Leave(old(View()), linkId)
    {
      inFlight := inFlight - {linkId};
    }
  }

  // ---- What the steps mean ----

  predicate Names(target: Target, guild: Id, user: Id) {
    target.guild == guild && target.user == user
  }

  predicate Distinct(users: seq<Id>) {
    forall i, j | 0 <= i < j < |users| :: users[i] != users[j]
  }

  /** The users asked for are those of the guild's targets, each once. */
  lemma {:induction false} RequestedMeans(targets: seq<Target>, guild: Id, user: Id)
    ensures Distinct(RequestedUsers(targets, guild))
    ensures user in RequestedUsers(targets, guild) <==> exists t | t in targets :: Names(t, guild, user)
    decreases |targets|
  {
    if targets != [] {
      var front, last := targets[..|targets| - 1], targets[|targets| - 1];
      var before, users := RequestedUsers(front, guild), RequestedUsers(targets, guild);
      RequestedMeans(front, guild, user);
      RequestedMeans(front, guild, last.user);
      assert targets == front + [last];
      assert last in targets && forall t | t in front :: t in targets;
      assert users == before || users == before + [last.user];
      if last.guild == guild {
        assert Names(last, guild, last.user);
        assert last.user in users;
      }
    }
  }

  /** What is known of a member's stream: the state held, unless it is as old as the freshness bound. */
  predicate Knows(s: Scheduler, m: Member, now: int, freshness: int, evidence: StreamEvidence) {
    && evidence.interruptedAt == (if m in s.interruptedAt then Some(s.interruptedAt[m]) else None)
    && if m !in s.streams.states
       then (evidence.state, evidence.code, evidence.sourceObservedAt) == (Unknown, "gateway_unavailable", None)
       else
         var held := s.streams.states[m];
         && evidence.sourceObservedAt == Some(held.observedAt)
         && if held.state != Unknown && now - held.observedAt >= freshness
            then (evidence.state, evidence.code) == (Unknown, "stale")
            else evidence.state == held.state
                 && evidence.code == if held.code == VoiceStateEvent then "voice_state_event"
                                     else if held.code == Reconciled then "reconciled"
                                     else if held.code == GatewayUnavailable then "gateway_unavailable" else "stale"
  }

  predicate SaidByRiot(reply: RiotReply, evidence: RiotEvidence) {
    (evidence.state, evidence.code)
    == if reply.RiotActive? then (Active, "spectator_active")
       else if reply.RiotInactive? then (Inactive, "spectator_inactive") else (Unknown, reply.reason)
  }

  /** The observation a poll makes of a game: the target's and the game's own data, what Riot said, and what
      is known of the user's stream, all at the instant of the reply. */
  lemma PollObserves(s: Scheduler, target: Target, game: ActiveGame, generation: nat, reply: RiotReply, now: int,
                     freshness: int)
    ensures var o := Assemble(s, target, game, generation, reply, now, freshness);
            && (o.linkId, o.linkVersion, o.platformId, o.user)
               == (target.linkId, target.version, target.platformId, target.user)
            && (o.gameId, o.queueId, o.gameStartedAt) == (game.gameId, game.queueId, game.startedAt)
            && o.observedAt == now && o.riot.generation == generation == o.goLive.generation
            && SaidByRiot(reply, o.riot)
            && Knows(s, Member(target.guild, target.user), now, freshness, o.goLive)
  {
  }

  /** What a poll does with a Riot reply: it gives way to a newer poll, ends without an active game, and
      otherwise executes its observation of the game Riot named now or, if it names none, before. */
  lemma PollDecides(s: Scheduler, target: Target, generation: nat, reply: RiotReply, now: int, freshness: int)
    ensures var Decided(after, decision) := DecidePoll(s, target, generation, reply, now, freshness);
            var link := target.linkId;
            var games := if reply.RiotActive? then s.activeGames[link := reply.game] else s.activeGames;
            if !(link in s.generations && s.generations[link] == generation)
            then decision == Returns(Superseded) && after == s.(inFlight := s.inFlight - {link})
            else if link !in games
            then decision == Returns(NoActiveGame) && after == s.(activeGames := games, inFlight := s.inFlight - {link})
            else
              var execution := Execute(Assemble(s, target, games[link], generation, reply, now, freshness));
              && (execution.Rejected? ==>
                    decision == Throws && after == s.(activeGames := games, inFlight := s.inFlight - {link}))
              && (execution.QueueIgnored? ==> decision == Ignores && after == s.(activeGames := games))
              && (execution.Recording? ==> decision == Stores(execution.row) && after == s.(activeGames := games))
  {
    var noted := NoteRiot(s, target.linkId, reply);
    if target.linkId in noted.activeGames {
      assert Assemble(noted, target, noted.activeGames[target.linkId], generation, reply, now, freshness)
          == Assemble(s, target, noted.activeGames[target.linkId], generation, reply, now, freshness);
    }
  }

  /** A poll begins under the generation after its link's last, the first under 1. */
  lemma PollBegins(s: Scheduler, link: Id)
    ensures var next := if link in s.generations then s.generations[link] + 1 else 1;
            && NextGeneration(s, link) == next
            && BeginPoll(s, link)
               == s.(inFlight := s.inFlight + {link}, generations := s.generations[link := next])
  {
  }

  /** A reconciliation that ends frees its guild and is dated; interruptions and observations aside it
      moves nothing. */
  lemma ReconcileFrees(s: Scheduler, guild: Id, replies: seq<Reply>, at: int, snapshot: Snapshot)
    ensures var after := FinishReconcile(s, guild, replies, at, snapshot);
            after == s.(streams := after.streams, interruptedAt := after.interruptedAt,
                        lastReconciledAt := s.lastReconciledAt[guild := at],
                        reconciliations := set g | g in s.reconciliations && g != guild)
  {
  }

  /** A poll that is over frees its link and forgets the game if Riot said that nothing is played. */
  lemma PollFrees(s: Scheduler, link: Id, reply: RiotReply)
    ensures FinishPoll(s, link, RiotState(reply))
         == s.(inFlight := s.inFlight - {link},
               activeGames := if reply.RiotInactive? then s.activeGames - {link} else s.activeGames)
  {
  }
}
