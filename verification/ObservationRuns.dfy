/** Every interleaving of voice events, disconnects, reconciliations, polls, store outcomes,
    notifications and outside table changes within one process, and what the scheduler then knows
    about each member. */
module ObservationRuns {
  import opened Members
  import opened Options
  import opened Streams
  import opened Incidents
  import opened Scheduler
  import IR = IncidentRuns

  datatype Ask = Listing | Asking(snapshot: Snapshot)

  /** Where a poll of a link waits. */
  datatype Phase =
    | AwaitRiot(target: Target, generation: nat)
    | AwaitStore(target: Target, riot: EvidenceState, row: Persisted)
    | AwaitResult(target: Target, riot: EvidenceState, result: PollResult)
    | AwaitNotify(target: Target, riot: EvidenceState, result: PollResult)

  datatype Output =
    | Stored(link: Id, incident: IncidentId, stored: RecordResult)
    | Returned(link: Id, result: PollResult)
    | Notified(link: Id)
    | Threw(link: Id)

  datatype System = System(sched: Scheduler, asks: map<Id, Ask>, polls: map<Id, Phase>, tables: Tables,
                           log: seq<Output>)

  const FRESH_SYSTEM := System(IDLE_SCHEDULER, map[], map[], EMPTY_TABLES, [])

  datatype Event =
    | VoiceEvent(member: Member, selfStream: Option<bool>, at: int)
    | GatewayDown(at: int)
    | ReconcileCalled(guild: Id)
    | TargetsListed(guild: Id, targets: seq<Target>)
    | TargetsUnavailable(guild: Id)
    | VoiceAnswered(guild: Id, replies: seq<Reply>, at: int)
    | VoiceUnavailable(guild: Id, at: int)
    | PollCalled(target: Target)
    | RiotAnswers(link: Id, reply: RiotReply, now: int)
    | StoreCommits(link: Id)
    | StoreFails(link: Id)
    | ResultArrives(link: Id)
    | NotifySucceeds(link: Id)
    | NotifyFails(link: Id)
    | Outside(action: IR.Action)

  function Finish(sys: System, guild: Id, replies: seq<Reply>, at: int, snapshot: Snapshot): System {
    sys.(sched := FinishReconcile(sys.sched, guild, replies, at, snapshot), asks := sys.asks - {guild})
  }

  function VoiceStep(sys: System, event: Event): System {
    match event
    case VoiceEvent(m, selfStream, at) => sys.(sched := HearVoice(sys.sched, m, selfStream, at))
    case GatewayDown(at) => sys.(sched := LoseGateway(sys.sched, at))
    case ReconcileCalled(guild) =>
      if guild in sys.asks then sys
      else sys.(sched := sys.sched.(reconciliations := sys.sched.reconciliations + {guild}),
                asks := sys.asks[guild := Listing])
    case TargetsListed(guild, targets) =>
      if guild in sys.asks && sys.asks[guild].Listing?
      then sys.(asks := sys.asks[guild :=
                  Asking(TakeSnapshot(sys.sched.streams, guild, RequestedUsers(targets, guild)))])
      else sys
    case TargetsUnavailable(guild) =>
      if guild in sys.asks && sys.asks[guild].Listing?
      then sys.(sched := sys.sched.(reconciliations := sys.sched.reconciliations - {guild}), asks := sys.asks - {guild})
      else sys
    case VoiceAnswered(guild, replies, at) =>
      if guild in sys.asks && sys.asks[guild].Asking?
      then Finish(sys, guild, replies, at, sys.asks[guild].snapshot) else sys
    case VoiceUnavailable(guild, at) =>
      if guild in sys.asks && sys.asks[guild].Asking?
      then Finish(sys, guild, NoReplies(sys.asks[guild].snapshot.users), at, sys.asks[guild].snapshot)
      else sys
    case _ => sys
  }

  function Say(sys: System, output: Output): System {
    sys.(log := sys.log + [output])
  }

  /** The poll of the link is over: it leaves its phase and reports. */
  function EndOfPoll(sys: System, link: Id, sched: Scheduler, output: Output): System {
    Say(sys.(sched := sched, polls := sys.polls - {link}), output)
  }

  function StepRiot(sys: System, freshness: int, link: Id, reply: RiotReply, now: int): System
    requires link in sys.polls && sys.polls[link].AwaitRiot?
  {
    var AwaitRiot(target, generation) := sys.polls[link];
    var decided := DecidePoll(sys.sched, target, generation, reply, now, freshness);
    match decided.decision
    case Returns(result) => EndOfPoll(sys, link, decided.scheduler, Returned(link, result))
    case Throws => EndOfPoll(sys, link, decided.scheduler, Threw(link))
    case Ignores =>
      sys.(sched := decided.scheduler, polls := sys.polls[link := AwaitResult(target, RiotState(reply), IgnoredQueue)])
    case Stores(row) =>
      sys.(sched := decided.scheduler, polls := sys.polls[link := AwaitStore(target, RiotState(reply), row)])
  }

  function StepStore(sys: System, link: Id): System
    requires link in sys.polls && sys.polls[link].AwaitStore?
  {
    var AwaitStore(target, riot, row) := sys.polls[link];
    var done := RecordObservation(sys.tables, row);
    if done.result.WriteFailed? then EndOfPoll(sys, link, Leave(sys.sched, link), Threw(link))
    else Say(sys.(tables := done.tables, polls := sys.polls[link := AwaitResult(target, riot, StoreSays(done.result))]),
             Stored(link, row.observation.IncidentKey(), done.result))
  }

  function StepResult(sys: System, link: Id): System
    requires link in sys.polls && sys.polls[link].AwaitResult?
  {
    var AwaitResult(target, riot, result) := sys.polls[link];
    var taken := TakeResult(sys.sched, link, result);
    if link in taken.pendingViolations
    then sys.(sched := taken, polls := sys.polls[link := AwaitNotify(target, riot, result)])
    else EndOfPoll(sys, link, FinishPoll(taken, link, riot), Returned(link, result))
  }

  function PollStep(sys: System, freshness: int, event: Event): System {
    match event
    case PollCalled(target) =>
      if target.linkId in sys.sched.inFlight then Say(sys, Returned(target.linkId, AlreadyRunning))
      else sys.(sched := BeginPoll(sys.sched, target.linkId),
                polls := sys.polls[target.linkId := AwaitRiot(target, NextGeneration(sys.sched, target.linkId))])
    case RiotAnswers(link, reply, now) =>
      if link in sys.polls && sys.polls[link].AwaitRiot? then StepRiot(sys, freshness, link, reply, now) else sys
    case StoreCommits(link) => if link in sys.polls && sys.polls[link].AwaitStore? then StepStore(sys, link) else sys
    case StoreFails(link) =>
      if link in sys.polls
         && (sys.polls[link].AwaitStore? || (sys.polls[link].AwaitResult? && sys.polls[link].result.StoreSays?))
      then EndOfPoll(sys, link, Leave(sys.sched, link), Threw(link))
      else sys
    case ResultArrives(link) => if link in sys.polls && sys.polls[link].AwaitResult? then StepResult(sys, link) else sys
    case NotifySucceeds(link) =>
      if link in sys.polls && sys.polls[link].AwaitNotify?
      then EndOfPoll(Say(sys, Notified(link)), link,
                     FinishPoll(ClearPending(sys.sched, link), link, sys.polls[link].riot),
                     Returned(link, sys.polls[link].result))
      else sys
    case NotifyFails(link) =>
      if link in sys.polls && sys.polls[link].AwaitNotify?
      then EndOfPoll(sys, link, Leave(sys.sched, link), Threw(link))
      else sys
    case Outside(action) => if action.Observed? then sys else sys.(tables := IR.Step(sys.tables, action))
    case _ => sys
  }

  predicate IsVoice(event: Event) {
    || event.VoiceEvent? || event.GatewayDown? || event.ReconcileCalled? || event.TargetsListed?
    || event.TargetsUnavailable? || event.VoiceAnswered? || event.VoiceUnavailable?
  }

  function Next(sys: System, freshness: int, event: Event): System {
    if IsVoice(event) then VoiceStep(sys, event) else PollStep(sys, freshness, event)
  }

  function Exec(freshness: int, events: seq<Event>): System {
    if events == [] then FRESH_SYSTEM
    else Next(Exec(freshness, events[..|events| - 1]), freshness, events[|events| - 1])
  }

  // ---- What the history says about a member ----

  datatype Mark = Mark(state: EvidenceState, at: int, code: EvidenceCode)

  /** The reconciliation of a guild: since when its members are asked for, as a length of the history. */
  datatype Asked = NotAsked | ListingTargets | AskedSince(since: nat, users: seq<Id>)

  function AskOf(guild: Id, events: seq<Event>): (r: Asked)
    ensures r.AskedSince? ==> r.since <= |events|
  {
    if events == [] then NotAsked
    else
      var prior := AskOf(guild, events[..|events| - 1]);
      match events[|events| - 1]
      case ReconcileCalled(g) => if g == guild && prior.NotAsked? then ListingTargets else prior
      case TargetsListed(g, targets) =>
        if g == guild && prior.ListingTargets? then AskedSince(|events|, RequestedUsers(targets, guild)) else prior
      case TargetsUnavailable(g) => if g == guild && prior.ListingTargets? then NotAsked else prior
      case VoiceAnswered(g, _, _) => if g == guild && prior.AskedSince? then NotAsked else prior
      case VoiceUnavailable(g, _) => if g == guild && prior.AskedSince? then NotAsked else prior
      case _ => prior
  }

  /** What the replies say about the user; when the source failed every user asked for is unknown. */
  function ReplyAbout(asked: Asked, event: Event, user: Id): Option<Reply> {
    if event.VoiceAnswered? then FirstReply(event.replies, user)
    else if asked.AskedSince? && user in asked.users then Some(Reply(user, None))
    else None
  }

  /** The mark of something heard: streaming, not streaming, or nothing said either way. */
  function HeardMark(selfStream: Option<bool>, at: int, code: EvidenceCode): Mark {
    Mark(if selfStream == Some(true) then Active else if selfStream == Some(false) then Inactive else Unknown, at, code)
  }

  /** Everything that counts about a member, in order, told without generations: voice events,
      disconnects once anything is known, and the reconciliation replies during whose wait nothing
      else about the member counted. A reply about a user not asked for counts only if nothing did. */
  function Marks(m: Member, events: seq<Event>): seq<Mark>
    decreases |events|
  {
    if events == [] then []
    else
      var front, last := events[..|events| - 1], events[|events| - 1];
      var marks := Marks(m, front);
      match last
      case VoiceEvent(n, selfStream, at) =>
        if n == m then marks + [HeardMark(selfStream, at, VoiceStateEvent)] else marks
      case GatewayDown(at) => if marks == [] then marks else marks + [Mark(Unknown, at, GatewayUnavailable)]
      case VoiceAnswered(guild, _, at) =>
        var asked := AskOf(guild, front);
        var reply := ReplyAbout(asked, last, m.user);
        if && guild == m.guild && asked.AskedSince? && reply.Some?
           && (if m.user in asked.users then |Marks(m, front[..asked.since])| == |marks| else marks == [])
        then marks + [HeardMark(reply.value.selfStream, at, Reconciled)]
        else marks
      case VoiceUnavailable(guild, at) =>
        var asked := AskOf(guild, front);
        var reply := ReplyAbout(asked, last, m.user);
        if && guild == m.guild && asked.AskedSince? && reply.Some?
           && (if m.user in asked.users then |Marks(m, front[..asked.since])| == |marks| else marks == [])
        then marks + [HeardMark(reply.value.selfStream, at, Reconciled)]
        else marks
      case _ => marks
  }

  function LastMark(marks: seq<Mark>): Option<Mark> {
    if marks == [] then None else Some(marks[|marks| - 1])
  }

  function LastState(marks: seq<Mark>): Option<EvidenceState> {
    if marks == [] then None else Some(marks[|marks| - 1].state)
  }

  function CutAfter(cut: Option<int>, previous: Option<EvidenceState>, state: EvidenceState, at: int): Option<int> {
    if state.Active? then None else if state.Inactive? && previous == Some(Active) then Some(at) else cut
  }

  /** Since when the member's stream counts as interrupted. */
  function Cut(marks: seq<Mark>): Option<int> {
    if marks == [] then None
    else
      var front, last := marks[..|marks| - 1], marks[|marks| - 1];
      CutAfter(Cut(front), LastState(front), last.state, last.at)
  }

  /** An interruption is on record since an instant exactly when the stream was seen to stop then, from
      active straight to inactive, and was never seen active afterwards. */
  lemma {:induction false} CutMeans(marks: seq<Mark>, since: int)
    ensures Cut(marks) == Some(since) <==> exists i :: StopsAt(marks, i, since)
    decreases |marks|
  {
    if marks != [] {
      var front := marks[..|marks| - 1];
      CutMeans(front, since);
      var n := |marks| - 1;
      if Cut(marks) == Some(since) {
        if marks[n].state.Inactive? && LastState(front) == Some(Active) {
          assert marks[n - 1] == front[n - 1];
          assert StopsAt(marks, n, since);
        } else {
          var i :| StopsAt(front, i, since);
          assert marks == front + [marks[n]] && !marks[n].state.Active?;
          assert StopsAt(marks, i, since);
        }
      }
      if i :| StopsAt(marks, i, since) {
        if i < n {
          assert marks[n - 1] == front[n - 1];
          assert StopsAt(front, i, since);
        }
      }
    }
  }

  predicate StopsAt(marks: seq<Mark>, i: int, since: int) {
    && 0 < i < |marks| && marks[i - 1].state.Active? && marks[i].state.Inactive? && marks[i].at == since
    && forall j | i <= j < |marks| :: !marks[j].state.Active?
  }

  // ---- The scheduler holds what the history says ----

  predicate Holds(seen: Option<Observation>, mark: Option<Mark>) {
    match mark
    case None => seen.None?
    case Some(last) =>
      seen.Some? && seen.value.state == last.state && seen.value.observedAt == last.at && seen.value.code == last.code
  }

  ghost predicate AskHolds(sys: System, events: seq<Event>, m: Member) {
    match AskOf(m.guild, events)
    case NotAsked => m.guild !in sys.asks
    case ListingTargets => m.guild in sys.asks && sys.asks[m.guild].Listing?
    case AskedSince(since, users) =>
      && m.guild in sys.asks && sys.asks[m.guild].Asking?
      && var snapshot := sys.asks[m.guild].snapshot;
         && snapshot.users == users
         && SnapshotHolds(sys.sched.streams, snapshot, m, |Marks(m, events[..since])|, |Marks(m, events)|)
  }

  /** The baseline generation tells exactly whether anything counted since it was taken. */
  ghost predicate SnapshotHolds(streams: Streams, snapshot: Snapshot, m: Member, before: nat, now: nat) {
    && (forall u :: u in snapshot.baseline ==> snapshot.baseline[u] <= streams.generation)
    && (m.user in snapshot.users ==>
          && (before == now <==> GenerationOf(streams, m) == Lookup(snapshot.baseline, m.user))
          && (before == now ==> Lookup(snapshot.previous, m.user) == StateNow(streams, m))
          && before <= now)
    && (m.user !in snapshot.users ==> m.user !in snapshot.baseline && m.user !in snapshot.previous)
  }

  ghost predicate MemberHolds(sys: System, events: seq<Event>, m: Member) {
    && Sound(sys.sched.streams)
    && Holds(Lookup(sys.sched.streams.states, m), LastMark(Marks(m, events)))
    && Lookup(sys.sched.interruptedAt, m) == Cut(Marks(m, events))
    && AskHolds(sys, events, m)
  }

  lemma CutGrows(marks: seq<Mark>, mark: Mark)
    ensures Cut(marks + [mark]) == CutAfter(Cut(marks), LastState(marks), mark.state, mark.at)
  {
    assert (marks + [mark])[..|marks|] == marks;
  }

  lemma {:induction false} MoveCutsOf(cuts: map<Member, int>, taken: seq<(Member, Observation)>,
                                      previous: map<Id, EvidenceState>, at: int, m: Member)
    requires |TakenFor(taken, m)| <= 1
    ensures var own := TakenFor(taken, m);
            Lookup(MoveCuts(cuts, taken, previous, at), m)
            == if own == [] then Lookup(cuts, m)
               else CutAfter(Lookup(cuts, m), Lookup(previous, m.user), own[0].state, at)
    decreases |taken|
  {
    if taken != [] {
      MoveCutsOf(cuts, taken[..|taken| - 1], previous, at, m);
    }
  }

  lemma {:induction false} NoRepliesSayUnknown(users: seq<Id>, user: Id)
    ensures FirstReply(NoReplies(users), user) == if user in users then Some(Reply(user, None)) else None
    decreases |users|
  {
    if users != [] {
      var front := users[..|users| - 1];
      NoRepliesSayUnknown(front, user);
      assert NoReplies(users)[..|users| - 1] == NoReplies(front);
    }
  }

  lemma MarksGrow(m: Member, events: seq<Event>, event: Event)
    ensures (events + [event])[..|events|] == events
    ensures forall since :: 0 <= since <= |events| ==> (events + [event])[..since] == events[..since]
  {
  }

  /** A step that does not touch the member. */
  ghost predicate Untouched(sys: System, next: System, events: seq<Event>, event: Event, m: Member) {
    && Sound(next.sched.streams) && next.sched.streams.generation >= sys.sched.streams.generation
    && Lookup(next.asks, m.guild) == Lookup(sys.asks, m.guild)
    && AskOf(m.guild, events + [event]) == AskOf(m.guild, events)
  }

  lemma UnmarkedKeeps(sys: System, next: System, events: seq<Event>, event: Event, m: Member)
    requires MemberHolds(sys, events, m) && Untouched(sys, next, events, event, m)
    requires Marks(m, events + [event]) == Marks(m, events)
    requires Lookup(next.sched.streams.states, m) == Lookup(sys.sched.streams.states, m)
    requires Lookup(next.sched.interruptedAt, m) == Lookup(sys.sched.interruptedAt, m)
    ensures MemberHolds(next, events + [event], m)
  {
    MarksGrow(m, events, event);
    assert GenerationOf(next.sched.streams, m) == GenerationOf(sys.sched.streams, m);
    assert StateNow(next.sched.streams, m) == StateNow(sys.sched.streams, m);
  }

  lemma MarkedKeeps(sys: System, next: System, events: seq<Event>, event: Event, m: Member, mark: Mark)
    requires MemberHolds(sys, events, m) && Untouched(sys, next, events, event, m)
    requires Marks(m, events + [event]) == Marks(m, events) + [mark]
    requires Holds(Lookup(next.sched.streams.states, m), Some(mark))
    requires GenerationOf(next.sched.streams, m).Some?
        && GenerationOf(next.sched.streams, m).value > sys.sched.streams.generation
    requires Lookup(next.sched.interruptedAt, m)
          == CutAfter(Lookup(sys.sched.interruptedAt, m), LastState(Marks(m, events)), mark.state, mark.at)
    ensures MemberHolds(next, events + [event], m)
  {
    MarksGrow(m, events, event);
    CutGrows(Marks(m, events), mark);
  }

  lemma MoveCutOf(cuts: map<Member, int>, n: Member, previous: Option<EvidenceState>, state: EvidenceState, at: int,
                  m: Member)
    ensures Lookup(MoveCut(cuts, n, previous, state, at), m)
         == if n == m then CutAfter(Lookup(cuts, m), previous, state, at) else Lookup(cuts, m)
  {
  }

  lemma VoiceEventUntouched(sys: System, events: seq<Event>, event: Event, m: Member)
    requires Sound(sys.sched.streams) && event.VoiceEvent?
    ensures Untouched(sys, VoiceStep(sys, event), events, event, m)
    ensures Marks(m, events + [event])
         == if event.member == m then Marks(m, events) + [HeardMark(event.selfStream, event.at, VoiceStateEvent)]
            else Marks(m, events)
  {
    MarksGrow(m, events, event);
    PutIsSound(sys.sched.streams, event.member, StateOf(event.selfStream), event.at, VoiceStateEvent);
  }

  lemma VoiceEventKeeps(sys: System, events: seq<Event>, event: Event, m: Member)
    requires MemberHolds(sys, events, m) && event.VoiceEvent?
    ensures MemberHolds(VoiceStep(sys, event), events + [event], m)
  {
    var VoiceEvent(n, selfStream, at) := event;
    VoiceEventUntouched(sys, events, event, m);
    MoveCutOf(sys.sched.interruptedAt, n, StateNow(sys.sched.streams, n), StateOf(selfStream), at, m);
    if n == m {
      MarkedKeeps(sys, VoiceStep(sys, event), events, event, m, HeardMark(selfStream, at, VoiceStateEvent));
    } else {
      UnmarkedKeeps(sys, VoiceStep(sys, event), events, event, m);
    }
  }

  lemma GatewayDownKeeps(sys: System, events: seq<Event>, event: Event, m: Member)
    requires MemberHolds(sys, events, m) && event.GatewayDown?
    ensures MemberHolds(VoiceStep(sys, event), events + [event], m)
  {
    MarksGrow(m, events, event);
    DisconnectTouchesAll(sys.sched.streams, event.at, m);
    if Marks(m, events) == [] {
      UnmarkedKeeps(sys, VoiceStep(sys, event), events, event, m);
    } else {
      MarkedKeeps(sys, VoiceStep(sys, event), events, event, m, Mark(Unknown, event.at, GatewayUnavailable));
    }
  }

  lemma TargetsListedKeeps(sys: System, events: seq<Event>, event: Event, m: Member)
    requires MemberHolds(sys, events, m) && event.TargetsListed? && event.guild == m.guild
    requires m.guild in sys.asks && sys.asks[m.guild].Listing?
    ensures MemberHolds(VoiceStep(sys, event), events + [event], m)
  {
    MarksGrow(m, events, event);
    var all := events + [event];
    assert all[..|all|] == all;
    assert Marks(m, all) == Marks(m, events);
    assert AskOf(m.guild, all) == AskedSince(|all|, RequestedUsers(event.targets, m.guild));
  }

  lemma ReconcileCallKeeps(sys: System, events: seq<Event>, event: Event, m: Member)
    requires MemberHolds(sys, events, m) && event.ReconcileCalled?
    ensures MemberHolds(VoiceStep(sys, event), events + [event], m)
  {
    MarksGrow(m, events, event);
    assert Marks(m, events + [event]) == Marks(m, events);
    if event.guild != m.guild || m.guild in sys.asks {
      UnmarkedKeeps(sys, VoiceStep(sys, event), events, event, m);
    }
  }

  lemma TargetsFailureKeeps(sys: System, events: seq<Event>, event: Event, m: Member)
    requires MemberHolds(sys, events, m) && event.TargetsUnavailable?
    ensures MemberHolds(VoiceStep(sys, event), events + [event], m)
  {
    MarksGrow(m, events, event);
    assert Marks(m, events + [event]) == Marks(m, events);
    if event.guild != m.guild || m.guild !in sys.asks || !sys.asks[m.guild].Listing? {
      UnmarkedKeeps(sys, VoiceStep(sys, event), events, event, m);
    }
  }

  lemma TargetsListedElsewhereKeeps(sys: System, events: seq<Event>, event: Event, m: Member)
    requires MemberHolds(sys, events, m) && event.TargetsListed?
    requires event.guild != m.guild || m.guild !in sys.asks || !sys.asks[m.guild].Listing?
    ensures MemberHolds(VoiceStep(sys, event), events + [event], m)
  {
    MarksGrow(m, events, event);
    assert Marks(m, events + [event]) == Marks(m, events);
    UnmarkedKeeps(sys, VoiceStep(sys, event), events, event, m);
  }

  lemma TargetsKeep(sys: System, events: seq<Event>, event: Event, m: Member)
    requires MemberHolds(sys, events, m)
    requires event.ReconcileCalled? || event.TargetsListed? || event.TargetsUnavailable?
    ensures MemberHolds(VoiceStep(sys, event), events + [event], m)
  {
    if event.ReconcileCalled? {
      ReconcileCallKeeps(sys, events, event, m);
    } else if event.TargetsUnavailable? {
      TargetsFailureKeeps(sys, events, event, m);
    } else if event.guild == m.guild && m.guild in sys.asks && sys.asks[m.guild].Listing? {
      TargetsListedKeeps(sys, events, event, m);
    } else {
      TargetsListedElsewhereKeeps(sys, events, event, m);
    }
  }

  /** Whether the reply of the member's own guild counts, by generations and by the history. */
  lemma OwnReplyMarks(sys: System, events: seq<Event>, event: Event, reply: Option<Reply>, m: Member)
    requires MemberHolds(sys, events, m) && (event.VoiceAnswered? || event.VoiceUnavailable?)
    requires event.guild == m.guild && m.guild in sys.asks && sys.asks[m.guild].Asking?
    requires reply == ReplyAbout(AskOf(m.guild, events), event, m.user)
    ensures var baseline, marks := sys.asks[m.guild].snapshot.baseline, Marks(m, events);
            Marks(m, events + [event])
            == if reply.Some? && GenerationOf(sys.sched.streams, m) == Lookup(baseline, m.user)
               then marks + [HeardMark(reply.value.selfStream, event.at, Reconciled)] else marks
    ensures AskOf(m.guild, events + [event]).NotAsked?
  {
    MarksGrow(m, events, event);
  }

  /** A reconciliation of the member's own guild ends. */
  lemma OwnReplyKeeps(sys: System, events: seq<Event>, event: Event, replies: seq<Reply>, m: Member)
    requires MemberHolds(sys, events, m) && (event.VoiceAnswered? || event.VoiceUnavailable?)
    requires event.guild == m.guild && m.guild in sys.asks && sys.asks[m.guild].Asking?
    requires FirstReply(replies, m.user) == ReplyAbout(AskOf(m.guild, events), event, m.user)
    ensures MemberHolds(Finish(sys, event.guild, replies, event.at, sys.asks[m.guild].snapshot), events + [event], m)
  {
    var snapshot, sched := sys.asks[m.guild].snapshot, sys.sched;
    var marks, reply := Marks(m, events), FirstReply(replies, m.user);
    OwnReplyMarks(sys, events, event, reply, m);
    ReconcileMember(sched.streams, m.guild, replies, event.at, snapshot.baseline, m);
    MoveCutsOf(sched.interruptedAt, Taken(sched.streams, m.guild, replies, event.at, Some(snapshot.baseline)),
               snapshot.previous, event.at, m);
    if reply.Some? {
      CutGrows(marks, HeardMark(reply.value.selfStream, event.at, Reconciled));
    }
  }

  /** A reconciliation of another guild ends. */
  lemma OtherReplyKeeps(sys: System, events: seq<Event>, event: Event, replies: seq<Reply>, snapshot: Snapshot,
                        m: Member)
    requires MemberHolds(sys, events, m) && (event.VoiceAnswered? || event.VoiceUnavailable?)
    requires event.guild != m.guild
    requires forall u | u in snapshot.baseline :: snapshot.baseline[u] <= sys.sched.streams.generation
    ensures MemberHolds(Finish(sys, event.guild, replies, event.at, snapshot), events + [event], m)
  {
    MarksGrow(m, events, event);
    var streams, next := sys.sched.streams, Finish(sys, event.guild, replies, event.at, snapshot);
    ReconcileMember(streams, event.guild, replies, event.at, snapshot.baseline, m);
    MoveCutsOf(sys.sched.interruptedAt, Taken(streams, event.guild, replies, event.at, Some(snapshot.baseline)),
               snapshot.previous, event.at, m);
    UnmarkedKeeps(sys, next, events, event, m);
  }

  lemma ReplyKeeps(sys: System, events: seq<Event>, event: Event, m: Member)
    requires MemberHolds(sys, events, m) && (event.VoiceAnswered? || event.VoiceUnavailable?)
    requires MemberHolds(sys, events, Member(event.guild, m.user))
    ensures MemberHolds(VoiceStep(sys, event), events + [event], m)
  {
    var guild := event.guild;
    if guild in sys.asks && sys.asks[guild].Asking? {
      var snapshot := sys.asks[guild].snapshot;
      var replies := if event.VoiceAnswered? then event.replies else NoReplies(snapshot.users);
      NoRepliesSayUnknown(snapshot.users, m.user);
      if guild == m.guild {
        OwnReplyKeeps(sys, events, event, replies, m);
      } else {
        OtherReplyKeeps(sys, events, event, replies, snapshot, m);
      }
    } else {
      MarksGrow(m, events, event);
    }
  }

  lemma PollKeeps(sys: System, events: seq<Event>, freshness: int, event: Event, m: Member)
    requires MemberHolds(sys, events, m) && !IsVoice(event)
    ensures MemberHolds(PollStep(sys, freshness, event), events + [event], m)
  {
    MarksGrow(m, events, event);
    PollSparesVoice(sys, freshness, event);
    UnmarkedKeeps(sys, PollStep(sys, freshness, event), events, event, m);
  }

  predicate SameVoice(sys: System, next: System) {
    && next.sched.streams == sys.sched.streams && next.sched.interruptedAt == sys.sched.interruptedAt
    && next.asks == sys.asks && next.sched.reconciliations == sys.sched.reconciliations
  }

  lemma RiotStepSparesVoice(sys: System, freshness: int, link: Id, reply: RiotReply, now: int)
    requires link in sys.polls && sys.polls[link].AwaitRiot?
    ensures SameVoice(sys, StepRiot(sys, freshness, link, reply, now))
  {
    var AwaitRiot(target, generation) := sys.polls[link];
    RiotSparesVoice(sys.sched, target, generation, reply, now, freshness);
  }

  lemma StoreStepSparesVoice(sys: System, link: Id)
    requires link in sys.polls && sys.polls[link].AwaitStore?
    ensures SameVoice(sys, StepStore(sys, link))
  {
  }

  lemma PollSparesVoice(sys: System, freshness: int, event: Event)
    requires !IsVoice(event)
    ensures SameVoice(sys, PollStep(sys, freshness, event))
  {
    if event.RiotAnswers? {
      if event.link in sys.polls && sys.polls[event.link].AwaitRiot? {
        RiotStepSparesVoice(sys, freshness, event.link, event.reply, event.now);
      }
    } else if event.StoreCommits? {
      if event.link in sys.polls && sys.polls[event.link].AwaitStore? {
        StoreStepSparesVoice(sys, event.link);
      }
    }
  }

  lemma RiotSparesVoice(s: Scheduler, target: Target, generation: nat, reply: RiotReply, now: int, freshness: int)
    ensures var next := DecidePoll(s, target, generation, reply, now, freshness).scheduler;
            && next.streams == s.streams && next.interruptedAt == s.interruptedAt
            && next.reconciliations == s.reconciliations && next.pendingViolations == s.pendingViolations
            && next.generations == s.generations
  {
  }

  lemma {:induction false} ExecHolds(freshness: int, events: seq<Event>, m: Member)
    ensures MemberHolds(Exec(freshness, events), events, m)
    decreases |events|
  {
    if events != [] {
      var front, last := events[..|events| - 1], events[|events| - 1];
      ExecHolds(freshness, front, m);
      var sys := Exec(freshness, front);
      assert front + [last] == events;
      if last.VoiceEvent? {
        VoiceEventKeeps(sys, front, last, m);
      } else if last.GatewayDown? {
        GatewayDownKeeps(sys, front, last, m);
      } else if last.VoiceAnswered? || last.VoiceUnavailable? {
        ExecHolds(freshness, front, Member(last.guild, m.user));
        ReplyKeeps(sys, front, last, m);
      } else if IsVoice(last) {
        TargetsKeep(sys, front, last, m);
      } else {
        PollKeeps(sys, front, freshness, last, m);
      }
    }
  }

  /** In every interleaving, what is held about a member and since when the stream counts as
      interrupted is what the plain history of counted marks says. */
  lemma MemberStateIsHistory(freshness: int, events: seq<Event>, m: Member)
    ensures var sys := Exec(freshness, events);
            && Holds(Lookup(sys.sched.streams.states, m), LastMark(Marks(m, events)))
            && Lookup(sys.sched.interruptedAt, m) == Cut(Marks(m, events))
  {
    ExecHolds(freshness, events, m);
  }

  // ---- What was heard last ----

  /** Whether the event says that the member streams, if it says so either way. */
  function SaidOf(event: Event, m: Member): Option<bool> {
    match event
    case VoiceEvent(n, selfStream, _) => if n == m then selfStream else None
    case VoiceAnswered(guild, replies, _) =>
      var reply := FirstReply(replies, m.user);
      if guild == m.guild && reply.Some? then reply.value.selfStream else None
    case _ => None
  }

  function InstantOf(event: Event): int {
    if event.VoiceEvent? || event.GatewayDown? || event.VoiceAnswered? || event.VoiceUnavailable? then event.at else 0
  }

  /** The k-th event is the last that counted about the member. */
  predicate CountedLast(m: Member, events: seq<Event>, k: int) {
    0 <= k < |events| && |Marks(m, events[..k])| < |Marks(m, events[..k + 1])| == |Marks(m, events)|
  }

  /** The mark an event leaves, if it counts, says what the event said. */
  lemma MarkSays(m: Member, events: seq<Event>)
    requires events != [] && Marks(m, events) != Marks(m, events[..|events| - 1])
    ensures var marks, last := Marks(m, events), events[|events| - 1];
            && |marks| == |Marks(m, events[..|events| - 1])| + 1 && marks[|marks| - 1].at == InstantOf(last)
            && (marks[|marks| - 1].state.Active? <==> SaidOf(last, m) == Some(true))
            && (marks[|marks| - 1].state.Inactive? <==> SaidOf(last, m) == Some(false))
  {
  }

  lemma {:induction false} MarksAreFewer(m: Member, events: seq<Event>, k: nat)
    requires k <= |events|
    ensures |Marks(m, events[..k])| <= |Marks(m, events)|
    decreases |events|
  {
    if k == |events| {
      assert events[..k] == events;
    } else {
      var front := events[..|events| - 1];
      MarksAreFewer(m, front, k);
      assert events[..k] == front[..k];
      if Marks(m, events) != Marks(m, front) {
        MarkSays(m, events);
      }
    }
  }

  /** The last mark is of the event that counted last, and says what that event said. */
  lemma {:induction false} LastMarkSays(m: Member, events: seq<Event>, k: int)
    requires CountedLast(m, events, k)
    ensures Marks(m, events) != []
    ensures var last := Marks(m, events)[|Marks(m, events)| - 1];
            && last.at == InstantOf(events[k])
            && (last.state.Active? <==> SaidOf(events[k], m) == Some(true))
            && (last.state.Inactive? <==> SaidOf(events[k], m) == Some(false))
    decreases |events|
  {
    var front := events[..|events| - 1];
    if k == |front| {
      assert events[..k + 1] == events;
      MarkSays(m, events);
    } else {
      assert front[..k] == events[..k] && front[..k + 1] == events[..k + 1];
      MarksAreFewer(m, front, k + 1);
      if Marks(m, events) != Marks(m, front) {
        MarkSays(m, events);
      }
      LastMarkSays(m, front, k);
    }
  }

  lemma {:induction false} SomethingCounted(m: Member, events: seq<Event>) returns (k: int)
    requires Marks(m, events) != []
    ensures CountedLast(m, events, k)
    decreases |events|
  {
    var front := events[..|events| - 1];
    if Marks(m, events) != Marks(m, front) {
      k := |front|;
      assert events[..k + 1] == events;
      MarkSays(m, events);
    } else {
      k := SomethingCounted(m, front);
      assert front[..k] == events[..k] && front[..k + 1] == events[..k + 1];
    }
  }

  // ---- Generations ----

  /** A member's generation moves exactly when something counted, and then only upwards. */
  predicate Moved(was: Option<nat>, now: Option<nat>, counted: bool) {
    if counted then now.Some? && (was.Some? ==> was.value < now.value) else now == was
  }

  lemma VoiceMovesGeneration(sys: System, events: seq<Event>, event: Event, m: Member)
    requires MemberHolds(sys, events, m) && (event.VoiceEvent? || event.GatewayDown?)
    ensures |Marks(m, events + [event])| >= |Marks(m, events)|
    ensures Moved(GenerationOf(sys.sched.streams, m), GenerationOf(VoiceStep(sys, event).sched.streams, m),
                  |Marks(m, events + [event])| != |Marks(m, events)|)
  {
    MarksGrow(m, events, event);
    if event.GatewayDown? {
      DisconnectTouchesAll(sys.sched.streams, event.at, m);
    }
  }

  lemma ReplyMovesGeneration(sys: System, events: seq<Event>, event: Event, m: Member)
    requires MemberHolds(sys, events, m) && (event.VoiceAnswered? || event.VoiceUnavailable?)
    requires MemberHolds(sys, events, Member(event.guild, m.user))
    ensures |Marks(m, events + [event])| >= |Marks(m, events)|
    ensures Moved(GenerationOf(sys.sched.streams, m), GenerationOf(VoiceStep(sys, event).sched.streams, m),
                  |Marks(m, events + [event])| != |Marks(m, events)|)
  {
    MarksGrow(m, events, event);
    var guild := event.guild;
    if guild in sys.asks && sys.asks[guild].Asking? {
      var snapshot := sys.asks[guild].snapshot;
      var replies := if event.VoiceAnswered? then event.replies else NoReplies(snapshot.users);
      NoRepliesSayUnknown(snapshot.users, m.user);
      ReconcileMember(sys.sched.streams, guild, replies, event.at, snapshot.baseline, m);
    }
  }

  lemma {:induction false} GenerationsIncrease(freshness: int, events: seq<Event>, later: seq<Event>, m: Member)
    ensures var was, now := Exec(freshness, events), Exec(freshness, events + later);
            && |Marks(m, events + later)| >= |Marks(m, events)|
            && Moved(GenerationOf(was.sched.streams, m), GenerationOf(now.sched.streams, m),
                     |Marks(m, events + later)| != |Marks(m, events)|)
    decreases |later|
  {
    if later == [] {
      assert events + later == events;
    } else {
      var front, last := later[..|later| - 1], later[|later| - 1];
      var before := events + front;
      assert events + later == before + [last];
      assert (before + [last])[..|before|] == before;
      GenerationsIncrease(freshness, events, front, m);
      var sys := Exec(freshness, before);
      ExecHolds(freshness, before, m);
      if last.VoiceEvent? || last.GatewayDown? {
        VoiceMovesGeneration(sys, before, last, m);
      } else if last.VoiceAnswered? || last.VoiceUnavailable? {
        ExecHolds(freshness, before, Member(last.guild, m.user));
        ReplyMovesGeneration(sys, before, last, m);
      } else if !IsVoice(last) {
        PollSparesVoice(sys, freshness, last);
      }
    }
  }
}
