/** The Discord stream observer: the latest known stream state of each member, and how late
    reconciliation replies are told from fresh ones by generation. */
module Streams {
  import opened Members
  import opened Options

  type Id = string

  datatype EvidenceState = Active | Inactive | Unknown

  datatype EvidenceCode = VoiceStateEvent | Reconciled | GatewayUnavailable | Stale

  datatype Observation = Observation(state: EvidenceState, observedAt: int, generation: nat, code: EvidenceCode)

  datatype Reply = Reply(user: Id, selfStream: Option<bool>)

  /** `order` is the insertion order of `states`, which is the order a disconnect walks it in. */
  datatype Streams = Streams(generation: nat, order: seq<Member>, states: map<Member, Observation>)

  const NO_STREAMS := Streams(0, [], map[])

  function StateOf(selfStream: Option<bool>): EvidenceState {
    match selfStream
    case None => Unknown
    case Some(streaming) => if streaming then Active else Inactive
  }

  function GenerationOf(s: Streams, m: Member): Option<nat> {
    if m in s.states then Some(s.states[m].generation) else None
  }

  function Put(s: Streams, m: Member, state: EvidenceState, at: int, code: EvidenceCode): Streams {
    Streams(s.generation + 1, if m in s.states then s.order else s.order + [m],
            s.states[m := Observation(state, at, s.generation + 1, code)])
  }

  function Observe(s: Streams, m: Member, selfStream: Option<bool>, at: int): Streams {
    Put(s, m, StateOf(selfStream), at, VoiceStateEvent)
  }

  /** The member has changed since the baseline was taken; without a baseline nothing is too late. */
  predicate TooLate(s: Streams, m: Member, baseline: Option<map<Id, nat>>) {
    baseline.Some? && GenerationOf(s, m) != Lookup(baseline.value, m.user)
  }

  function Reconcile(s: Streams, guild: Id, replies: seq<Reply>, at: int, baseline: Option<map<Id, nat>>): Streams {
    if replies == [] then s
    else
      var before := Reconcile(s, guild, replies[..|replies| - 1], at, baseline);
      var last := replies[|replies| - 1];
      var m := Member(guild, last.user);
      if TooLate(before, m, baseline) then before else Put(before, m, StateOf(last.selfStream), at, Reconciled)
  }

  /** The members whose reply was taken, with the observation made, in reply order. */
  function Taken(s: Streams, guild: Id, replies: seq<Reply>, at: int, baseline: Option<map<Id, nat>>)
    : seq<(Member, Observation)>
  {
    if replies == [] then []
    else
      var front := replies[..|replies| - 1];
      var before := Reconcile(s, guild, front, at, baseline);
      var last := replies[|replies| - 1];
      var m := Member(guild, last.user);
      if TooLate(before, m, baseline) then Taken(s, guild, front, at, baseline)
      else Taken(s, guild, front, at, baseline)
           + [(m, Observation(StateOf(last.selfStream), at, before.generation + 1, Reconciled))]
  }

  /** The first `count` members in order are marked unknown. */
  function Dropped(s: Streams, at: int, count: nat): Streams
    requires count <= |s.order|
  {
    if count == 0 then s else Put(Dropped(s, at, count - 1), s.order[count - 1], Unknown, at, GatewayUnavailable)
  }

  function Disconnect(s: Streams, at: int): Streams {
    Dropped(s, at, |s.order|)
  }

  /** What a poll sees of the member: a state held for the freshness bound or longer counts as unknown. */
  function CurrentAt(s: Streams, m: Member, at: int, freshness: int): Option<Observation> {
    if m !in s.states then None
    else if s.states[m].state.Unknown? || at - s.states[m].observedAt < freshness then Some(s.states[m])
    else Some(s.states[m].(state := Unknown, code := Stale))
  }

  lemma ReconcileGrows(s: Streams, guild: Id, replies: seq<Reply>, i: nat, at: int, baseline: Option<map<Id, nat>>)
    requires i < |replies|
    ensures var before := Reconcile(s, guild, replies[..i], at, baseline);
            var m, state := Member(guild, replies[i].user), StateOf(replies[i].selfStream);
            var taken := Taken(s, guild, replies[..i], at, baseline);
            && Reconcile(s, guild, replies[..i + 1], at, baseline)
               == (if TooLate(before, m, baseline) then before else Put(before, m, state, at, Reconciled))
            && Taken(s, guild, replies[..i + 1], at, baseline)
               == (if TooLate(before, m, baseline) then taken
                   else taken + [(m, Observation(state, at, before.generation + 1, Reconciled))])
  {
    assert replies[..i + 1][..i] == replies[..i];
  }

  // ---- The observer object ----

  class DiscordStreamObserver {
    var generation: nat
    var order: seq<Member>
    var states: map<Member, Observation>

    function View(): Streams
      reads this
    {
      Streams(generation, order, states)
    }

    constructor ()
      ensures View() == NO_STREAMS
    {
      generation, order, states := 0, [], map[];
    }

    method Set(m: Member, observation: Observation)
      modifies this`order, this`states
      ensures order == if m in old(states) then old(order) else old(order) + [m]
      ensures states == old(states)[m := observation]
    {
      if m !in states {
        order := order + [m];
      }
      states := states[m := observation];
    }

    method ObserveMember(m: Member, selfStream: Option<bool>, at: int) returns (made: Observation)
      modifies this
      ensures View() == Observe(old(View()), m, selfStream, at)
      ensures made == Observation(StateOf(selfStream), at, old(generation) + 1, VoiceStateEvent)
    {
      generation := generation + 1;
      made := Observation(StateOf(selfStream), at, generation, VoiceStateEvent);
      Set(m, made);
    }

    method TakeReply(m: Member, selfStream: Option<bool>, at: int) returns (reconciled: Observation)
      modifies this
      ensures View() == Put(old(View()), m, StateOf(selfStream), at, Reconciled)
      ensures reconciled == Observation(StateOf(selfStream), at, old(generation) + 1, Reconciled)
    {
      var observation := ObserveMember(m, selfStream, at);
      reconciled := observation.(code := Reconciled);
      Set(m, reconciled);
    }

    method ReconcileMembers(guild: Id, replies: seq<Reply>, at: int, baseline: Option<map<Id, nat>>)
      returns (made: seq<(Member, Observation)>)
      modifies this
      ensures View() == Reconcile(old(View()), guild, replies, at, baseline)
      ensures made == Taken(old(View()), guild, replies, at, baseline)
    {
      made := [];
      ghost var start := View();
      for i := 0 to |replies|
        invariant View() == Reconcile(start, guild, replies[..i], at, baseline)
        invariant made == Taken(start, guild, replies[..i], at, baseline)
      {
        ReconcileGrows(start, guild, replies, i, at, baseline);
        var m := Member(guild, replies[i].user);
        if baseline.None? || GenerationOf(View(), m) == Lookup(baseline.value, m.user) {
          var reconciled := TakeReply(m, replies[i].selfStream, at);
          made := made + [(m, reconciled)];
        }
      }
      assert replies[..|replies|] == replies;
    }

    method DisconnectAll(at: int)
      requires Sound(View())
      modifies this
      ensures View() == Disconnect(old(View()), at)
    {
      ghost var start := View();
      var walk := order;
      for i := 0 to |walk|
        invariant View() == Dropped(start, at, i)
        invariant walk == start.order
      {
        DropIsSound(start, at, i);
        assert walk[i] in Dropped(start, at, i).order;
        generation := generation + 1;
        Set(walk[i], states[walk[i]].(state := Unknown, observedAt := at, generation := generation,
                                      code := GatewayUnavailable));
      }
    }

    method ReadAt(m: Member, at: int, freshness: int) returns (current: Option<Observation>)
      ensures current == CurrentAt(View(), m, at, freshness)
    {
      if m !in states { return None; }
      var held := states[m];
      if held.state.Unknown? || at - held.observedAt < freshness { return Some(held); }
      current := Some(held.(state := Unknown, code := Stale));
    }
  }

  // ---- Generations ----

  ghost predicate Sound(s: Streams) {
    && (forall m :: m in s.order <==> m in s.states)
    && (forall m :: m in s.states ==> s.states[m].generation <= s.generation)
  }

  lemma PutIsSound(s: Streams, m: Member, state: EvidenceState, at: int, code: EvidenceCode)
    requires Sound(s)
    ensures Sound(Put(s, m, state, at, code))
  {
  }

  lemma {:induction false} DropIsSound(s: Streams, at: int, count: nat)
    requires Sound(s) && count <= |s.order|
    ensures var after := Dropped(s, at, count);
            Sound(after) && after.order == s.order && after.generation == s.generation + count
  {
    if count > 0 {
      DropIsSound(s, at, count - 1);
      assert s.order[count - 1] in Dropped(s, at, count - 1).order;
      PutIsSound(Dropped(s, at, count - 1), s.order[count - 1], Unknown, at, GatewayUnavailable);
    }
  }

  lemma {:induction false} DropReaches(s: Streams, at: int, count: nat, m: Member)
    requires Sound(s) && count <= |s.order|
    ensures var after := Dropped(s, at, count);
            && (m in s.order[..count] ==>
                  && m in after.states && after.states[m].generation > s.generation
                  && after.states[m] == Observation(Unknown, at, after.states[m].generation, GatewayUnavailable))
            && (m !in s.order[..count] ==> Lookup(after.states, m) == Lookup(s.states, m))
  {
    if count > 0 {
      DropReaches(s, at, count - 1, m);
      DropIsSound(s, at, count - 1);
      assert s.order[..count] == s.order[..count - 1] + [s.order[count - 1]];
    }
  }

  /** A disconnect makes every known member unknown under a generation of its own, and no other. */
  lemma DisconnectTouchesAll(s: Streams, at: int, m: Member)
    requires Sound(s)
    ensures var after := Disconnect(s, at);
            && Sound(after) && after.generation >= s.generation
            && (m in after.states <==> m in s.states)
            && (m in s.states ==>
                  && after.states[m] == Observation(Unknown, at, after.states[m].generation, GatewayUnavailable)
                  && after.states[m].generation > s.generation)
  {
    DropReaches(s, at, |s.order|, m);
    DropIsSound(s, at, |s.order|);
    assert s.order[..|s.order|] == s.order;
  }

  /** The first reply about the user. */
  function FirstReply(replies: seq<Reply>, user: Id): Option<Reply> {
    if replies == [] then None
    else
      var earlier := FirstReply(replies[..|replies| - 1], user);
      var last := replies[|replies| - 1];
      if earlier.None? && last.user == user then Some(last) else earlier
  }

  /** The observations made of the member, in order. */
  function TakenFor(taken: seq<(Member, Observation)>, m: Member): seq<Observation> {
    if taken == [] then []
    else
      var earlier := TakenFor(taken[..|taken| - 1], m);
      var last := taken[|taken| - 1];
      if last.0 == m then earlier + [last.1] else earlier
  }

  /** The observation says what was heard: active exactly if streaming was said, inactive exactly if not
      streaming was said, and unknown exactly if nothing was said either way. */
  predicate Heard(observation: Observation, selfStream: Option<bool>) {
    && (observation.state.Active? <==> selfStream == Some(true))
    && (observation.state.Inactive? <==> selfStream == Some(false))
    && (observation.state.Unknown? <==> selfStream == None)
  }

  /** A voice event makes its member's observation say what was heard, now, under a newer generation. */
  lemma ObservedIsHeard(s: Streams, m: Member, selfStream: Option<bool>, at: int)
    ensures var after := Observe(s, m, selfStream, at);
            && m in after.states && Heard(after.states[m], selfStream)
            && after.states[m].observedAt == at && after.states[m].code.VoiceStateEvent?
            && after.states[m].generation == after.generation == s.generation + 1
            && forall n | n != m :: Lookup(after.states, n) == Lookup(s.states, n)
  {
  }

  /** A reply changes a member only if the baseline still holds for it, and then by its first
      occurrence alone, under a fresh generation; a repeated or late reply changes nothing. */
  lemma {:induction false} ReconcileMember(s: Streams, guild: Id, replies: seq<Reply>, at: int, baseline: map<Id, nat>,
                                           m: Member)
    requires Sound(s) && forall u :: u in baseline ==> baseline[u] <= s.generation
    ensures var after := Reconcile(s, guild, replies, at, Some(baseline));
            var first := FirstReply(replies, m.user);
            var taken := TakenFor(Taken(s, guild, replies, at, Some(baseline)), m);
            && Sound(after) && after.generation >= s.generation
            && (if m.guild == guild && first.Some? && GenerationOf(s, m) == Lookup(baseline, m.user)
                then
                  && m in after.states && after.states[m].generation > s.generation
                  && taken == [after.states[m]] && Heard(after.states[m], first.value.selfStream)
                  && after.states[m].observedAt == at && after.states[m].code.Reconciled?
                else Lookup(after.states, m) == Lookup(s.states, m) && taken == [])
    decreases |replies|
  {
    if replies != [] {
      var front := replies[..|replies| - 1];
      ReconcileMember(s, guild, front, at, baseline, m);
      var before := Reconcile(s, guild, front, at, Some(baseline));
      var last := replies[|replies| - 1];
      var n := Member(guild, last.user);
      if !TooLate(before, n, Some(baseline)) {
        PutIsSound(before, n, StateOf(last.selfStream), at, Reconciled);
        var earlier := Taken(s, guild, front, at, Some(baseline));
        var made := (n, Observation(StateOf(last.selfStream), at, before.generation + 1, Reconciled));
        assert (earlier + [made])[..|earlier|] == earlier;
        assert Taken(s, guild, replies, at, Some(baseline)) == earlier + [made];
      }
    }
  }
}
