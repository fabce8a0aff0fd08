/** The round-robin refresh of linked identities. Link ids stand for their place in the order the
    listing query sorts by. */
module IdentityRefresh {
  import opened Options

  /** One tick's surroundings: the active links each listing query would find, in order (None when the
      query fails), the links whose lookup gives nothing usable, and those whose update throws. */
  datatype Round = Round(first: Option<seq<int>>, second: Option<seq<int>>, skipped: set<int>, failing: set<int>)

  ghost predicate Ascending(links: seq<int>) {
    forall i, j | 0 <= i < j < |links| :: links[i] < links[j]
  }

  /** How many links, from the first, the cursor has passed. */
  function Passed(links: seq<int>, after: Option<int>): (n: nat)
    ensures n <= |links|
  {
    if links == [] || after.None? then 0
    else if links[|links| - 1] <= after.value then |links|
    else Passed(links[..|links| - 1], after)
  }

  /** The first `limit` links after the cursor. */
  function Listed(links: seq<int>, after: Option<int>, limit: nat): seq<int> {
    var p := Passed(links, after);
    links[p..if p + limit <= |links| then p + limit else |links|]
  }

  /** How many targets are looked at: up to and with the first whose update throws. */
  function Reached(targets: seq<int>, round: Round): (n: nat)
    ensures n <= |targets|
  {
    if targets == [] then 0
    else
      var n := Reached(targets[..|targets| - 1], round);
      if Throws(targets[..|targets| - 1], round) then n else |targets|
  }

  predicate Throws(targets: seq<int>, round: Round) {
    exists i :: 0 <= i < |targets| && targets[i] in round.failing && targets[i] !in round.skipped
  }

  /** The outcome of a tick: the next cursor, the links looked at, and whether the cursor started over. */
  datatype Tick = Tick(after: Option<int>, visited: seq<int>, wrapped: bool)

  function Visit(targets: seq<int>, held: Option<int>, round: Round, wrapped: bool): Tick {
    Tick(if Throws(targets, round) then held
         else if targets == [] then None else Some(targets[|targets| - 1]),
         targets[..Reached(targets, round)], wrapped)
  }

  function RunTick(after: Option<int>, batch: nat, round: Round): Tick {
    if round.first.None? then Tick(after, [], false)
    else
      var targets := Listed(round.first.value, after, batch);
      if targets != [] || after.None? then Visit(targets, after, round, false)
      else if round.second.None? then Tick(None, [], true)
      else Visit(Listed(round.second.value, None, batch), None, round, true)
  }

  // ---- The scheduler object ----

  class RefreshScheduler {
    const batchSize: nat
    var afterLinkId: Option<int>
    var inFlight: bool

    constructor (batchSize: nat)
      requires 1 <= batchSize <= 50
      ensures this.batchSize == batchSize && afterLinkId.None? && !inFlight
    {
      this.batchSize := batchSize;
      afterLinkId, inFlight := None, false;
    }

    /** Whether a new run starts; a tick during a run joins it. */
    method StartTick() returns (started: bool)
      modifies this`inFlight
      ensures started <==> !old(inFlight)
      ensures inFlight
    {
      started := !inFlight;
      inFlight := true;
    }

    method Run(round: Round) returns (visited: seq<int>, wrapped: bool)
      requires inFlight
      modifies this
      ensures Tick(afterLinkId, visited, wrapped) == RunTick(old(afterLinkId), batchSize, round)
      ensures !inFlight
    {
      inFlight := false;
      visited, wrapped := [], false;
      if round.first.None? { return; }
      var targets := Listed(round.first.value, afterLinkId, batchSize);
      if targets == [] && afterLinkId.Some? {
        afterLinkId := None;
        wrapped := true;
        if round.second.None? { return; }
        targets := Listed(round.second.value, None, batchSize);
      }
      for i := 0 to |targets|
        invariant visited == targets[..i] && !Throws(targets[..i], round)
        invariant afterLinkId == (if wrapped then None else old(afterLinkId))
        invariant !inFlight
      {
        visited := visited + [targets[i]];
        if targets[i] !in round.skipped && targets[i] in round.failing {
          ReachedIs(targets, i, round);
          return;
        }
      }
      assert targets[..|targets|] == targets;
      ReachedAll(targets, round);
      afterLinkId := if targets == [] then None else Some(targets[|targets| - 1]);
    }
  }

  lemma {:induction false} ReachedAll(targets: seq<int>, round: Round)
    requires !Throws(targets, round)
    ensures Reached(targets, round) == |targets|
    decreases |targets|
  {
    if targets != [] {
      var front := targets[..|targets| - 1];
      assert forall i | 0 <= i < |front| :: front[i] == targets[i];
    }
  }

  lemma {:induction false} ReachedIs(targets: seq<int>, i: nat, round: Round)
    requires i < |targets| && !Throws(targets[..i], round)
    requires targets[i] in round.failing && targets[i] !in round.skipped
    ensures Reached(targets, round) == i + 1 && Throws(targets, round)
    decreases |targets|
  {
    var front := targets[..|targets| - 1];
    if i < |front| {
      assert front[..i] == targets[..i];
      ReachedIs(front, i, round);
    } else {
      assert front == targets[..i];
    }
  }

  /** The first target whose update throws is looked at, and none behind it. */
  lemma {:induction false} ReachedMeans(targets: seq<int>, round: Round, i: nat)
    requires i < |targets|
    ensures i < Reached(targets, round) <==> !Throws(targets[..i], round)
    decreases |targets|
  {
    var front := targets[..|targets| - 1];
    if i < |front| {
      ReachedMeans(front, round, i);
      assert front[..i] == targets[..i];
    } else {
      assert front == targets[..i];
    }
  }

  // ---- Runs over links that come and go ----

  function Cursor(after: Option<int>, batch: nat, rounds: seq<Round>): Option<int> {
    if rounds == [] then after
    else RunTick(Cursor(after, batch, rounds[..|rounds| - 1]), batch, rounds[|rounds| - 1]).after
  }

  /** The links looked at by any of the ticks. */
  function Visited(after: Option<int>, batch: nat, rounds: seq<Round>): set<int> {
    if rounds == [] then {}
    else
      var front := rounds[..|rounds| - 1];
      var tick := RunTick(Cursor(after, batch, front), batch, rounds[|rounds| - 1]);
      Visited(after, batch, front) + set x | x in tick.visited
  }

  predicate Wraps(after: Option<int>, batch: nat, rounds: seq<Round>, i: nat)
    requires i < |rounds|
  {
    RunTick(Cursor(after, batch, rounds[..i]), batch, rounds[i]).wrapped
  }

  ghost predicate StaysActive(rounds: seq<Round>, link: int) {
    forall i | 0 <= i < |rounds| ::
      && (rounds[i].first.Some? ==> Ascending(rounds[i].first.value) && link in rounds[i].first.value)
      && (rounds[i].second.Some? ==> Ascending(rounds[i].second.value) && link in rounds[i].second.value)
  }

  predicate Ahead(after: Option<int>, link: int) {
    after.None? || after.value < link
  }

  lemma {:induction false} PassedMeans(links: seq<int>, after: Option<int>)
    requires Ascending(links)
    ensures forall i | 0 <= i < |links| :: i < Passed(links, after) <==> !Ahead(after, links[i])
    decreases |links|
  {
    if links != [] && after.Some? && links[|links| - 1] > after.value {
      var front := links[..|links| - 1];
      PassedMeans(front, after);
      assert forall i | 0 <= i < |front| :: front[i] == links[i];
    }
  }

  /** A listing with the link ahead of it holds the link or ends short of it. */
  lemma ListingNearsLink(links: seq<int>, after: Option<int>, batch: nat, link: int)
    requires Ascending(links) && link in links && Ahead(after, link) && batch > 0
    ensures var targets := Listed(links, after, batch);
            targets != [] && (link in targets || targets[|targets| - 1] < link)
  {
    PassedMeans(links, after);
    var at :| 0 <= at < |links| && links[at] == link;
    var p, targets := Passed(links, after), Listed(links, after, batch);
    assert p <= at;
    if at < p + batch {
      assert targets[at - p] == link;
    } else {
      assert targets[|targets| - 1] == links[p + batch - 1];
    }
  }

  /** A tick starts over exactly when its listing worked and no link is ahead of the cursor it holds; a
      failed listing leaves the cursor, and a failed second one clears it. */
  lemma WrapsExactlyWhen(after: Option<int>, batch: nat, round: Round)
    requires batch > 0 && (round.first.Some? ==> Ascending(round.first.value))
    ensures RunTick(after, batch, round).wrapped <==>
              && round.first.Some? && after.Some?
              && forall i | 0 <= i < |round.first.value| :: round.first.value[i] <= after.value
    ensures round.first.None? ==> RunTick(after, batch, round) == Tick(after, [], false)
    ensures RunTick(after, batch, round).wrapped && round.second.None? ==>
              RunTick(after, batch, round) == Tick(None, [], true)
  {
    if round.first.Some? {
      PassedMeans(round.first.value, after);
    }
  }

  lemma VisitCompletes(targets: seq<int>, held: Option<int>, round: Round, wrapped: bool)
    requires targets != [] && !Throws(targets, round)
    ensures Visit(targets, held, round, wrapped) == Tick(Some(targets[|targets| - 1]), targets, wrapped)
  {
    ReachedAll(targets, round);
    assert targets[..|targets|] == targets;
  }

  lemma VisitNearsLink(targets: seq<int>, held: Option<int>, round: Round, wrapped: bool, link: int)
    requires targets != [] && (link in targets || targets[|targets| - 1] < link) && Ahead(held, link)
    ensures var tick := Visit(targets, held, round, wrapped); link in tick.visited || Ahead(tick.after, link)
  {
    if Throws(targets, round) {
      assert Visit(targets, held, round, wrapped).after == held;
    } else {
      VisitCompletes(targets, held, round, wrapped);
    }
  }

  /** A tick with the link ahead of it looks at it or keeps it ahead, and does not start over. */
  lemma TickNearsLink(after: Option<int>, batch: nat, round: Round, link: int)
    requires StaysActive([round], link) && Ahead(after, link) && batch > 0
    ensures var tick := RunTick(after, batch, round); !tick.wrapped && (link in tick.visited || Ahead(tick.after, link))
  {
    assert [round][0] == round;
    if round.first.Some? {
      ListingNearsLink(round.first.value, after, batch, link);
      VisitNearsLink(Listed(round.first.value, after, batch), after, round, false, link);
    }
  }

  lemma WrapNearsLink(after: Option<int>, batch: nat, round: Round, link: int)
    requires StaysActive([round], link) && RunTick(after, batch, round).wrapped && batch > 0
    ensures var tick := RunTick(after, batch, round); link in tick.visited || Ahead(tick.after, link)
  {
    assert [round][0] == round;
    if round.second.Some? {
      ListingNearsLink(round.second.value, None, batch, link);
      VisitNearsLink(Listed(round.second.value, None, batch), None, round, true, link);
    }
  }

  lemma {:induction false} VisitedOrAhead(after: Option<int>, batch: nat, rounds: seq<Round>, link: int)
    requires batch > 0 && rounds != [] && Wraps(after, batch, rounds, 0) && StaysActive(rounds, link)
    requires forall i | 0 < i < |rounds| :: !Wraps(after, batch, rounds, i)
    ensures link in Visited(after, batch, rounds) || Ahead(Cursor(after, batch, rounds), link)
    decreases |rounds|
  {
    var front, last := rounds[..|rounds| - 1], rounds[|rounds| - 1];
    assert StaysActive([last], link);
    if front == [] {
      assert rounds[..0] == [];
      WrapNearsLink(after, batch, last, link);
    } else {
      forall i | 0 <= i < |front| ensures Wraps(after, batch, front, i) == Wraps(after, batch, rounds, i) {
        assert front[..i] == rounds[..i];
      }
      VisitedOrAhead(after, batch, front, link);
      if Ahead(Cursor(after, batch, front), link) {
        TickNearsLink(Cursor(after, batch, front), batch, last, link);
      }
    }
  }

  /** Between two consecutive wrap-arounds every link that stays active is looked at, however links
      come and go and whatever fails in between. */
  lemma WrapsBracketEveryLink(after: Option<int>, batch: nat, rounds: seq<Round>, last: Round, link: int)
    requires batch > 0 && rounds != [] && StaysActive(rounds + [last], link)
    requires Wraps(after, batch, rounds, 0) && forall i | 0 < i < |rounds| :: !Wraps(after, batch, rounds, i)
    requires RunTick(Cursor(after, batch, rounds), batch, last).wrapped
    ensures link in Visited(after, batch, rounds)
  {
    assert forall i | 0 <= i < |rounds| :: (rounds + [last])[i] == rounds[i];
    assert (rounds + [last])[|rounds|] == last;
    VisitedOrAhead(after, batch, rounds, link);
    if Ahead(Cursor(after, batch, rounds), link) {
      assert StaysActive([last], link);
      TickNearsLink(Cursor(after, batch, rounds), batch, last, link);
    }
  }

  // ---- A fixed set of links ----

  /** The round in which the active links are these and the same updates throw; which other lookups
      give nothing usable may vary. */
  function Fixed(links: seq<int>, failing: set<int>, skipped: set<int>): Round {
    Round(Some(links), Some(links), skipped, failing)
  }

  function FixedRounds(links: seq<int>, failing: set<int>, skips: seq<set<int>>): seq<Round> {
    seq(|skips|, i requires 0 <= i < |skips| => Fixed(links, failing, skips[i]))
  }

  /** The lookup of a link whose update throws always succeeds. */
  ghost predicate Unspared(failing: set<int>, skips: seq<set<int>>) {
    forall i | 0 <= i < |skips| :: skips[i] !! failing
  }

  /** The place of the first link from a place on whose update throws, or the end. */
  function FirstFailing(links: seq<int>, failing: set<int>, from: nat): (f: nat)
    requires from <= |links|
    ensures from <= f <= |links|
    decreases |links| - from
  {
    if from == |links| || links[from] in failing then from else FirstFailing(links, failing, from + 1)
  }

  lemma {:induction false} FirstFailingMeans(links: seq<int>, failing: set<int>, from: nat)
    requires from <= |links|
    ensures var f := FirstFailing(links, failing, from);
            && (f < |links| ==> links[f] in failing)
            && forall i | from <= i < f :: links[i] !in failing
    decreases |links| - from
  {
    if from < |links| && links[from] !in failing {
      FirstFailingMeans(links, failing, from + 1);
    }
  }

  lemma {:induction false} SameFirstFailing(links: seq<int>, failing: set<int>, p: nat, q: nat)
    requires p <= |links| && p <= q <= FirstFailing(links, failing, p)
    ensures FirstFailing(links, failing, q) == FirstFailing(links, failing, p)
    decreases q - p
  {
    if p < q {
      SameFirstFailing(links, failing, p + 1, q);
    }
  }

  function End(n: nat, batch: nat, p: nat): nat {
    if p + batch <= n then p + batch else n
  }

  lemma PassedAt(links: seq<int>, p: nat)
    requires Ascending(links) && 0 < p <= |links|
    ensures Passed(links, Some(links[p - 1])) == p
  {
    PassedMeans(links, Some(links[p - 1]));
    if p < |links| {
      assert Ahead(Some(links[p - 1]), links[p]);
    }
    assert !Ahead(Some(links[p - 1]), links[p - 1]);
  }

  lemma SliceHolds(links: seq<int>, lo: nat, hi: nat, i: nat)
    requires Ascending(links) && lo <= hi <= |links| && i < |links|
    ensures links[i] in links[lo..hi] <==> lo <= i < hi
  {
    if lo <= i < hi {
      assert links[lo..hi][i - lo] == links[i];
    }
  }

  lemma BlockedVisit(targets: seq<int>, after: Option<int>, failing: set<int>, round: Round, at: nat)
    requires at < |targets| && round.failing == failing && round.skipped !! failing && targets[at] in failing
    requires forall i | 0 <= i < at :: targets[i] !in failing
    ensures Visit(targets, after, round, false) == Tick(after, targets[..at + 1], false)
  {
    assert forall i | 0 <= i < at :: targets[..at][i] == targets[i];
    ReachedIs(targets, at, round);
  }

  /** A tick with links ahead visits the next batch of them. */
  lemma TickVisits(links: seq<int>, after: Option<int>, batch: nat, round: Round)
    requires batch > 0 && round.first == Some(links) && Passed(links, after) < |links|
    ensures var p := Passed(links, after);
            RunTick(after, batch, round) == Visit(links[p..End(|links|, batch, p)], after, round, false)
  {
    var p := Passed(links, after);
    assert Listed(links, after, batch) == links[p..End(|links|, batch, p)];
    assert Listed(links, after, batch) != [];
  }

  lemma OpenVisit(links: seq<int>, p: nat, end: nat, after: Option<int>, failing: set<int>, skipped: set<int>)
    requires p < end <= |links| && p <= end <= FirstFailing(links, failing, p)
    ensures Visit(links[p..end], after, Fixed(links, failing, skipped), false)
         == Tick(Some(links[end - 1]), links[p..end], false)
  {
    FirstFailingMeans(links, failing, p);
    var targets, round := links[p..end], Fixed(links, failing, skipped);
    forall k | 0 <= k < |targets| ensures targets[k] !in failing {
      assert targets[k] == links[p + k];
    }
    VisitCompletes(targets, after, round, false);
  }

  lemma HeldVisit(links: seq<int>, p: nat, end: nat, after: Option<int>, failing: set<int>, skipped: set<int>)
    requires p < end <= |links| && FirstFailing(links, failing, p) < end && skipped !! failing
    ensures Visit(links[p..end], after, Fixed(links, failing, skipped), false)
         == Tick(after, links[p..FirstFailing(links, failing, p) + 1], false)
  {
    FirstFailingMeans(links, failing, p);
    var targets, f := links[p..end], FirstFailing(links, failing, p);
    forall k | 0 <= k < f - p ensures targets[k] !in failing {
      assert targets[k] == links[p + k];
    }
    BlockedVisit(targets, after, failing, Fixed(links, failing, skipped), f - p);
    assert targets[..f - p + 1] == links[p..f + 1];
  }

  /** It looks at all of them and moves its cursor, */
  lemma OpenTick(links: seq<int>, after: Option<int>, batch: nat, failing: set<int>, skipped: set<int>, i: nat)
    requires Ascending(links) && batch > 0 && skipped !! failing && Passed(links, after) < |links| && i < |links|
    requires FirstFailing(links, failing, Passed(links, after)) >= End(|links|, batch, Passed(links, after))
    ensures var tick, p := RunTick(after, batch, Fixed(links, failing, skipped)), Passed(links, after);
            var end := End(|links|, batch, p);
            Passed(links, tick.after) == end && (links[i] in tick.visited <==> p <= i < end)
  {
    var p := Passed(links, after);
    var end := End(|links|, batch, p);
    TickVisits(links, after, batch, Fixed(links, failing, skipped));
    OpenVisit(links, p, end, after, failing, skipped);
    SliceHolds(links, p, end, i);
    PassedAt(links, end);
  }

  /** or looks at those up to the first whose update throws and holds it. */
  lemma BlockedTick(links: seq<int>, after: Option<int>, batch: nat, failing: set<int>, skipped: set<int>, i: nat)
    requires Ascending(links) && batch > 0 && skipped !! failing && Passed(links, after) < |links| && i < |links|
    requires FirstFailing(links, failing, Passed(links, after)) < End(|links|, batch, Passed(links, after))
    ensures var tick, p := RunTick(after, batch, Fixed(links, failing, skipped)), Passed(links, after);
            tick.after == after && (links[i] in tick.visited <==> p <= i <= FirstFailing(links, failing, p))
  {
    var p := Passed(links, after);
    TickVisits(links, after, batch, Fixed(links, failing, skipped));
    HeldVisit(links, p, End(|links|, batch, p), after, failing, skipped);
    SliceHolds(links, p, FirstFailing(links, failing, p) + 1, i);
  }

  /** A tick at the end starts over, and does what one without a cursor does. */
  lemma TickAtEnd(links: seq<int>, after: Option<int>, batch: nat, failing: set<int>, skipped: set<int>)
    requires Ascending(links) && links != [] && batch > 0 && Passed(links, after) == |links|
    ensures var round := Fixed(links, failing, skipped);
            var over, fresh' := RunTick(after, batch, round), RunTick(None, batch, round);
            over.visited == fresh'.visited && over.after == fresh'.after
  {
  }

  lemma RunGrows(after: Option<int>, batch: nat, rounds: seq<Round>, round: Round, link: int)
    ensures var tick := RunTick(Cursor(after, batch, rounds), batch, round);
            && Cursor(after, batch, rounds + [round]) == tick.after
            && (link in Visited(after, batch, rounds + [round]) <==>
                  link in Visited(after, batch, rounds) || link in tick.visited)
  {
    assert (rounds + [round])[..|rounds|] == rounds;
  }

  lemma {:induction false} RunSplits(after: Option<int>, batch: nat, rounds: seq<Round>, later: seq<Round>, link: int)
    ensures Cursor(after, batch, rounds + later) == Cursor(Cursor(after, batch, rounds), batch, later)
    ensures link in Visited(after, batch, rounds + later) <==>
              link in Visited(after, batch, rounds) || link in Visited(Cursor(after, batch, rounds), batch, later)
    decreases |later|
  {
    if later == [] {
      assert rounds + later == rounds;
    } else {
      var front, last := later[..|later| - 1], later[|later| - 1];
      assert later == front + [last] && rounds + later == (rounds + front) + [last];
      RunSplits(after, batch, rounds, front, link);
      RunGrows(after, batch, rounds + front, last, link);
      RunGrows(Cursor(after, batch, rounds), batch, front, last, link);
    }
  }

  lemma FixedSplits(links: seq<int>, failing: set<int>, skips: seq<set<int>>, k: nat)
    requires k <= |skips|
    ensures FixedRounds(links, failing, skips)
         == FixedRounds(links, failing, skips[..k]) + FixedRounds(links, failing, skips[k..])
  {
  }

  lemma FixedGrows(links: seq<int>, failing: set<int>, skips: seq<set<int>>)
    requires skips != []
    ensures FixedRounds(links, failing, skips)
         == FixedRounds(links, failing, skips[..|skips| - 1]) + [Fixed(links, failing, skips[|skips| - 1])]
  {
  }

  lemma LessByOne(a: nat, k: nat)
    requires a > 0
    ensures a * k == (a - 1) * k + k
  {
  }

  lemma {:induction false} Monotone(a: nat, b: nat, k: nat)
    requires a <= b
    ensures a * k <= b * k
    decreases b
  {
    if a < b {
      Monotone(a, b - 1, k);
      LessByOne(b, k);
    }
  }

  /** The last tick of a run over fixed links, in places. */
  lemma LastTickPlaces(links: seq<int>, after: Option<int>, batch: nat, failing: set<int>, skips: seq<set<int>>, i: nat)
    returns (q: nat, was: bool)
    requires Ascending(links) && batch > 0 && Unspared(failing, skips) && i < |links| && skips != []
    ensures var front := FixedRounds(links, failing, skips[..|skips| - 1]);
            q == Passed(links, Cursor(after, batch, front)) && (was <==> links[i] in Visited(after, batch, front))
    ensures q < |links| ==>
              var rounds := FixedRounds(links, failing, skips);
              var f, end := FirstFailing(links, failing, q), End(|links|, batch, q);
              && Passed(links, Cursor(after, batch, rounds)) == (if f < end then q else end)
              && (links[i] in Visited(after, batch, rounds) <==> was || q <= i < if f < end then f + 1 else end)
  {
    var front, skipped := FixedRounds(links, failing, skips[..|skips| - 1]), skips[|skips| - 1];
    q, was := Passed(links, Cursor(after, batch, front)), links[i] in Visited(after, batch, front);
    FixedGrows(links, failing, skips);
    RunGrows(after, batch, front, Fixed(links, failing, skipped), links[i]);
    if q < |links| {
      if FirstFailing(links, failing, q) < End(|links|, batch, q) {
        BlockedTick(links, Cursor(after, batch, front), batch, failing, skipped, i);
      } else {
        OpenTick(links, Cursor(after, batch, front), batch, failing, skipped, i);
      }
    }
  }

  /** With a throwing update ahead the cursor never passes it, nothing behind the cursor or beyond that
      link is looked at, and a batch is gained with every tick until all up to it was. */
  lemma {:induction false} BlockedRun(links: seq<int>, after: Option<int>, batch: nat, failing: set<int>,
                                      skips: seq<set<int>>, i: nat)
    requires Ascending(links) && batch > 0 && Unspared(failing, skips) && i < |links|
    requires FirstFailing(links, failing, Passed(links, after)) < |links|
    ensures var rounds, p := FixedRounds(links, failing, skips), Passed(links, after);
            var f, q := FirstFailing(links, failing, p), Passed(links, Cursor(after, batch, rounds));
            && p <= q <= f
            && (links[i] in Visited(after, batch, rounds) ==> p <= i <= f)
            && (p <= i < q ==> links[i] in Visited(after, batch, rounds))
            && (q >= p + |skips| * batch || (p <= i <= f ==> links[i] in Visited(after, batch, rounds)))
    decreases |skips|
  {
    if skips != [] {
      BlockedRun(links, after, batch, failing, skips[..|skips| - 1], i);
      var q, was := LastTickPlaces(links, after, batch, failing, skips, i);
      SameFirstFailing(links, failing, Passed(links, after), q);
      LessByOne(|skips|, batch);
    }
  }

  /** The place a number of ticks reach when nothing holds them. */
  function Climb(n: nat, batch: nat, p: nat, ticks: nat): nat {
    if ticks == 0 then p else End(n, batch, Climb(n, batch, p, ticks - 1))
  }

  lemma {:induction false} ClimbIs(n: nat, batch: nat, p: nat, ticks: nat)
    requires batch > 0 && p <= n && (ticks > 0 ==> (ticks - 1) * batch < n - p)
    ensures Climb(n, batch, p, ticks) == End(n, ticks * batch, p)
    ensures ticks > 0 ==> Climb(n, batch, p, ticks - 1) < n
  {
    if ticks == 0 {
      assert ticks * batch == 0;
    } else {
      LessByOne(ticks, batch);
      if ticks > 1 {
        LessByOne(ticks - 1, batch);
      }
      ClimbIs(n, batch, p, ticks - 1);
    }
  }

  /** With none ahead the ticks climb to the end. */
  lemma {:induction false} OpenRun(links: seq<int>, after: Option<int>, batch: nat, failing: set<int>,
                                   skips: seq<set<int>>, i: nat)
    requires Ascending(links) && batch > 0 && Unspared(failing, skips) && i < |links|
    requires FirstFailing(links, failing, Passed(links, after)) == |links|
    requires skips != [] ==> Climb(|links|, batch, Passed(links, after), |skips| - 1) < |links|
    ensures var rounds, p := FixedRounds(links, failing, skips), Passed(links, after);
            var q := Passed(links, Cursor(after, batch, rounds));
            && p <= q == Climb(|links|, batch, p, |skips|) <= |links|
            && (links[i] in Visited(after, batch, rounds) <==> p <= i < q)
    decreases |skips|
  {
    if skips != [] {
      OpenRun(links, after, batch, failing, skips[..|skips| - 1], i);
      var q, was := LastTickPlaces(links, after, batch, failing, skips, i);
      SameFirstFailing(links, failing, Passed(links, after), q);
    }
  }

  /** From the end a run does what one without a cursor does. */
  lemma RunFromEnd(links: seq<int>, after: Option<int>, batch: nat, failing: set<int>, skips: seq<set<int>>, link: int)
    requires Ascending(links) && links != [] && batch > 0 && Passed(links, after) == |links| && skips != []
    ensures var rounds := FixedRounds(links, failing, skips);
            link in Visited(after, batch, rounds) <==> link in Visited(None, batch, rounds)
  {
    FixedSplits(links, failing, skips, 1);
    var head, rest := FixedRounds(links, failing, skips[..1]), FixedRounds(links, failing, skips[1..]);
    assert head == [] + [Fixed(links, failing, skips[0])];
    TickAtEnd(links, after, batch, failing, skips[0]);
    RunGrows(after, batch, [], Fixed(links, failing, skips[0]), link);
    RunGrows(None, batch, [], Fixed(links, failing, skips[0]), link);
    RunSplits(after, batch, head, rest, link);
    RunSplits(None, batch, head, rest, link);
  }

  /** The fewest ticks whose batches reach a distance. */
  lemma {:induction false} FewestTicks(distance: nat, batch: nat) returns (ticks: nat)
    requires batch > 0
    ensures distance <= ticks * batch < distance + batch
    ensures ticks > 0 ==> (ticks - 1) * batch < distance
    decreases distance
  {
    if distance == 0 {
      ticks := 0;
    } else if distance <= batch {
      ticks := 1;
    } else {
      var fewer := FewestTicks(distance - batch, batch);
      ticks := fewer + 1;
      LessByOne(ticks, batch);
    }
  }

  /** Without a throwing update, ticks from the start reach as far as their batches do. */
  lemma FreeRunReaches(links: seq<int>, batch: nat, failing: set<int>, skips: seq<set<int>>, i: nat)
    requires Ascending(links) && batch > 0 && Unspared(failing, skips) && i < |links|
    requires FirstFailing(links, failing, 0) == |links| && i < |skips| * batch
    ensures links[i] in Visited(None, batch, FixedRounds(links, failing, skips))
  {
    var all := FewestTicks(|links|, batch);
    var m := if all <= |skips| then all else |skips|;
    if m > 0 {
      Monotone(m - 1, if all > 0 then all - 1 else 0, batch);
    }
    ClimbIs(|links|, batch, 0, m);
    OpenRun(links, None, batch, failing, skips[..m], i);
    FixedSplits(links, failing, skips, m);
    RunSplits(None, batch, FixedRounds(links, failing, skips[..m]), FixedRounds(links, failing, skips[m..]), links[i]);
  }

  /** Enough ticks to go from any cursor to the end and to start over once. */
  predicate Enough(links: seq<int>, batch: nat, skips: seq<set<int>>) {
    |skips| * batch >= |links| + batch
  }

  /** The places that are looked at in the end, from place p. */
  predicate InReach(links: seq<int>, failing: set<int>, p: nat, i: nat)
    requires p <= |links|
  {
    var f, g := FirstFailing(links, failing, p), FirstFailing(links, failing, 0);
    if f < |links| then p <= i <= f else p <= i || g == |links| || i <= g
  }

  /** The ticks that reach the end, and the others; more than enough others to come back to where the
      run began. */
  lemma SplitAtEnd(n: nat, p: nat, batch: nat, ticks: nat) returns (up: nat)
    requires batch > 0 && p <= n && ticks * batch >= n + batch
    ensures up < ticks && n - p <= up * batch && (up > 0 ==> (up - 1) * batch < n - p) && p < (ticks - up) * batch
  {
    up := FewestTicks(n - p, batch);
    if up >= ticks {
      Monotone(ticks, up, batch);
    }
    assert ticks * batch == up * batch + (ticks - up) * batch;
  }

  lemma FirstFailingBehind(links: seq<int>, failing: set<int>, p: nat)
    requires p <= |links| && FirstFailing(links, failing, p) == |links|
    ensures FirstFailing(links, failing, 0) < p || FirstFailing(links, failing, 0) == |links|
  {
    if p <= FirstFailing(links, failing, 0) {
      SameFirstFailing(links, failing, 0, p);
    }
  }

  /** What the ticks after the wrap-around look at. */
  lemma VisitedFromStart(links: seq<int>, batch: nat, failing: set<int>, skips: seq<set<int>>, p: nat, i: nat)
    requires Ascending(links) && batch > 0 && Unspared(failing, skips) && i < |links| && p < |skips| * batch
    requires p <= |links| && FirstFailing(links, failing, p) == |links|
    ensures var rounds, g := FixedRounds(links, failing, skips), FirstFailing(links, failing, 0);
            && (g < |links| ==> (links[i] in Visited(None, batch, rounds) <==> i <= g))
            && (g == |links| && i < p ==> links[i] in Visited(None, batch, rounds))
  {
    FirstFailingBehind(links, failing, p);
    if FirstFailing(links, failing, 0) < |links| {
      BlockedRun(links, None, batch, failing, skips, i);
    } else if i < p {
      FreeRunReaches(links, batch, failing, skips, i);
    }
  }

  /** What the ticks up to the end look at. */
  lemma VisitedToEnd(links: seq<int>, after: Option<int>, batch: nat, failing: set<int>, skips: seq<set<int>>, i: nat)
    requires Ascending(links) && batch > 0 && Unspared(failing, skips) && i < |links|
    requires FirstFailing(links, failing, Passed(links, after)) == |links|
    requires |links| - Passed(links, after) <= |skips| * batch
    requires skips != [] ==> (|skips| - 1) * batch < |links| - Passed(links, after)
    ensures Passed(links, Cursor(after, batch, FixedRounds(links, failing, skips))) == |links|
    ensures links[i] in Visited(after, batch, FixedRounds(links, failing, skips)) <==> Passed(links, after) <= i
  {
    ClimbIs(|links|, batch, Passed(links, after), |skips|);
    OpenRun(links, after, batch, failing, skips, i);
  }

  lemma VisitedBeyondEnd(links: seq<int>, after: Option<int>, batch: nat, failing: set<int>, skips: seq<set<int>>,
                         i: nat)
    requires Ascending(links) && batch > 0 && Unspared(failing, skips) && i < |links| && Enough(links, batch, skips)
    requires FirstFailing(links, failing, Passed(links, after)) == |links|
    ensures links[i] in Visited(after, batch, FixedRounds(links, failing, skips)) <==>
              InReach(links, failing, Passed(links, after), i)
  {
    var p := Passed(links, after);
    var up := SplitAtEnd(|links|, p, batch, |skips|);
    var first, rest := skips[..up], skips[up..];
    VisitedToEnd(links, after, batch, failing, first, i);
    VisitedFromStart(links, batch, failing, rest, p, i);
    FixedSplits(links, failing, skips, up);
    var climb := FixedRounds(links, failing, first);
    RunSplits(after, batch, climb, FixedRounds(links, failing, rest), links[i]);
    RunFromEnd(links, Cursor(after, batch, climb), batch, failing, rest, links[i]);
  }

  lemma VisitedPlaces(links: seq<int>, after: Option<int>, batch: nat, failing: set<int>, skips: seq<set<int>>, i: nat)
    requires Ascending(links) && batch > 0 && Unspared(failing, skips) && i < |links| && Enough(links, batch, skips)
    ensures links[i] in Visited(after, batch, FixedRounds(links, failing, skips)) <==>
              InReach(links, failing, Passed(links, after), i)
  {
    if FirstFailing(links, failing, Passed(links, after)) < |links| {
      BlockedRun(links, after, batch, failing, skips, i);
    } else {
      VisitedBeyondEnd(links, after, batch, failing, skips, i);
    }
  }

  // ---- What is looked at, exactly ----

  /** The first listed link ahead of the cursor whose update throws. */
  function Blocker(links: seq<int>, failing: set<int>, after: Option<int>): Option<int> {
    var f := FirstFailing(links, failing, Passed(links, after));
    if f < |links| then Some(links[f]) else None
  }

  lemma BlockerMeans(links: seq<int>, failing: set<int>, after: Option<int>)
    requires Ascending(links)
    ensures match Blocker(links, failing, after)
            case Some(c) => c in links && c in failing && Ahead(after, c)
                            && forall x | x in links && x in failing && Ahead(after, x) :: c <= x
            case None => forall x | x in links && x in failing :: !Ahead(after, x)
  {
    PassedMeans(links, after);
    FirstFailingMeans(links, failing, Passed(links, after));
    var f := FirstFailing(links, failing, Passed(links, after));
    forall x | x in links && x in failing && Ahead(after, x) ensures f < |links| && links[f] <= x {
      var i :| 0 <= i < |links| && links[i] == x;
    }
  }

  /** The links that are looked at in the end: those from the cursor up to the first whose update throws,
      or, with none ahead, those ahead and those from the start up to the first whose update throws. */
  predicate Reachable(links: seq<int>, failing: set<int>, after: Option<int>, link: int) {
    match Blocker(links, failing, after)
    case Some(c) => Ahead(after, link) && link <= c
    case None =>
      Ahead(after, link) ||
      (match Blocker(links, failing, None)
       case Some(c) => link <= c
       case None => true)
  }

  lemma ReachableAt(links: seq<int>, failing: set<int>, after: Option<int>, i: nat)
    requires Ascending(links) && i < |links|
    ensures Reachable(links, failing, after, links[i]) <==> InReach(links, failing, Passed(links, after), i)
  {
    PassedMeans(links, after);
    var f, g := FirstFailing(links, failing, Passed(links, after)), FirstFailing(links, failing, 0);
    assert Passed(links, None) == 0;
    assert f < |links| ==> (links[i] <= links[f] <==> i <= f);
    assert g < |links| ==> (links[i] <= links[g] <==> i <= g);
  }

  /** With fixed links and a fixed set of throwing updates, enough ticks look at exactly these links,
      whatever other lookups fail. */
  lemma VisitedExactly(links: seq<int>, after: Option<int>, batch: nat, failing: set<int>, skips: seq<set<int>>,
                       link: int)
    requires Ascending(links) && batch > 0 && Unspared(failing, skips) && Enough(links, batch, skips) && link in links
    ensures link in Visited(after, batch, FixedRounds(links, failing, skips))
        <==> Reachable(links, failing, after, link)
  {
    var i :| 0 <= i < |links| && links[i] == link;
    VisitedPlaces(links, after, batch, failing, skips, i);
    ReachableAt(links, failing, after, i);
  }

  /** For any number of ticks, a link whose update throws keeps every link behind it and every link
      already passed from being looked at, once the cursor is before it. */
  lemma FailingUpdateStarves(links: seq<int>, after: Option<int>, batch: nat, failing: set<int>, skips: seq<set<int>>,
                             link: int)
    requires Ascending(links) && batch > 0 && Unspared(failing, skips) && link in links
    requires Blocker(links, failing, after).Some?
    ensures link in Visited(after, batch, FixedRounds(links, failing, skips)) ==>
              Ahead(after, link) && link <= Blocker(links, failing, after).value
  {
    var i :| 0 <= i < |links| && links[i] == link;
    BlockedRun(links, after, batch, failing, skips, i);
    ReachableAt(links, failing, after, i);
  }

  ghost predicate CoversAll(links: seq<int>, batch: nat, failing: set<int>, after: Option<int>, skips: seq<set<int>>) {
    forall link | link in links :: link in Visited(after, batch, FixedRounds(links, failing, skips))
  }

  /** Enough ticks look at every link, from every cursor and whatever other lookups fail. */
  ghost predicate AlwaysCovers(links: seq<int>, batch: nat, failing: set<int>) {
    forall after: Option<int>, skips: seq<set<int>> ::
      Unspared(failing, skips) && Enough(links, batch, skips) ==> CoversAll(links, batch, failing, after, skips)
  }

  lemma OnlyLinkIsReachable(links: seq<int>, failing: set<int>, after: Option<int>, link: int)
    requires Ascending(links) && link in links
    requires (forall x | x in links :: x !in failing) || |links| == 1
    ensures Reachable(links, failing, after, link)
  {
    BlockerMeans(links, failing, after);
    BlockerMeans(links, failing, None);
  }

  /** A cursor from which some link is never looked at. */
  lemma StarvingCursor(links: seq<int>, failing: set<int>, culprit: int) returns (after: Option<int>, starved: int)
    requires Ascending(links) && |links| > 1 && culprit in links && culprit in failing
    ensures starved in links && !Reachable(links, failing, after, starved)
  {
    if links[0] in failing {
      after, starved := None, links[1];
      BlockerMeans(links, failing, None);
      assert Ahead(None, links[0]);
    } else {
      after, starved := Some(links[0]), links[0];
      var i :| 0 <= i < |links| && links[i] == culprit;
      assert Ahead(after, culprit);
      BlockerMeans(links, failing, after);
    }
  }

  /** Coverage is certain if and only if no listed link's update throws or there is only one link. */
  lemma CoverageExactly(links: seq<int>, batch: nat, failing: set<int>)
    requires Ascending(links) && batch > 0
    ensures AlwaysCovers(links, batch, failing) <==> (forall x | x in links :: x !in failing) || |links| <= 1
  {
    if (forall x | x in links :: x !in failing) || |links| <= 1 {
      forall after: Option<int>, skips: seq<set<int>> | Unspared(failing, skips) && Enough(links, batch, skips)
        ensures CoversAll(links, batch, failing, after, skips)
      {
        forall link | link in links ensures link in Visited(after, batch, FixedRounds(links, failing, skips)) {
          OnlyLinkIsReachable(links, failing, after, link);
          VisitedExactly(links, after, batch, failing, skips, link);
        }
      }
    } else {
      var culprit :| culprit in links && culprit in failing;
      var after, starved := StarvingCursor(links, failing, culprit);
      var skips: seq<set<int>> := seq(|links| + 1, _ => {});
      Monotone(1, batch, |links| + 1);
      LessByOne(|links| + 1, batch);
      Monotone(1, batch, |links|);
      VisitedExactly(links, after, batch, failing, skips, starved);
      assert !CoversAll(links, batch, failing, after, skips);
    }
  }

  /** While no update throws, any run of ticks that could hold one batch more than the links, which is
      ceil(n / batch) + 1 ticks, looks at every link, from whatever cursor it starts and whatever
      lookups fail. */
  lemma TicksCoverAllLinks(links: seq<int>, after: Option<int>, batch: nat, skips: seq<set<int>>, link: int)
    requires Ascending(links) && batch > 0 && link in links && Enough(links, batch, skips)
    ensures link in Visited(after, batch, FixedRounds(links, {}, skips))
  {
    CoverageExactly(links, batch, {});
    assert CoversAll(links, batch, {}, after, skips);
  }

  /** ceil(n / batch) + 1 ticks are such a run. */
  lemma CeilingPlusOneSuffices(n: nat, batch: nat)
    requires batch > 0
    ensures ((n + batch - 1) / batch + 1) * batch >= n + batch
  {
    var q, r := (n + batch - 1) / batch, (n + batch - 1) % batch;
    assert n + batch - 1 == q * batch + r;
    LessByOne(q + 1, batch);
  }
}
