/** The relayer hub: bids, assignments with failover to live bidders, heartbeats, and completion
    scores over a sliding window. Messages arrive already validated. */
module Hub {
  import opened Wrappers
  import opened Registry

  datatype Bid = Bid(operator: Operator, x25519Pk: string, addedAt: int)
  datatype Assignment = Assignment(operator: Operator, addedAt: int)
  datatype Outcome = Outcome(completed: bool, at: int)
  datatype FailoverEvent = FailoverEvent(jobId: JobId, from: Operator, to: Operator)

  type Bids = map<JobId, seq<Bid>>
  type Assignments = map<JobId, Assignment>
  type Heartbeats = map<Operator, int>
  type Outcomes = map<Operator, seq<Outcome>>

  const HEARTBEAT_MISS_THRESHOLD_MS: int := 45_000
  const SCORE_WINDOW_MS: int := 30 * 24 * 60 * 60 * 1000
  const BID_EXPIRY_MS: int := 17_280 * 5_000 + 60 * 60 * 1000
  const NEUTRAL_RELAYER_SCORE: real := 0.5

  // ---- Failover ---------------------------------------------------------------------------

  predicate Alive(hb: Heartbeats, op: Operator, now: int) {
    op in hb && now - hb[op] <= HEARTBEAT_MISS_THRESHOLD_MS
  }

  function BidsFor(bids: Bids, j: JobId): seq<Bid> {
    if j in bids then bids[j] else []
  }

  /** A bidder other than `op` that is alive. */
  predicate Alternative(b: Bid, op: Operator, hb: Heartbeats, now: int) {
    b.operator != op && Alive(hb, b.operator, now)
  }

  predicate IsFirstAlternative(list: seq<Bid>, k: nat, op: Operator, hb: Heartbeats, now: int) {
    && k < |list| && Alternative(list[k], op, hb, now)
    && forall i :: 0 <= i < k ==> !Alternative(list[i], op, hb, now)
  }

  /** The first live bidder other than `op`. */
  function FirstAlternative(list: seq<Bid>, op: Operator, hb: Heartbeats, now: int): (r: Option<Operator>)
    ensures r.None? <==> forall k :: 0 <= k < |list| ==> !Alternative(list[k], op, hb, now)
    ensures r.Some? ==> exists k: nat :: IsFirstAlternative(list, k, op, hb, now) && list[k].operator == r.value
    decreases |list|
  {
    if list == [] then None
    else if Alternative(list[0], op, hb, now) then
      assert IsFirstAlternative(list, 0, op, hb, now);
      Some(list[0].operator)
    else
      var r := FirstAlternative(list[1..], op, hb, now);
      assert r.Some? ==> exists k: nat :: IsFirstAlternative(list, k, op, hb, now) && list[k].operator == r.value by {
        if r.Some? {
          var k: nat :| IsFirstAlternative(list[1..], k, op, hb, now) && list[1..][k].operator == r.value;
          assert IsFirstAlternative(list, k + 1, op, hb, now);
        }
      }
      r
  }

  /** Who holds the job after a check. */
  function Moved(a: Assignment, list: seq<Bid>, hb: Heartbeats, now: int): Assignment {
    if Alive(hb, a.operator, now) then a
    else
      match FirstAlternative(list, a.operator, hb, now)
      case None => a
      case Some(op) => Assignment(op, now)
  }

  predicate Moves(a: Assignment, list: seq<Bid>, hb: Heartbeats, now: int) {
    !Alive(hb, a.operator, now) && FirstAlternative(list, a.operator, hb, now).Some?
  }

  function Checked(held: Assignments, bids: Bids, hb: Heartbeats, now: int): Assignments {
    map j | j in held :: Moved(held[j], BidsFor(bids, j), hb, now)
  }

  /** The fixpoint: after a check, every assignment is held by a live operator or its job has no
      other live bidder; a job moved only from a dead operator to a different, live bidder; and a
      second check at the same time changes nothing. */
  lemma FailoverFixpoint(held: Assignments, bids: Bids, hb: Heartbeats, now: int, j: JobId)
    requires j in held
    ensures var after := Checked(held, bids, hb, now);
            && after.Keys == held.Keys
            && (Alive(hb, after[j].operator, now) ||
                forall k :: 0 <= k < |BidsFor(bids, j)| ==>
                    !Alternative(BidsFor(bids, j)[k], after[j].operator, hb, now))
            && (after[j] != held[j] ==>
                  && !Alive(hb, held[j].operator, now) && Alive(hb, after[j].operator, now)
                  && after[j].operator != held[j].operator && after[j].addedAt == now
                  && exists b :: b in BidsFor(bids, j) && b.operator == after[j].operator)
            && !Moves(after[j], BidsFor(bids, j), hb, now)
            && Checked(after, bids, hb, now) == after
  {
    var after := Checked(held, bids, hb, now);
    MovedSettles(held[j], BidsFor(bids, j), hb, now);
    forall i | i in after
      ensures Moved(after[i], BidsFor(bids, i), hb, now) == after[i]
    {
      MovedSettles(held[i], BidsFor(bids, i), hb, now);
    }
  }

  lemma MovedSettles(a: Assignment, list: seq<Bid>, hb: Heartbeats, now: int)
    ensures var a' := Moved(a, list, hb, now);
            && !Moves(a', list, hb, now)
            && (a' != a ==> !Alive(hb, a.operator, now) && a'.operator != a.operator && Alive(hb, a'.operator, now)
                            && a'.addedAt == now && exists b :: b in list && b.operator == a'.operator)
  {
    var r := FirstAlternative(list, a.operator, hb, now);
    if r.Some? {
      var k: nat :| IsFirstAlternative(list, k, a.operator, hb, now) && list[k].operator == r.value;
      assert list[k] in list;
    }
  }

  // ---- Scores -----------------------------------------------------------------------------

  function Windowed(list: seq<Outcome>, now: int): seq<Outcome> {
    if list == [] then []
    else
      var n := |list| - 1;
      Windowed(list[..n], now) + if list[n].at >= now - SCORE_WINDOW_MS then [list[n]] else []
  }

  function Count(list: seq<Outcome>, completed: bool): nat {
    if list == [] then 0
    else Count(list[..|list| - 1], completed) + if list[|list| - 1].completed == completed then 1 else 0
  }

  function Rate(completed: nat, failed: nat): real {
    if completed + failed == 0 then NEUTRAL_RELAYER_SCORE else completed as real / (completed + failed) as real
  }

  /** The score of an operator from all outcomes ever recorded for it. */
  function TrueScore(history: seq<Outcome>, now: int): real {
    var recent := Windowed(history, now);
    Rate(Count(recent, true), Count(recent, false))
  }

  function For(outcomes: Outcomes, op: Operator): seq<Outcome> {
    if op in outcomes then outcomes[op] else []
  }

  lemma {:induction false} WindowShrinks(list: seq<Outcome>, now: int)
    ensures |Windowed(list, now)| <= |list|
    decreases |list|
  {
    if list != [] {
      WindowShrinks(list[..|list| - 1], now);
    }
  }

  lemma {:induction false} WindowFull(list: seq<Outcome>, now: int)
    requires |Windowed(list, now)| == |list|
    ensures Windowed(list, now) == list
    decreases |list|
  {
    if list != [] {
      var n := |list| - 1;
      WindowShrinks(list[..n], now);
      WindowFull(list[..n], now);
      assert Windowed(list, now) == list[..n] + [list[n]];
    }
  }

  lemma {:induction false} WindowTwice(list: seq<Outcome>, t: int, now: int)
    requires t <= now
    ensures Windowed(Windowed(list, t), now) == Windowed(list, now)
    decreases |list|
  {
    if list != [] {
      var n := |list| - 1;
      WindowTwice(list[..n], t, now);
      if list[n].at >= t - SCORE_WINDOW_MS {
        WindowSnoc(Windowed(list[..n], t), list[n], now);
      } else {
        assert Windowed(list, t) == Windowed(list[..n], t);
      }
    }
  }

  lemma WindowSnoc(list: seq<Outcome>, e: Outcome, now: int)
    ensures Windowed(list + [e], now) == Windowed(list, now) + if e.at >= now - SCORE_WINDOW_MS then [e] else []
  {
    assert (list + [e])[..|list|] == list;
  }

  lemma {:induction false} CountsAll(list: seq<Outcome>)
    ensures Count(list, true) + Count(list, false) == |list|
    decreases |list|
  {
    if list != [] {
      CountsAll(list[..|list| - 1]);
    }
  }

  lemma RateBounds(c: nat, f: nat)
    ensures 0.0 <= Rate(c, f) <= 1.0
    ensures c + f > 0 ==> (Rate(c, f) == 1.0 <==> f == 0) && (Rate(c, f) == 0.0 <==> c == 0)
  {
    if c + f > 0 {
      Divides(c as real, (c + f) as real);
    }
  }

  lemma Divides(x: real, y: real)
    requires 0.0 <= x <= y && y > 0.0
    ensures 0.0 <= x / y <= 1.0 && (x / y == 1.0 <==> x == y) && (x / y == 0.0 <==> x == 0.0)
  {
    assert x / y * y == x;
  }

  /** Every score lies between 0 and 1, and an operator nobody has seen resolve a job recently is
      neutral: not at 0, where only operators with nothing but failures are. */
  lemma ScoreRange(history: seq<Outcome>, now: int)
    ensures 0.0 <= TrueScore(history, now) <= 1.0
    ensures Windowed(history, now) == [] ==> TrueScore(history, now) == NEUTRAL_RELAYER_SCORE
    ensures TrueScore(history, now) == 0.0 <==>
              Windowed(history, now) != [] && Count(Windowed(history, now), true) == 0
    ensures TrueScore(history, now) == 1.0 <==>
              Windowed(history, now) != [] && Count(Windowed(history, now), false) == 0
  {
    var recent := Windowed(history, now);
    CountsAll(recent);
    RateBounds(Count(recent, true), Count(recent, false));
  }

  // ---- Runs of the score keeper -----------------------------------------------------------

  datatype ScoreEvent =
    | Record(op: Operator, outcome: Outcome)
    | Prune(now: int)
    | Score(op: Operator, now: int)

  function Recorded(outcomes: Outcomes, op: Operator, e: Outcome): Outcomes {
    outcomes[op := For(outcomes, op) + [e]]
  }

  function PrunedOutcomes(outcomes: Outcomes, now: int): Outcomes {
    map op | op in outcomes && Windowed(outcomes[op], now) != [] :: Windowed(outcomes[op], now)
  }

  /** Scoring trims the operator's list on the way. */
  function Trimmed(outcomes: Outcomes, op: Operator, now: int): Outcomes {
    if Windowed(For(outcomes, op), now) == For(outcomes, op) then outcomes
    else outcomes[op := Windowed(For(outcomes, op), now)]
  }

  function ScoreStep(outcomes: Outcomes, e: ScoreEvent): Outcomes {
    match e
    case Record(op, x) => Recorded(outcomes, op, x)
    case Prune(now) => PrunedOutcomes(outcomes, now)
    case Score(op, now) => Trimmed(outcomes, op, now)
  }

  /** The scores a run answers. */
  function Answers(outcomes: Outcomes, es: seq<ScoreEvent>): seq<real>
    decreases |es|
  {
    if es == [] then []
    else
      (if es[0].Score? then [TrueScore(For(outcomes, es[0].op), es[0].now)] else [])
      + Answers(ScoreStep(outcomes, es[0]), es[1..])
  }

  /** The scores of a keeper that never forgets an outcome. */
  function TrueAnswers(history: Outcomes, es: seq<ScoreEvent>): seq<real>
    decreases |es|
  {
    if es == [] then []
    else
      (if es[0].Score? then [TrueScore(For(history, es[0].op), es[0].now)] else [])
      + TrueAnswers(if es[0].Record? then Recorded(history, es[0].op, es[0].outcome) else history, es[1..])
  }

  function Clock(e: ScoreEvent, t: int): int {
    if e.Record? then t else e.now
  }

  predicate Clocked(es: seq<ScoreEvent>, t: int)
    decreases |es|
  {
    es == [] || (t <= Clock(es[0], t) && Clocked(es[1..], Clock(es[0], t)))
  }

  /** Nothing that still counts at time `t` has been forgotten. */
  ghost predicate Remembers(outcomes: Outcomes, history: Outcomes, t: int) {
    forall op :: Windowed(For(outcomes, op), t) == Windowed(For(history, op), t)
  }

  lemma RemembersLater(outcomes: Outcomes, history: Outcomes, t: int, now: int)
    requires Remembers(outcomes, history, t) && t <= now
    ensures Remembers(outcomes, history, now)
  {
    forall op
      ensures Windowed(For(outcomes, op), now) == Windowed(For(history, op), now)
    {
      WindowTwice(For(outcomes, op), t, now);
      WindowTwice(For(history, op), t, now);
    }
  }

  lemma RemembersRecord(outcomes: Outcomes, history: Outcomes, t: int, op: Operator, e: Outcome)
    requires Remembers(outcomes, history, t)
    ensures Remembers(Recorded(outcomes, op, e), Recorded(history, op, e), t)
  {
    forall o
      ensures Windowed(For(Recorded(outcomes, op, e), o), t) == Windowed(For(Recorded(history, op, e), o), t)
    {
      WindowSnoc(For(outcomes, o), e, t);
      WindowSnoc(For(history, o), e, t);
    }
  }

  lemma RemembersPrune(outcomes: Outcomes, history: Outcomes, now: int)
    requires Remembers(outcomes, history, now)
    ensures Remembers(PrunedOutcomes(outcomes, now), history, now)
  {
    forall op
      ensures Windowed(For(PrunedOutcomes(outcomes, now), op), now) == Windowed(For(history, op), now)
    {
      WindowTwice(For(outcomes, op), now, now);
    }
  }

  lemma RemembersTrim(outcomes: Outcomes, history: Outcomes, op: Operator, now: int)
    requires Remembers(outcomes, history, now)
    ensures Remembers(Trimmed(outcomes, op, now), history, now)
  {
    WindowTwice(For(outcomes, op), now, now);
  }

  lemma {:induction false} ScoresFrom(outcomes: Outcomes, history: Outcomes, es: seq<ScoreEvent>, t: int)
    requires Remembers(outcomes, history, t) && Clocked(es, t)
    ensures Answers(outcomes, es) == TrueAnswers(history, es)
    decreases |es|
  {
    if es != [] {
      var now := Clock(es[0], t);
      RemembersLater(outcomes, history, t, now);
      match es[0] {
        case Record(op, e) =>
          RemembersRecord(outcomes, history, t, op, e);
          ScoresFrom(Recorded(outcomes, op, e), Recorded(history, op, e), es[1..], t);
        case Prune(_) =>
          RemembersPrune(outcomes, history, now);
          ScoresFrom(PrunedOutcomes(outcomes, now), history, es[1..], now);
        case Score(op, _) =>
          RemembersTrim(outcomes, history, op, now);
          ScoresFrom(Trimmed(outcomes, op, now), history, es[1..], now);
      }
    }
  }

  /** Under a clock that never goes back, pruning and trimming never change a score: every answer
      is the score over everything ever recorded. */
  lemma PruningKeepsScores(es: seq<ScoreEvent>, t: int)
    requires Clocked(es, t)
    ensures Answers(map[], es) == TrueAnswers(map[], es)
  {
    ScoresFrom(map[], map[], es, t);
  }

  // ---- Bids and assignments ---------------------------------------------------------------

  function FreshBids(list: seq<Bid>, now: int): seq<Bid> {
    if list == [] then []
    else
      var n := |list| - 1;
      FreshBids(list[..n], now) + if now - list[n].addedAt < BID_EXPIRY_MS then [list[n]] else []
  }

  lemma {:induction false} FreshBidsShrinks(list: seq<Bid>, now: int)
    ensures |FreshBids(list, now)| <= |list|
    decreases |list|
  {
    if list != [] {
      FreshBidsShrinks(list[..|list| - 1], now);
    }
  }

  lemma {:induction false} FreshBidsFull(list: seq<Bid>, now: int)
    requires |FreshBids(list, now)| == |list|
    ensures FreshBids(list, now) == list
    decreases |list|
  {
    if list != [] {
      var n := |list| - 1;
      FreshBidsShrinks(list[..n], now);
      FreshBidsFull(list[..n], now);
      assert FreshBids(list, now) == list[..n] + [list[n]];
    }
  }

  /** Pruning keeps exactly the bids that have not expired. */
  lemma {:induction false} FreshBidsMeans(list: seq<Bid>, now: int, b: Bid)
    ensures b in FreshBids(list, now) <==> b in list && now - b.addedAt < BID_EXPIRY_MS
    decreases |list|
  {
    if list != [] {
      var n := |list| - 1;
      FreshBidsMeans(list[..n], now, b);
      assert b in list <==> b in list[..n] || b == list[n];
    }
  }

  lemma {:induction false} FreshBidsOneEach(list: seq<Bid>, now: int)
    requires OneBidEach(list)
    ensures OneBidEach(FreshBids(list, now))
    decreases |list|
  {
    if list != [] {
      var n := |list| - 1;
      var rest := FreshBids(list[..n], now);
      FreshBidsOneEach(list[..n], now);
      forall k | 0 <= k < |rest|
        ensures rest[k].operator != list[n].operator
      {
        FreshBidsMeans(list[..n], now, rest[k]);
        assert rest[k] in rest;
      }
    }
  }

  function PrunedBids(bids: Bids, now: int): Bids {
    map j | j in bids && FreshBids(bids[j], now) != [] :: FreshBids(bids[j], now)
  }

  function PrunedAssignments(held: Assignments, now: int): Assignments {
    map j | j in held && now - held[j].addedAt < BID_EXPIRY_MS :: held[j]
  }

  predicate IsFirstWithKey(list: seq<Bid>, k: nat, pk: string) {
    k < |list| && list[k].x25519Pk == pk && forall i :: 0 <= i < k ==> list[i].x25519Pk != pk
  }

  predicate OneBidEach(list: seq<Bid>) {
    forall a, b :: 0 <= a < b < |list| ==> list[a].operator != list[b].operator
  }

  predicate HasBid(list: seq<Bid>, op: Operator) {
    exists k :: 0 <= k < |list| && list[k].operator == op
  }

  class RelayerHub {
    var bids: Bids
    var assignments: Assignments
    var outcomes: Outcomes
    var lastHeartbeatAt: Heartbeats

    /** An operator bids once per job. */
    ghost predicate Valid()
      reads this
    {
      forall j :: j in bids ==> OneBidEach(bids[j])
    }

    constructor ()
      ensures Valid() && bids == map[] && assignments == map[] && outcomes == map[] && lastHeartbeatAt == map[]
    {
      bids, assignments, outcomes, lastHeartbeatAt := map[], map[], map[], map[];
    }

    /** `rememberBid`: the first bid of an operator stands. */
    method RememberBid(j: JobId, op: Operator, pk: string, now: int)
      requires Valid()
      modifies this`bids
      ensures Valid()
      ensures bids == if HasBid(BidsFor(old(bids), j), op) then old(bids)
                      else old(bids)[j := BidsFor(old(bids), j) + [Bid(op, pk, now)]]
    {
      var list := BidsFor(bids, j);
      if !HasBid(list, op) {
        bids := bids[j := list + [Bid(op, pk, now)]];
      }
    }

    /** `rememberAssignment`: the bidder the payload is encrypted to. */
    method RememberAssignment(j: JobId, to: string, now: int)
      modifies this`assignments
      ensures forall k: nat :: IsFirstWithKey(BidsFor(bids, j), k, to) ==>
                assignments == old(assignments)[j := Assignment(BidsFor(bids, j)[k].operator, now)]
      ensures (forall k :: 0 <= k < |BidsFor(bids, j)| ==> BidsFor(bids, j)[k].x25519Pk != to) ==>
                assignments == old(assignments)
    {
      var list := BidsFor(bids, j);
      for i := 0 to |list|
        invariant assignments == old(assignments)
        invariant forall k :: 0 <= k < i ==> list[k].x25519Pk != to
      {
        if list[i].x25519Pk == to {
          assignments := assignments[j := Assignment(list[i].operator, now)];
          return;
        }
      }
    }

    method RecordHeartbeat(op: Operator, at: int)
      modifies this`lastHeartbeatAt
      ensures lastHeartbeatAt == old(lastHeartbeatAt)[op := at]
    {
      lastHeartbeatAt := lastHeartbeatAt[op := at];
    }

    /** An outcome message settles the job: its bids and assignment go. */
    method HandleOutcome(j: JobId, op: Operator, completed: bool, now: int)
      requires Valid()
      modifies this`outcomes, this`assignments, this`bids
      ensures Valid()
      ensures outcomes == Recorded(old(outcomes), op, Outcome(completed, now))
      ensures assignments == old(assignments) - {j} && bids == old(bids) - {j}
    {
      outcomes := outcomes[op := For(outcomes, op) + [Outcome(completed, now)]];
      assignments := assignments - {j};
      bids := bids - {j};
    }

    /** `runFailoverCheck`: one event per job that moved, and none else. */
    method RunFailoverCheck(now: int) returns (events: seq<FailoverEvent>)
      modifies this`assignments
      ensures assignments == Checked(old(assignments), bids, lastHeartbeatAt, now)
      ensures Reported(events, old(assignments), assignments, old(assignments).Keys)
    {
      events := [];
      var todo := assignments.Keys;
      ghost var done: set<JobId> := {};
      while todo != {}
        invariant done !! todo && done + todo == old(assignments).Keys == assignments.Keys
        invariant forall j :: j in done ==>
            assignments[j] == Moved(old(assignments)[j], BidsFor(bids, j), lastHeartbeatAt, now)
        invariant forall j :: j in todo ==> assignments[j] == old(assignments)[j]
        invariant Reported(events, old(assignments), assignments, done)
      {
        var j :| j in todo;
        ghost var before := assignments;
        ghost var reported := events;
        var a := assignments[j];
        todo := todo - {j};
        MovedSettles(a, BidsFor(bids, j), lastHeartbeatAt, now);
        if !Alive(lastHeartbeatAt, a.operator, now) {
          var alt := FirstAlternative(BidsFor(bids, j), a.operator, lastHeartbeatAt, now);
          if alt.Some? {
            assignments := assignments[j := Assignment(alt.value, now)];
            events := events + [FailoverEvent(j, a.operator, alt.value)];
          }
        }
        ReportMore(reported, events, old(assignments), before, assignments, done, j);
        done := done + {j};
      }
      assert done == old(assignments).Keys;
    }

    /** `prune`: bids, assignments and outcomes past their expiry. */
    method Prune(now: int)
      requires Valid()
      modifies this
      ensures Valid() && bids == PrunedBids(old(bids), now)
      ensures assignments == PrunedAssignments(old(assignments), now)
      ensures outcomes == PrunedOutcomes(old(outcomes), now)
      ensures lastHeartbeatAt == old(lastHeartbeatAt)
    {
      PruneBids(now);
      PruneAssignments(now);
      PruneOutcomes(now);
      forall j | j in bids
        ensures OneBidEach(bids[j])
      {
        FreshBidsOneEach(old(bids)[j], now);
      }
    }

    method PruneBids(now: int)
      modifies this`bids
      ensures bids == PrunedBids(old(bids), now)
    {
      var todo := bids.Keys;
      ghost var done: set<JobId> := {};
      while todo != {}
        invariant done !! todo && done + todo == old(bids).Keys
        invariant bids.Keys == set j | j in old(bids) && (j in todo || FreshBids(old(bids)[j], now) != [])
        invariant forall j :: j in bids ==> bids[j] == if j in todo then old(bids)[j] else FreshBids(old(bids)[j], now)
      {
        var j :| j in todo;
        var kept := FreshBids(bids[j], now);
        if |kept| == |bids[j]| {
          FreshBidsFull(bids[j], now);
        }
        todo, done := todo - {j}, done + {j};
        if |kept| == 0 {
          bids := bids - {j};
        } else if |kept| != |bids[j]| {
          bids := bids[j := kept];
        }
      }
    }

    method PruneAssignments(now: int)
      modifies this`assignments
      ensures assignments == PrunedAssignments(old(assignments), now)
    {
      var todo := assignments.Keys;
      while todo != {}
        invariant todo <= old(assignments).Keys
        invariant assignments == map j | j in old(assignments)
                    && (j in todo || now - old(assignments)[j].addedAt < BID_EXPIRY_MS) :: old(assignments)[j]
      {
        var j :| j in todo;
        todo := todo - {j};
        if now - assignments[j].addedAt >= BID_EXPIRY_MS {
          assignments := assignments - {j};
        }
      }
    }

    method PruneOutcomes(now: int)
      modifies this`outcomes
      ensures outcomes == PrunedOutcomes(old(outcomes), now)
    {
      var todo := outcomes.Keys;
      while todo != {}
        invariant todo <= old(outcomes).Keys
        invariant outcomes.Keys == set op | op in old(outcomes)
            && (op in todo || Windowed(old(outcomes)[op], now) != [])
        invariant forall op :: op in outcomes ==>
                    outcomes[op] == if op in todo then old(outcomes)[op] else Windowed(old(outcomes)[op], now)
      {
        var op :| op in todo;
        var recent := Windowed(outcomes[op], now);
        if |recent| == |outcomes[op]| {
          WindowFull(outcomes[op], now);
        }
        todo := todo - {op};
        if |recent| == 0 {
          outcomes := outcomes - {op};
        } else if |recent| != |outcomes[op]| {
          outcomes := outcomes[op := recent];
        }
      }
    }

    /** `scoreFor`, with `windowedOutcomes` inside. */
    method ScoreFor(op: Operator, now: int) returns (score: real, completed: nat, failed: nat)
      modifies this`outcomes
      ensures outcomes == Trimmed(old(outcomes), op, now)
      ensures score == TrueScore(For(old(outcomes), op), now)
      ensures completed == Count(Windowed(For(old(outcomes), op), now), true)
      ensures failed == Count(Windowed(For(old(outcomes), op), now), false)
      ensures completed + failed == |Windowed(For(old(outcomes), op), now)|
    {
      var list := For(outcomes, op);
      var recent := Windowed(list, now);
      if |recent| != |list| {
        outcomes := outcomes[op := recent];
      } else {
        WindowFull(list, now);
      }
      completed := Count(recent, true);
      failed := Count(recent, false);
      CountsAll(recent);
      var resolved := completed + failed;
      score := if resolved == 0 then NEUTRAL_RELAYER_SCORE else completed as real / resolved as real;
    }
  }

  /** One event for each of these jobs that changed hands, naming both holders. */
  ghost predicate Reported(events: seq<FailoverEvent>, before: Assignments, after: Assignments, js: set<JobId>) {
    && js <= before.Keys && js <= after.Keys
    && (forall e :: e in events ==>
          e.jobId in js && before[e.jobId] != after[e.jobId]
          && e.from == before[e.jobId].operator && e.to == after[e.jobId].operator)
    && (forall j :: j in js && before[j] != after[j] ==>
        FailoverEvent(j, before[j].operator, after[j].operator) in events)
    && (forall a, b :: 0 <= a < b < |events| ==> events[a].jobId != events[b].jobId)
  }

  lemma ReportMore(
    events: seq<FailoverEvent>, events': seq<FailoverEvent>, before: Assignments, mid: Assignments, after: Assignments,
    js: set<JobId>, j: JobId)
    requires Reported(events, before, mid, js) && j in before && j !in js && j in mid && mid[j] == before[j]
    requires after.Keys == mid.Keys && forall i :: i in js ==> after[i] == mid[i]
    requires after[j] == before[j] ==> events' == events
    requires after[j] != before[j] ==> events' == events + [FailoverEvent(j, before[j].operator, after[j].operator)]
    ensures Reported(events', before, after, js + {j})
  {
  }
}
