/** Run bookkeeping (src/stores/runStore.ts): rounds of a fixed number of
    darts against a growing target score, with coins for the surplus. */
module Run {
  import opened Models

  const StartTarget: int := 75
  const StartDarts: int := 9

  /** A snapshot of the store's state record. */
  datatype RunState = RunState(
    round: int,
    dartsPerRound: int,
    dartsLeft: int,
    targetScore: int,
    throws: seq<HitResult>,
    coins: int,
    phase: RunPhase)

  /** The state a new run starts in; `resetRun` restores exactly this. */
  function Initial(): (s: RunState)
    ensures Valid(s) && s.phase == Aiming && s.throws == []
  {
    RunState(1, StartDarts, StartDarts, StartTarget, [], 0, Aiming)
  }

  // ---------------------------------------------------------------------
  // Getters

  /** `throws.reduce((sum, t) => sum + t.total, 0)`, a left fold. */
  function SumTotals(ts: seq<HitResult>): (sum: int)
    ensures ts == [] ==> sum == 0
    ensures (forall k :: 0 <= k < |ts| ==> ts[k].total >= 0) ==> sum >= 0
  {
    if ts == [] then 0 else SumTotals(ts[..|ts| - 1]) + ts[|ts| - 1].total
  }

  /** Folding from the left adds a prepended throw's total to the rest. */
  lemma {:induction false} SumTotalsPrepend(h: HitResult, ts: seq<HitResult>)
    ensures SumTotals([h] + ts) == h.total + SumTotals(ts)
  {
    if ts != [] {
      assert ([h] + ts)[..|ts|] == [h] + ts[..|ts| - 1];
      SumTotalsPrepend(h, ts[..|ts| - 1]);
    }
  }

  /** Throws that are documented score between 0 and 60 points each. */
  lemma {:induction false} SumTotalsBounds(ts: seq<HitResult>)
    requires forall k :: 0 <= k < |ts| ==> Documented(ts[k])
    ensures 0 <= SumTotals(ts) <= 60 * |ts|
  {
    if ts != [] {
      SumTotalsBounds(ts[..|ts| - 1]);
      DocumentedTotalBounds(ts[|ts| - 1]);
    }
  }

  lemma SumTotalsBoundsIf(ts: seq<HitResult>)
    ensures (forall k :: 0 <= k < |ts| ==> Documented(ts[k])) ==> 0 <= SumTotals(ts) <= 60 * |ts|
  {
    if forall k :: 0 <= k < |ts| ==> Documented(ts[k]) {
      SumTotalsBounds(ts);
    }
  }

  /** The `totalScore` getter. Documented throws score at most 60 each. */
  function TotalScore(s: RunState): (total: int)
    ensures (forall k :: 0 <= k < |s.throws| ==> Documented(s.throws[k])) ==>
      0 <= total <= 60 * |s.throws|
  {
    SumTotalsBoundsIf(s.throws);
    SumTotals(s.throws)
  }

  /** `Math.max(0, target - total)`: how many points the round still lacks. */
  function ScoreNeeded(s: RunState): (n: int)
    ensures n >= 0 && n >= s.targetScore - TotalScore(s)
    ensures n == 0 || n == s.targetScore - TotalScore(s)
  {
    if s.targetScore - SumTotals(s.throws) > 0 then s.targetScore - SumTotals(s.throws) else 0
  }

  /** `Math.max(0, total - target)`: how many points exceed the target. */
  function ScoreOver(s: RunState): (n: int)
    ensures n >= 0 && n >= TotalScore(s) - s.targetScore
    ensures n == 0 || n == TotalScore(s) - s.targetScore
  {
    if SumTotals(s.throws) - s.targetScore > 0 then SumTotals(s.throws) - s.targetScore else 0
  }

  /** Needed and over are never both positive and differ by target minus total. */
  lemma ScoreBalance(s: RunState)
    ensures ScoreNeeded(s) == 0 || ScoreOver(s) == 0
    ensures ScoreNeeded(s) - ScoreOver(s) == s.targetScore - TotalScore(s)
    ensures ScoreNeeded(s) == 0 <==> TotalScore(s) >= s.targetScore
  {
  }

  // ---------------------------------------------------------------------
  // Target ramp

  /** `Math.round(x)`: the nearest integer, halves rounded up. */
  function MathRound(x: real): (n: int)
    ensures x - 0.5 < n as real <= x + 0.5
  {
    (x + 0.5).Floor
  }

  /** `Math.round(target * 1.25)`, the next round's target. */
  function NextTarget(t: int): (n: int)
    ensures n == (5 * t + 2) / 4
    ensures t >= 0 ==> n >= t
    ensures t >= 2 ==> n > t
  {
    var n := MathRound(t as real * 1.25);
    var q := (5 * t + 2) / 4;
    assert 4 * q <= 5 * t + 2 < 4 * q + 4;
    assert (q as real) <= t as real * 1.25 + 0.5 < q as real + 1.0;
    assert n == q;
    n
  }

  /** The target of round `n` of a run, starting at 75. */
  function TargetFor(n: int): (t: int)
    requires n >= 1
    ensures t >= StartTarget
  {
    if n == 1 then StartTarget else NextTarget(TargetFor(n - 1))
  }

  /** Targets never shrink from one round to a later one. */
  lemma {:induction false} TargetForMonotone(m: int, n: int)
    requires 1 <= m <= n
    ensures TargetFor(m) <= TargetFor(n)
    ensures TargetFor(n) >= StartTarget
    decreases n
  {
    if m < n {
      TargetForMonotone(m, n - 1);
    } else if n > 1 {
      TargetForMonotone(1, n - 1);
    }
  }

  /** Round 10 asks for 564 points: more than nine darts can score. */
  lemma TargetForTen()
    ensures TargetFor(10) == 564
    ensures forall n :: n >= 10 ==> TargetFor(n) >= 564
  {
    assert TargetFor(2) == 94;
    assert TargetFor(3) == 118;
    assert TargetFor(4) == 148;
    assert TargetFor(5) == 185;
    assert TargetFor(6) == 231;
    assert TargetFor(7) == 289;
    assert TargetFor(8) == 361;
    assert TargetFor(9) == 451;
    forall n | n >= 10 ensures TargetFor(n) >= 564 {
      TargetForMonotone(10, n);
    }
  }

  // ---------------------------------------------------------------------
  // Invariant

  /** What holds of every state the actions can reach from Initial(). */
  predicate Valid(s: RunState) {
    && s.round >= 1
    && s.targetScore == TargetFor(s.round)
    && s.dartsPerRound == StartDarts
    && s.dartsLeft >= 0
    && |s.throws| + s.dartsLeft == s.dartsPerRound
    && s.coins >= 0
    && (s.phase == Aiming <==> s.dartsLeft > 0)
    && (s.phase == RoundComplete ==> TotalScore(s) >= s.targetScore)
    && (s.phase == RunOver ==> TotalScore(s) < s.targetScore)
  }

  lemma InitialValid()
    ensures Valid(Initial())
    ensures ScoreNeeded(Initial()) == StartTarget && ScoreOver(Initial()) == 0
  {
  }

  // ---------------------------------------------------------------------
  // Actions, as functions of the state

  /** `submitThrow(hit)`. */
  function Submitted(s: RunState, hit: HitResult): (t: RunState)
    ensures s.phase != Aiming || s.dartsLeft <= 0 ==> t == s
    ensures t.round == s.round && t.targetScore == s.targetScore
    ensures t.dartsPerRound == s.dartsPerRound
  {
    if s.phase != Aiming || s.dartsLeft <= 0 then s
    else
      var throws := [hit] + s.throws;
      var left := s.dartsLeft - 1;
      if left == 0 then
        var total := SumTotals(throws);
        if total >= s.targetScore then
          s.(throws := throws, dartsLeft := left,
             coins := s.coins + (total - s.targetScore), phase := RoundComplete)
        else
          s.(throws := throws, dartsLeft := left, phase := RunOver)
      else
        s.(throws := throws, dartsLeft := left)
  }

  /** An accepted throw is prepended and costs one dart; the round stays
      open while darts remain, and on the last dart it is won, paying the
      surplus in coins, exactly when the total reaches the target. */
  lemma SubmittedAccepted(s: RunState, hit: HitResult)
    requires s.phase == Aiming && s.dartsLeft > 0
    ensures var t := Submitted(s, hit);
      && t.throws == [hit] + s.throws
      && t.dartsLeft == s.dartsLeft - 1
      && TotalScore(t) == hit.total + TotalScore(s)
      && (t.dartsLeft > 0 ==> t.phase == Aiming && t.coins == s.coins)
      && (t.dartsLeft == 0 && TotalScore(t) >= s.targetScore ==>
            t.phase == RoundComplete && t.coins == s.coins + TotalScore(t) - s.targetScore)
      && (t.dartsLeft == 0 && TotalScore(t) < s.targetScore ==>
            t.phase == RunOver && t.coins == s.coins)
  {
    SumTotalsPrepend(hit, s.throws);
  }

  /** Coins never decrease when a throw is submitted. */
  lemma SubmittedCoins(s: RunState, hit: HitResult)
    ensures Submitted(s, hit).coins >= s.coins
  {
  }

  lemma SubmittedValid(s: RunState, hit: HitResult)
    requires Valid(s)
    ensures Valid(Submitted(s, hit))
  {
  }

  /** `startNextRound()`. */
  function NextRound(s: RunState): (t: RunState)
    ensures s.phase != RoundComplete ==> t == s
    ensures t.coins == s.coins && t.dartsPerRound == s.dartsPerRound
  {
    if s.phase != RoundComplete then s
    else
      s.(round := s.round + 1, targetScore := NextTarget(s.targetScore),
         throws := [], dartsLeft := s.dartsPerRound, phase := Aiming)
  }

  /** A won round opens the next one: one round on, a target no smaller,
      no throws, a full set of darts, and aiming again. */
  lemma NextRoundOpens(s: RunState)
    requires Valid(s) && s.phase == RoundComplete
    ensures var t := NextRound(s);
      && Valid(t)
      && t.round == s.round + 1
      && t.targetScore == MathRound(s.targetScore as real * 1.25) > s.targetScore
      && t.throws == [] && t.dartsLeft == StartDarts && t.phase == Aiming
  {
    TargetForMonotone(1, s.round);
  }

  lemma NextRoundValid(s: RunState)
    requires Valid(s)
    ensures Valid(NextRound(s))
  {
    if s.phase == RoundComplete {
      NextRoundOpens(s);
    }
  }

  // ---------------------------------------------------------------------
  // Whole rounds

  /** Submitting several throws, first to last. */
  function SubmittedAll(s: RunState, hits: seq<HitResult>): (t: RunState)
    decreases |hits|
  {
    if hits == [] then s else SubmittedAll(Submitted(s, hits[0]), hits[1..])
  }

  function Reversed(hits: seq<HitResult>): (r: seq<HitResult>)
    ensures |r| == |hits|
  {
    if hits == [] then [] else Reversed(hits[1..]) + [hits[0]]
  }

  /** Once a round is resolved, further throws are ignored. */
  lemma {:induction false} SubmittedAllAfterResolve(s: RunState, hits: seq<HitResult>)
    requires s.phase != Aiming
    ensures SubmittedAll(s, hits) == s
    decreases |hits|
  {
    if hits != [] {
      SubmittedAllAfterResolve(s, hits[1..]);
    }
  }

  /** Throwing every remaining dart of an open round resolves it: the throws
      are stacked newest first, and the round is won, paying the surplus,
      exactly when the round's total reaches the target. */
  lemma {:induction false} SubmittedAllRound(s: RunState, hits: seq<HitResult>)
    requires s.phase == Aiming && s.dartsLeft == |hits| > 0
    ensures var t := SubmittedAll(s, hits);
      && t.throws == Reversed(hits) + s.throws
      && t.dartsLeft == 0
      && TotalScore(t) == SumTotals(hits) + TotalScore(s)
      && t.round == s.round && t.targetScore == s.targetScore
      && (TotalScore(t) >= s.targetScore ==>
            t.phase == RoundComplete && t.coins == s.coins + TotalScore(t) - s.targetScore)
      && (TotalScore(t) < s.targetScore ==> t.phase == RunOver && t.coins == s.coins)
    decreases |hits|
  {
    var h := hits[0];
    var s1 := Submitted(s, h);
    SubmittedAccepted(s, h);
    assert hits == [h] + hits[1..];
    SumTotalsPrepend(h, hits[1..]);
    if |hits| == 1 {
      assert SubmittedAll(s1, hits[1..]) == s1;
      assert SumTotals(hits[1..]) == 0;
    } else {
      SubmittedAllRound(s1, hits[1..]);
      assert Reversed(hits[1..]) + ([h] + s.throws) == (Reversed(hits[1..]) + [h]) + s.throws;
    }
  }

  /** However well a player throws, a documented round of nine darts scores
      at most 540, so round 10 (target 564) always ends the run. */
  lemma RoundTenUnwinnable(s: RunState, hits: seq<HitResult>)
    requires Valid(s) && s.round >= 10 && s.phase == Aiming && |hits| == s.dartsLeft
    requires forall k :: 0 <= k < |s.throws| ==> Documented(s.throws[k])
    requires forall k :: 0 <= k < |hits| ==> Documented(hits[k])
    ensures SubmittedAll(s, hits).phase == RunOver
  {
    SubmittedAllRound(s, hits);
    SumTotalsBounds(s.throws);
    SumTotalsBounds(hits);
    TargetForTen();
  }

  // ---------------------------------------------------------------------
  // The store

  /** The Pinia store `run`: the state record's fields, updated in place by
      the actions. The getters are the functions of State() above. */
  class RunStore {
    var round: int
    var dartsPerRound: int
    var dartsLeft: int
    var targetScore: int
    var throws: seq<HitResult>
    var coins: int
    var phase: RunPhase

    function State(): RunState
      reads this
    {
      RunState(round, dartsPerRound, dartsLeft, targetScore, throws, coins, phase)
    }

    /** The store's initial `state()`. */
    constructor ()
      ensures State() == Initial() && Valid(State())
    {
      round := 1;
      dartsPerRound := 9;
      dartsLeft := 9;
      targetScore := 75;
      throws := [];
      coins := 0;
      phase := Aiming;
    }

    method SubmitThrow(hit: HitResult)
      modifies this
      ensures State() == Submitted(old(State()), hit)
      ensures Valid(old(State())) ==> Valid(State())
    {
      if phase != Aiming { return; }
      if dartsLeft <= 0 { return; }

      throws := [hit] + throws;
      dartsLeft := dartsLeft - 1;

      if dartsLeft == 0 {
        var total := SumTotals(throws);
        if total >= targetScore {
          coins := coins + (total - targetScore);
          phase := RoundComplete;
        } else {
          phase := RunOver;
        }
      }
      if Valid(old(State())) {
        SubmittedValid(old(State()), hit);
      }
    }

    method StartNextRound()
      modifies this
      ensures State() == NextRound(old(State()))
      ensures Valid(old(State())) ==> Valid(State())
    {
      if phase != RoundComplete { return; }

      round := round + 1;
      targetScore := MathRound(targetScore as real * 1.25);
      throws := [];
      dartsLeft := dartsPerRound;
      phase := Aiming;
      if Valid(old(State())) {
        NextRoundValid(old(State()));
      }
    }

    method ResetRun()
      modifies this
      ensures State() == Initial() && Valid(State())
    {
      round := 1;
      targetScore := 75;
      dartsPerRound := 9;
      dartsLeft := dartsPerRound;
      throws := [];
      coins := 0;
      phase := Aiming;
      InitialValid();
    }
  }
}
