/** Pure arithmetic behind the contextual UCB policy: numpy's first-maximum
    argmax, Python's `max` over a row, running sums and means, and the log of
    updates that feeds one table cell. */
module BanditStats {

  /** `np.argmax`: the index of the largest score, the lowest such index on ties. */
  function ArgMax(s: seq<real>): (k: nat)
    requires |s| > 0
    ensures k < |s|
    ensures forall j :: 0 <= j < |s| ==> s[j] <= s[k]
    ensures forall j :: 0 <= j < k ==> s[j] < s[k]
  {
    if |s| == 1 then 0
    else
      var k := ArgMax(s[..|s| - 1]);
      if s[k] < s[|s| - 1] then |s| - 1 else k
  }

  /** Python's `max` over a non-empty row: a value of the row that no entry exceeds. */
  function RowMax(s: seq<real>): (m: real)
    requires |s| > 0
    ensures exists j :: 0 <= j < |s| && s[j] == m
    ensures forall j :: 0 <= j < |s| ==> s[j] <= m
  {
    s[ArgMax(s)]
  }

  /** The regret of choosing arm `a` in a row of estimates: how far its estimate
      falls short of the best one. */
  function RegretGap(row: seq<real>, a: nat): (g: real)
    requires a < |row|
    ensures 0.0 <= g
    ensures g == 0.0 <==> forall j :: 0 <= j < |row| ==> row[j] <= row[a]
  {
    RowMax(row) - row[a]
  }

  /** Any index that is a maximum and beats every lower index is the one ArgMax picks. */
  lemma ArgMaxUnique(s: seq<real>, k: nat)
    requires k < |s|
    requires forall j :: 0 <= j < |s| ==> s[j] <= s[k]
    requires forall j :: 0 <= j < k ==> s[j] < s[k]
    ensures ArgMax(s) == k
  {
  }

  function Sum(s: seq<real>): real
  {
    if s == [] then 0.0 else Sum(s[..|s| - 1]) + s[|s| - 1]
  }

  /** Arithmetic mean; the empty mean is 0, the value a fresh table cell holds. */
  function Mean(s: seq<real>): real
  {
    if s == [] then 0.0 else Sum(s) / (|s| as real)
  }

  /** The incremental-mean update of section 2.4 of Sutton and Barto: move the
      estimate `q` of n rewards towards the new reward `r` by 1/(n + 1). */
  function IncrementalStep(q: real, r: real, n: nat): real
  {
    q + (r - q) / (n as real + 1.0)
  }

  /** One step lands between the old estimate and the new reward, and on a
      cell never visited before it lands on the reward itself. */
  lemma IncrementalStepBetween(q: real, r: real, n: nat)
    ensures q <= r ==> q <= IncrementalStep(q, r, n) <= r
    ensures r <= q ==> r <= IncrementalStep(q, r, n) <= q
    ensures n == 0 ==> IncrementalStep(q, r, n) == r
  {
  }

  /** The incremental update turns the mean of n rewards into the mean of those
      n and one more. */
  lemma IncrementalMean(s: seq<real>, r: real)
    ensures IncrementalStep(Mean(s), r, |s|) == Mean(s + [r])
  {
    assert (s + [r])[..|s|] == s;
  }

  /** The estimate the policy holds after seeing the rewards `s` one by one,
      starting from 0. */
  function RunningMean(s: seq<real>): real
  {
    if s == [] then 0.0 else IncrementalStep(RunningMean(s[..|s| - 1]), s[|s| - 1], |s| - 1)
  }

  /** The running estimate is exactly the arithmetic mean of the rewards seen. */
  lemma {:induction false} RunningMeanIsMean(s: seq<real>)
    ensures RunningMean(s) == Mean(s)
  {
    if s != [] {
      var init := s[..|s| - 1];
      RunningMeanIsMean(init);
      IncrementalMean(init, s[|s| - 1]);
      assert init + [s[|s| - 1]] == s;
    }
  }

  lemma {:induction false} SumBounds(s: seq<real>, lo: real, hi: real)
    requires forall j :: 0 <= j < |s| ==> lo <= s[j] <= hi
    ensures lo * (|s| as real) <= Sum(s) <= hi * (|s| as real)
  {
    if s != [] {
      SumBounds(s[..|s| - 1], lo, hi);
    }
  }

  /** A running mean stays within the range of the rewards it averages. */
  lemma MeanWithinRange(s: seq<real>, lo: real, hi: real)
    requires |s| > 0
    requires forall j :: 0 <= j < |s| ==> lo <= s[j] <= hi
    ensures lo <= Mean(s) <= hi
  {
    SumBounds(s, lo, hi);
    var n := |s| as real;
    assert Mean(s) * n == Sum(s);
  }

  /** One call of `update_params`: the cell it touched and the reward it saw. */
  datatype Update = Update(context: nat, action: nat, reward: real)

  /** The rewards of the updates that went to cell (c, a), in the order they came. */
  function CellRewards(log: seq<Update>, c: nat, a: nat): (rs: seq<real>)
    ensures |rs| <= |log|
  {
    if log == [] then []
    else
      var u := log[|log| - 1];
      CellRewards(log[..|log| - 1], c, a) + (if u.context == c && u.action == a then [u.reward] else [])
  }

  /** Updates to other cells, however they are interleaved, do not disturb a cell's rewards. */
  lemma {:induction false} CellRewardsConcat(log1: seq<Update>, log2: seq<Update>, c: nat, a: nat)
    ensures CellRewards(log1 + log2, c, a) == CellRewards(log1, c, a) + CellRewards(log2, c, a)
    decreases |log2|
  {
    if log2 == [] {
      assert log1 + log2 == log1;
    } else {
      var u := log2[|log2| - 1];
      var init := log2[..|log2| - 1];
      assert (log1 + log2)[..|log1 + log2| - 1] == log1 + init;
      CellRewardsConcat(log1, init, c, a);
    }
  }

  /** Cell (c, a) of a policy that has seen `log`: its count is the number of
      rewards logged for it and its estimate their running mean. */
  ghost predicate CellAgrees(q: real, n: nat, log: seq<Update>, c: nat, a: nat)
  {
    n == |CellRewards(log, c, a)| && q == RunningMean(CellRewards(log, c, a))
  }

  /** One update keeps every cell in agreement with the log: the touched cell
      by one incremental step and one more visit, every other cell by staying put. */
  lemma CellStep(log: seq<Update>, u: Update, c: nat, a: nat, q: real, n: nat, q': real, n': nat)
    requires CellAgrees(q, n, log, c, a)
    requires u.context == c && u.action == a ==> q' == IncrementalStep(q, u.reward, n) && n' == n + 1
    requires u.context != c || u.action != a ==> q' == q && n' == n
    ensures CellAgrees(q', n', log + [u], c, a)
  {
    var cell := CellRewards(log, c, a);
    CellRewardsAppend(log, u, c, a);
    if u.context == c && u.action == a {
      var cell' := cell + [u.reward];
      assert CellRewards(log + [u], c, a) == cell';
      assert cell'[..|cell|] == cell;
      assert RunningMean(cell') == IncrementalStep(RunningMean(cell), u.reward, |cell|);
    } else {
      assert CellRewards(log + [u], c, a) == cell + [] == cell;
    }
  }

  /** The rewards of all logged updates, in order. */
  function Rewards(log: seq<Update>): (rs: seq<real>)
    ensures |rs| == |log|
  {
    if log == [] then [] else Rewards(log[..|log| - 1]) + [log[|log| - 1].reward]
  }

  /** Regret snapshots as `update_params` records them: each at least the one
      before it, the first at least 0 (the regret a policy starts from). */
  ghost predicate Accumulating(s: seq<real>)
  {
    s == [] || (Accumulating(s[..|s| - 1]) && LastOr(s[..|s| - 1]) <= s[|s| - 1])
  }

  /** The last snapshot, or the initial regret 0 when there is none. */
  function LastOr(s: seq<real>): real
  {
    if s == [] then 0.0 else s[|s| - 1]
  }

  /** Accumulating snapshots are never negative and never decrease. */
  lemma {:induction false} AccumulatingBetween(s: seq<real>, i: nat, j: nat)
    requires Accumulating(s) && i <= j < |s|
    ensures 0.0 <= s[i] <= s[j]
    decreases |s|
  {
    var init := s[..|s| - 1];
    if j < |s| - 1 {
      AccumulatingBetween(init, i, j);
    } else if i < j {
      AccumulatingBetween(init, i, j - 1);
      AccumulatingBetween(init, j - 1, j - 1);
    } else if j > 0 {
      AccumulatingBetween(init, j - 1, j - 1);
    }
  }

  /** The histories of a policy that has seen the updates in `log`: one reward
      and one regret snapshot per update, and the current regret the last
      snapshot (0 before any update). */
  ghost predicate HistoriesAgree(rewards: seq<real>, regrets: seq<real>, regret: real, log: seq<Update>)
  {
    rewards == Rewards(log) && |regrets| == |log| && Accumulating(regrets) && regret == LastOr(regrets)
  }

  /** An update that adds a non-negative gap to the regret keeps the histories in step. */
  lemma HistoryStep(rewards: seq<real>, regrets: seq<real>, regret: real, log: seq<Update>, u: Update, gap: real)
    requires HistoriesAgree(rewards, regrets, regret, log)
    requires 0.0 <= gap
    ensures HistoriesAgree(rewards + [u.reward], regrets + [regret + gap], regret + gap, log + [u])
  {
    assert (log + [u])[..|log|] == log;
    assert (regrets + [regret + gap])[..|regrets|] == regrets;
  }

  lemma CellRewardsAppend(log: seq<Update>, u: Update, c: nat, a: nat)
    ensures CellRewards(log + [u], c, a)
            == CellRewards(log, c, a) + (if u.context == c && u.action == a then [u.reward] else [])
  {
    assert (log + [u])[..|log|] == log;
  }
}

/** The contextual UCB policy: one table of running reward means and one of
    visit counts per (context, arm) cell, a cumulative regret and three
    append-only histories. */
module UcbPolicy {
  import opened BanditStats

  class UCBCBPolicy {
    const bandits: nat
    const arms: nat
    const confidence: real
    const quality: array2<real>
    const counts: array2<nat>
    var regret: real
    var actionHist: seq<(nat, nat)>
    var rewardHist: seq<real>
    var regretHist: seq<real>
    /** Every `update_params` call so far, in order. */
    ghost var updates: seq<Update>

    /** Both tables have the shape (bandits, arms) they were created with. */
    predicate Shaped()
    {
      quality.Length0 == bandits && quality.Length1 == arms &&
      counts.Length0 == bandits && counts.Length1 == arms
    }

    /** Each cell holds the count and the running mean of the rewards logged for it. */
    ghost predicate TablesAgree()
      reads this, quality, counts
      requires Shaped()
    {
      forall c, a {:trigger CellAgrees(quality[c, a], counts[c, a], updates, c, a)} ::
        0 <= c < bandits && 0 <= a < arms ==> CellAgrees(quality[c, a], counts[c, a], updates, c, a)
    }

    ghost predicate Valid()
      reads this, quality, counts
    {
      Shaped() &&
      TablesAgree() &&
      HistoriesAgree(rewardHist, regretHist, regret, updates)
    }

    /** Both tables start as zeros of shape (bandits, arms); no history, no regret. */
    constructor (bandits: nat, arms: nat, confidence: real := 1.0)
      ensures Valid() && fresh(quality) && fresh(counts)
      ensures this.bandits == bandits && this.arms == arms && this.confidence == confidence
      ensures forall c, a :: 0 <= c < bandits && 0 <= a < arms ==> quality[c, a] == 0.0 && counts[c, a] == 0
      ensures regret == 0.0
      ensures actionHist == [] && rewardHist == [] && regretHist == [] && updates == []
    {
      this.bandits := bandits;
      this.arms := arms;
      this.confidence := confidence;
      quality := new real[bandits, arms]((c, a) => 0.0);
      counts := new nat[bandits, arms]((c, a) => 0);
      regret := 0.0;
      actionHist := [];
      rewardHist := [];
      regretHist := [];
      updates := [];
    }

    /** Row `context` of the quality table. */
    function QualityRow(context: nat): (row: seq<real>)
      reads quality
      requires context < quality.Length0
      ensures |row| == quality.Length1
      ensures forall a :: 0 <= a < |row| ==> row[a] == quality[context, a]
    {
      seq(quality.Length1, a requires 0 <= a < quality.Length1 reads quality => quality[context, a])
    }

    /** The UCB score of arm `a`: its running mean plus `confidence` times the
        exploration bonus, which depends on the step and the arm's visit count. */
    function Score(context: nat, a: nat, t: nat, bonus: (nat, nat) -> real): (s: real)
      reads quality, counts
      requires Shaped() && context < bandits && a < arms
      ensures confidence == 0.0 ==> s == quality[context, a]
      ensures 0.0 <= confidence && 0.0 <= bonus(t, counts[context, a]) ==> quality[context, a] <= s
    {
      quality[context, a] + confidence * bonus(t, counts[context, a])
    }

    function Scores(context: nat, t: nat, bonus: (nat, nat) -> real): (s: seq<real>)
      reads quality, counts
      requires Shaped() && context < bandits
      ensures |s| == arms
      ensures forall a :: 0 <= a < arms ==> s[a] == Score(context, a, t, bonus)
    {
      seq(arms, a requires 0 <= a < arms reads quality, counts => Score(context, a, t, bonus))
    }

    /** An arm that is estimated at least as good and was tried at most as
        often scores at least as high, for any confidence that is not negative
        and any bonus that does not grow with the visit count (as the
        square-root bonus of `select_action` does not). */
    lemma ScoreFavoursLessTried(context: nat, a: nat, b: nat, t: nat, bonus: (nat, nat) -> real)
      requires Shaped() && context < bandits && a < arms && b < arms
      requires 0.0 <= confidence
      requires forall n: nat, m: nat :: n <= m ==> bonus(t, m) <= bonus(t, n)
      requires quality[context, b] <= quality[context, a] && counts[context, a] <= counts[context, b]
      ensures Score(context, b, t, bonus) <= Score(context, a, t, bonus)
    {
      var d := bonus(t, counts[context, a]) - bonus(t, counts[context, b]);
      assert 0.0 <= d;
      assert 0.0 <= confidence * d;
      assert confidence * bonus(t, counts[context, b]) + confidence * d
             == confidence * bonus(t, counts[context, a]);
    }

    /** `select_action`: the first arm of the highest score; logs (context, arm). */
    method SelectAction(context: nat, t: nat, bonus: (nat, nat) -> real) returns (action: nat)
      requires Valid() && context < bandits && arms > 0
      modifies this
      ensures Valid()
      ensures action < arms
      ensures forall a :: 0 <= a < arms ==> Score(context, a, t, bonus) <= Score(context, action, t, bonus)
      ensures forall a :: 0 <= a < action ==> Score(context, a, t, bonus) < Score(context, action, t, bonus)
      ensures actionHist == old(actionHist) + [(context, action)]
      ensures regret == old(regret) && rewardHist == old(rewardHist) && regretHist == old(regretHist)
      ensures updates == old(updates) && unchanged(quality, counts)
    {
      var scores := Scores(context, t, bonus);
      action := ArgMax(scores);
      actionHist := actionHist + [(context, action)];
    }

    /** Each estimate is the plain mean of the rewards logged for its cell, and
        each count the number of those rewards. */
    lemma QualityIsMean(c: nat, a: nat)
      requires Valid() && c < bandits && a < arms
      ensures counts[c, a] == |CellRewards(updates, c, a)|
      ensures quality[c, a] == Mean(CellRewards(updates, c, a))
    {
      assert CellAgrees(quality[c, a], counts[c, a], updates, c, a);
      RunningMeanIsMean(CellRewards(updates, c, a));
    }

    /** The recorded regret never decreases and never drops below 0, and the
        current regret is the last record. */
    lemma RegretHistoryMonotone(i: nat, j: nat)
      requires Valid() && i <= j < |regretHist|
      ensures 0.0 <= regretHist[i] <= regretHist[j] <= regret
    {
      AccumulatingBetween(regretHist, i, j);
      AccumulatingBetween(regretHist, j, |regretHist| - 1);
    }

    /** The regret of one pull: the best estimate in the row minus the pulled arm's. */
    method RegretIncrement(context: nat, action: nat) returns (gap: real)
      requires Shaped() && context < bandits && action < arms
      ensures 0.0 <= gap
      ensures exists j :: 0 <= j < arms && gap == quality[context, j] - quality[context, action]
      ensures forall j :: 0 <= j < arms ==> quality[context, j] - quality[context, action] <= gap
    {
      var row := QualityRow(context);
      gap := RegretGap(row, action);
      ghost var k := ArgMax(row);
      assert gap == quality[context, k] - quality[context, action];
    }

    /** Lines 85-88 of `update_params`: the incremental-mean write to one cell
        and the visit count, keeping every cell in agreement with the log
        extended by this update. */
    method StepTables(ghost log: seq<Update>, context: nat, action: nat, reward: real)
      requires Shaped() && context < bandits && action < arms
      requires forall c, a {:trigger CellAgrees(quality[c, a], counts[c, a], log, c, a)} ::
                 0 <= c < bandits && 0 <= a < arms ==> CellAgrees(quality[c, a], counts[c, a], log, c, a)
      modifies quality, counts
      ensures forall c, a {:trigger CellAgrees(quality[c, a], counts[c, a], log + [Update(context, action, reward)], c, a)} ::
                0 <= c < bandits && 0 <= a < arms ==>
                  CellAgrees(quality[c, a], counts[c, a], log + [Update(context, action, reward)], c, a)
      ensures quality[context, action] == IncrementalStep(old(quality[context, action]), reward, old(counts[context, action]))
      ensures counts[context, action] == old(counts[context, action]) + 1
      ensures forall c, a :: 0 <= c < bandits && 0 <= a < arms && (c != context || a != action) ==>
                quality[c, a] == old(quality[c, a]) && counts[c, a] == old(counts[c, a])
    {
      var q := quality[context, action];
      var n := counts[context, action];
      quality[context, action] := IncrementalStep(q, reward, n);
      counts[context, action] := n + 1;
      forall c, a | 0 <= c < bandits && 0 <= a < arms
        ensures CellAgrees(quality[c, a], counts[c, a], log + [Update(context, action, reward)], c, a)
      {
        CellStep(log, Update(context, action, reward), c, a, old(quality[c, a]), old(counts[c, a]), quality[c, a], counts[c, a]);
      }
    }

    /** `update_params`: log the reward, add the pre-update gap between the best
        mean in the row and the chosen arm's mean to the regret, log the regret,
        move the chosen cell's mean towards the reward, and count the visit. */
    method UpdateParams(context: nat, action: nat, reward: real)
      requires Valid() && context < bandits && action < arms
      modifies this, quality, counts
      ensures Valid()
      ensures updates == old(updates) + [Update(context, action, reward)]
      ensures rewardHist == old(rewardHist) + [reward]
      ensures exists j :: 0 <= j < arms && regret == old(regret) + (old(quality[context, j]) - old(quality[context, action]))
      ensures forall j :: 0 <= j < arms ==> old(quality[context, j]) - old(quality[context, action]) <= regret - old(regret)
      ensures old(regret) <= regret
      ensures regretHist == old(regretHist) + [regret]
      ensures quality[context, action] == IncrementalStep(old(quality[context, action]), reward, old(counts[context, action]))
      ensures counts[context, action] == old(counts[context, action]) + 1
      ensures forall c, a :: 0 <= c < bandits && 0 <= a < arms && (c != context || a != action) ==>
                quality[c, a] == old(quality[c, a]) && counts[c, a] == old(counts[c, a])
      ensures actionHist == old(actionHist)
    {
      var gap := RegretIncrement(context, action);
      ghost var u := Update(context, action, reward);
      HistoryStep(rewardHist, regretHist, regret, updates, u, gap);
      rewardHist, regret, regretHist, updates :=
        rewardHist + [reward], regret + gap, regretHist + [regret + gap], updates + [u];
      StepTables(old(updates), context, action, reward);
      assert TablesAgree();
      assert HistoriesAgree(rewardHist, regretHist, regret, updates);
    }
  }

  /** Two updates on one context with two arms: the first sees no gap, the
      second a gap of 1. */
  method TwoArmScenario()
  {
    var p := new UCBCBPolicy(1, 2, 1.0);
    p.UpdateParams(0, 0, 1.0);
    assert p.regret == 0.0;
    p.UpdateParams(0, 1, 0.0);
    assert p.quality[0, 0] == 1.0 && p.quality[0, 1] == 0.0;
    assert p.counts[0, 0] == 1 && p.counts[0, 1] == 1;
    assert p.regret == 1.0;
    assert p.regretHist == [0.0, 1.0] && p.rewardHist == [1.0, 0.0];
  }
}
