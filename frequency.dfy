/**
 * `WinFrequencyAnalyzer.analyzeWinFrequency`: run a number of simulated spins
 * and track the current and longest streaks of wins and of losses, the list of
 * streaks that have ended, their averages and their distributions.
 *
 * The analyser object only holds a reference to the probability system, whose
 * single-spin simulation reads no state, so the operation is a module-level
 * method over the random draws of the spins. The reference definitions are
 * functions over the sequence `h` of per-spin outcomes (true for a win).
 */
module WinFrequency {
  import opened Probability
  import opened Numbers

  /** The outcome of each simulated spin, in order. */
  function Hits(draws: seq<seq<real>>): (h: seq<bool>)
    requires SpinDraws(draws)
    ensures |h| == |draws|
  {
    if draws == [] then []
    else Hits(draws[..|draws| - 1]) + [OutcomeOf(draws[|draws| - 1]).hasWin]
  }

  /** The length of the run of `b` that ends `h`. */
  function Streak(h: seq<bool>, b: bool): (n: nat)
    ensures n <= |h|
  {
    if h == [] || h[|h| - 1] != b then 0 else Streak(h[..|h| - 1], b) + 1
  }

  /** The longest streak so far: the largest `Streak` of any prefix. */
  function MaxStreak(h: seq<bool>, b: bool): nat {
    if h == [] then 0 else Max(MaxStreak(h[..|h| - 1], b), Streak(h, b))
  }

  /** The streaks of `b` that have ended, in the order they ended; a trailing one is not included. */
  function Closed(h: seq<bool>, b: bool): seq<nat> {
    if h == [] then []
    else
      var init := h[..|h| - 1];
      if h[|h| - 1] == b || Streak(init, b) == 0 then Closed(init, b)
      else Closed(init, b) + [Streak(init, b)]
  }

  function Count(h: seq<bool>, b: bool): nat {
    if h == [] then 0 else Count(h[..|h| - 1], b) + (if h[|h| - 1] == b then 1 else 0)
  }

  function Sum(s: seq<nat>): nat {
    if s == [] then 0 else Sum(s[..|s| - 1]) + s[|s| - 1]
  }

  /** The mean streak; 0 when no streak has ended. */
  function Average(s: seq<nat>): real {
    if |s| > 0 then (Sum(s) as real) / (|s| as real) else 0.0
  }

  /** How many times each length occurs. */
  function Counts(s: seq<nat>): map<nat, nat> {
    if s == [] then map[]
    else
      var c := Counts(s[..|s| - 1]);
      var x := s[|s| - 1];
      c[x := (if x in c then c[x] else 0) + 1]
  }

  /** `calculateDistribution`: each length's share of the streaks, in percent. */
  function Distribution(s: seq<nat>): map<nat, real> {
    var c := Counts(s);
    map k | k in c :: (c[k] as real / |s| as real) * 100.0
  }

  /** What `analyzeWinFrequency` returns. */
  datatype FrequencyReport = FrequencyReport(
    maxConsecutiveWins: nat,
    maxConsecutiveLosses: nat,
    averageWinStreak: real,
    averageLossStreak: real,
    winStreakDistribution: map<nat, real>,
    lossStreakDistribution: map<nat, real>)

  function Report(h: seq<bool>): FrequencyReport {
    FrequencyReport(MaxStreak(h, true), MaxStreak(h, false),
                    Average(Closed(h, true)), Average(Closed(h, false)),
                    Distribution(Closed(h, true)), Distribution(Closed(h, false)))
  }

  /** The eight counters `analyzeWinFrequency` keeps while it spins. */
  datatype Tracker = Tracker(
    consecutiveWins: nat,
    maxConsecutiveWins: nat,
    consecutiveLosses: nat,
    maxConsecutiveLosses: nat,
    winStreaks: seq<nat>,
    lossStreaks: seq<nat>,
    currentWinStreak: nat,
    currentLossStreak: nat)

  /** The counters agree with the outcomes `h` seen so far. */
  ghost predicate Tracks(t: Tracker, h: seq<bool>) {
    t.consecutiveWins == t.currentWinStreak == Streak(h, true) &&
    t.consecutiveLosses == t.currentLossStreak == Streak(h, false) &&
    t.maxConsecutiveWins == MaxStreak(h, true) && t.maxConsecutiveLosses == MaxStreak(h, false) &&
    t.winStreaks == Closed(h, true) && t.lossStreaks == Closed(h, false)
  }

  /** `analyzeWinFrequency` over the draws of `|draws|` spins. */
  method AnalyzeWinFrequency(draws: seq<seq<real>>) returns (r: FrequencyReport)
    requires SpinDraws(draws)
    ensures r == Report(Hits(draws))
  {
    var t := Tracker(0, 0, 0, 0, [], [], 0, 0);
    var i := 0;
    while i < |draws|
      invariant 0 <= i <= |draws| && SpinDraws(draws[..i])
      invariant Tracks(t, Hits(draws[..i]))
    {
      var result := SimulateSingleSpin(draws[i]);
      HitsStep(draws, i);
      t := RecordSpin(t, result.hasWin, Hits(draws[..i]));
      i := i + 1;
    }
    assert draws[..i] == draws;
    var winDistribution := CalculateDistribution(t.winStreaks);
    var lossDistribution := CalculateDistribution(t.lossStreaks);
    r := FrequencyReport(t.maxConsecutiveWins, t.maxConsecutiveLosses,
                         Average(t.winStreaks), Average(t.lossStreaks), winDistribution, lossDistribution);
  }

  /** The body of the spin loop: extend one streak, close the other. */
  method RecordSpin(t: Tracker, hasWin: bool, ghost h: seq<bool>) returns (t': Tracker)
    requires Tracks(t, h)
    ensures Tracks(t', h + [hasWin])
  {
    SpinStep(h, hasWin);
    var consecutiveWins, maxConsecutiveWins := t.consecutiveWins, t.maxConsecutiveWins;
    var consecutiveLosses, maxConsecutiveLosses := t.consecutiveLosses, t.maxConsecutiveLosses;
    var winStreaks, lossStreaks := t.winStreaks, t.lossStreaks;
    var currentWinStreak, currentLossStreak := t.currentWinStreak, t.currentLossStreak;
    if hasWin {
      consecutiveWins := consecutiveWins + 1;
      maxConsecutiveWins := Max(maxConsecutiveWins, consecutiveWins);
      if currentLossStreak > 0 {
        lossStreaks := lossStreaks + [currentLossStreak];
        currentLossStreak := 0;
      }
      currentWinStreak := currentWinStreak + 1;
      consecutiveLosses := 0;
    } else {
      consecutiveLosses := consecutiveLosses + 1;
      maxConsecutiveLosses := Max(maxConsecutiveLosses, consecutiveLosses);
      if currentWinStreak > 0 {
        winStreaks := winStreaks + [currentWinStreak];
        currentWinStreak := 0;
      }
      currentLossStreak := currentLossStreak + 1;
      consecutiveWins := 0;
    }
    t' := Tracker(consecutiveWins, maxConsecutiveWins, consecutiveLosses, maxConsecutiveLosses,
                  winStreaks, lossStreaks, currentWinStreak, currentLossStreak);
  }

  /** `calculateDistribution`: count each length, then turn the counts into percentages. */
  method CalculateDistribution(streaks: seq<nat>) returns (distribution: map<nat, real>)
    ensures distribution == Distribution(streaks)
  {
    var counts: map<nat, nat> := map[];
    var i := 0;
    while i < |streaks|
      invariant 0 <= i <= |streaks|
      invariant counts == Counts(streaks[..i])
    {
      assert streaks[..i + 1][..i] == streaks[..i];
      var streak := streaks[i];
      counts := counts[streak := (if streak in counts then counts[streak] else 0) + 1];
      i := i + 1;
    }
    assert streaks[..i] == streaks;
    var total := |streaks|;
    distribution := map k | k in counts :: (counts[k] as real / total as real) * 100.0;
  }

  /** One more spin: how the streaks, the maxima and the ended streaks move. */
  lemma SpinStep(h: seq<bool>, x: bool)
    ensures Streak(h + [x], x) == Streak(h, x) + 1 && Streak(h + [x], !x) == 0
    ensures MaxStreak(h + [x], x) == Max(MaxStreak(h, x), Streak(h, x) + 1)
    ensures MaxStreak(h + [x], !x) == MaxStreak(h, !x)
    ensures Closed(h + [x], x) == Closed(h, x)
    ensures Closed(h + [x], !x) == if Streak(h, !x) > 0 then Closed(h, !x) + [Streak(h, !x)] else Closed(h, !x)
  {
    assert (h + [x])[..|h|] == h;
  }

  lemma HitsStep(draws: seq<seq<real>>, i: nat)
    requires SpinDraws(draws) && i < |draws|
    ensures SpinDraws(draws[..i]) && SpinDraws(draws[..i + 1])
    ensures Hits(draws[..i + 1]) == Hits(draws[..i]) + [OutcomeOf(draws[i]).hasWin]
  {
    assert draws[..i + 1][..i] == draws[..i];
  }

  // ---------------------------------------------------------------------
  // Properties
  // ---------------------------------------------------------------------

  /** The trailing run: its last `Streak` entries are `b`, and the entry before them is not. */
  lemma {:induction false} StreakIsTrailingRun(h: seq<bool>, b: bool)
    ensures forall m :: |h| - Streak(h, b) <= m < |h| ==> h[m] == b
    ensures Streak(h, b) < |h| ==> h[|h| - Streak(h, b) - 1] != b
  {
    if h != [] && h[|h| - 1] == b {
      var init := h[..|h| - 1];
      StreakIsTrailingRun(init, b);
      assert forall m :: 0 <= m < |init| ==> init[m] == h[m];
    }
  }

  /** A window of `b`s ending at `e` is no longer than the streak of the prefix ending there. */
  lemma {:induction false} WindowWithinStreak(h: seq<bool>, b: bool, a: nat, e: nat)
    requires a <= e <= |h|
    requires forall m :: a <= m < e ==> h[m] == b
    ensures e - a <= Streak(h[..e], b)
    decreases e - a
  {
    if a < e {
      WindowWithinStreak(h, b, a, e - 1);
      assert h[..e][..e - 1] == h[..e - 1];
    }
  }

  lemma {:induction false} PrefixStreakBounded(h: seq<bool>, b: bool, e: nat)
    requires e <= |h|
    ensures Streak(h[..e], b) <= MaxStreak(h, b)
  {
    if e == |h| {
      assert h[..e] == h;
    } else {
      var init := h[..|h| - 1];
      assert init[..e] == h[..e];
      PrefixStreakBounded(init, b, e);
    }
  }

  /** `n` entries from offset `a` on are all `b`. */
  ghost predicate Block(h: seq<bool>, b: bool, a: int, n: int) {
    0 <= a && 0 <= n && a + n <= |h| && forall m :: a <= m < a + n ==> h[m] == b
  }

  /**
   * `maxConsecutiveWins` and `maxConsecutiveLosses` are the longest runs: no
   * run of `b` is longer, and one run is that long.
   */
  lemma {:induction false} MaxStreakIsLongest(h: seq<bool>, b: bool)
    ensures forall a, n :: Block(h, b, a, n) ==> n <= MaxStreak(h, b)
    ensures exists a :: Block(h, b, a, MaxStreak(h, b))
  {
    forall a, n | Block(h, b, a, n)
      ensures n <= MaxStreak(h, b)
    {
      WindowWithinStreak(h, b, a, a + n);
      PrefixStreakBounded(h, b, a + n);
    }
    if h == [] {
      assert Block(h, b, 0, 0);
    } else {
      var init := h[..|h| - 1];
      if MaxStreak(init, b) >= Streak(h, b) {
        MaxStreakIsLongest(init, b);
        var a :| Block(init, b, a, MaxStreak(init, b));
        assert MaxStreak(h, b) == MaxStreak(init, b);
        assert forall m :: a <= m < a + MaxStreak(h, b) ==> h[m] == init[m];
        assert Block(h, b, a, MaxStreak(h, b));
      } else {
        StreakIsTrailingRun(h, b);
        assert Block(h, b, |h| - Streak(h, b), MaxStreak(h, b));
      }
    }
  }

  lemma SumSnoc(s: seq<nat>, x: nat)
    ensures Sum(s + [x]) == Sum(s) + x
  {
    assert (s + [x])[..|s|] == s;
  }

  /**
   * Every spin of outcome `b` is in exactly one place: an ended streak or the
   * trailing one, which is never pushed; each ended streak is positive and no
   * longer than the longest streak.
   */
  lemma ClosedAccount(h: seq<bool>, b: bool)
    ensures Sum(Closed(h, b)) + Streak(h, b) == Count(h, b)
    ensures forall j :: 0 <= j < |Closed(h, b)| ==> 0 < Closed(h, b)[j] <= MaxStreak(h, b)
  {
    ClosedSum(h, b);
    ClosedBounded(h, b);
  }

  lemma {:induction false} ClosedSum(h: seq<bool>, b: bool)
    ensures Sum(Closed(h, b)) + Streak(h, b) == Count(h, b)
  {
    if h != [] {
      var init := h[..|h| - 1];
      ClosedSum(init, b);
      if h[|h| - 1] != b && Streak(init, b) > 0 {
        SumSnoc(Closed(init, b), Streak(init, b));
      }
    }
  }

  lemma {:induction false} ClosedBounded(h: seq<bool>, b: bool)
    ensures forall j :: 0 <= j < |Closed(h, b)| ==> 0 < Closed(h, b)[j] <= MaxStreak(h, b)
  {
    if h != [] {
      var init := h[..|h| - 1];
      ClosedBounded(init, b);
      assert MaxStreak(init, b) <= MaxStreak(h, b);
      if h[|h| - 1] != b && Streak(init, b) > 0 {
        assert Streak(init, b) <= MaxStreak(init, b);
      }
    }
  }

  /** A spin is either a win or a loss, so one of the two current streaks is always 0. */
  lemma OneStreakRunning(h: seq<bool>)
    ensures Streak(h, true) == 0 || Streak(h, false) == 0
    ensures h != [] ==> Streak(h, true) > 0 || Streak(h, false) > 0
  {
  }

  /** The counts are the multiplicities of the lengths. */
  lemma {:induction false} CountsAreMultiplicities(s: seq<nat>)
    ensures forall k :: k in Counts(s) <==> k in s
    ensures forall k :: k in Counts(s) ==> Counts(s)[k] == multiset(s)[k]
  {
    if s != [] {
      var init := s[..|s| - 1];
      CountsAreMultiplicities(init);
      assert s == init + [s[|s| - 1]];
      assert multiset(s) == multiset(init) + multiset{s[|s| - 1]};
    }
  }

  /**
   * The distribution has a key for exactly the lengths that occurred, and each
   * value is that length's share of all ended streaks, in percent.
   */
  lemma DistributionSound(s: seq<nat>)
    ensures forall k :: k in Distribution(s) <==> k in s
    ensures forall k :: k in Distribution(s) ==> Distribution(s)[k] == (multiset(s)[k] as real / |s| as real) * 100.0
  {
    CountsAreMultiplicities(s);
  }

  /** The averages are the mean ended streak, and lie between 1 and the longest streak. */
  lemma AverageBounds(h: seq<bool>, b: bool)
    ensures |Closed(h, b)| > 0 ==> 1.0 <= Average(Closed(h, b)) <= MaxStreak(h, b) as real
    ensures |Closed(h, b)| == 0 ==> Average(Closed(h, b)) == 0.0
  {
    var s := Closed(h, b);
    ClosedAccount(h, b);
    if |s| > 0 {
      SumBounds(s, MaxStreak(h, b));
      DivideBounds(Sum(s), |s|, MaxStreak(h, b));
    }
  }

  lemma {:induction false} SumBounds(s: seq<nat>, hi: nat)
    requires forall j :: 0 <= j < |s| ==> 0 < s[j] <= hi
    ensures |s| <= Sum(s) <= hi * |s|
  {
    if s != [] {
      var init := s[..|s| - 1];
      assert forall j :: 0 <= j < |init| ==> init[j] == s[j];
      SumBounds(init, hi);
    }
  }

  lemma DivideBounds(total: nat, n: nat, hi: nat)
    requires 0 < n && n <= total <= hi * n
    ensures 1.0 <= (total as real) / (n as real) <= hi as real
  {
    var q := (total as real) / (n as real);
    var N := n as real;
    assert q * N == total as real;
    assert (hi * n) as real == (hi as real) * N;
    assert (q - 1.0) * N == total as real - N;
    NonNegativeFactor(q - 1.0, N);
    assert ((hi as real) - q) * N == (hi * n) as real - total as real;
    NonNegativeFactor((hi as real) - q, N);
  }

  lemma NonNegativeFactor(x: real, y: real)
    requires 0.0 < y && 0.0 <= x * y
    ensures 0.0 <= x
  {
  }
}
