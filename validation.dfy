/**
 * The acceptance rules for candidate games: the generator's validator with
 * optional bounds, the "automatic" parity and prime profile of the older
 * validator and of the monolithic version, and the simulation's smart and
 * manual acceptance rules together with the manual start check.
 */
module Validation {
  import opened GameStats
  import opened Seqs
  import opened Wrappers

  /** A bound typed into a form: '' (Unset) or a number. */
  datatype Bound = Unset | At(v: int)

  /** x < bound with '' read as 0, as JavaScript compares a number with ''. */
  function AsNumber(b: Bound): int
  {
    if b.Unset? then 0 else b.v
  }

  /** config.minSum is truthy: neither '' nor 0. */
  predicate Truthy(b: Bound)
  {
    b.At? && b.v != 0
  }

  /** An optional inclusive lower bound: '' imposes nothing. */
  predicate AtLeast(x: int, lo: Bound)
  {
    lo.Unset? || x >= lo.v
  }

  /** An optional inclusive upper bound: '' imposes nothing. */
  predicate AtMost(x: int, hi: Bound)
  {
    hi.Unset? || x <= hi.v
  }

  datatype BoundsConfig = BoundsConfig(
    minSum: Bound, maxSum: Bound,
    evenMin: Bound, evenMax: Bound,
    primeMin: Bound, primeMax: Bound)

  /** The default form of the generator and the simulation: sum in [140, 260], no other bound. */
  const DefaultBounds := BoundsConfig(At(140), At(260), Unset, Unset, Unset, Unset)

  /** The sum bounds of the generator hold, or are switched off by a falsy minSum. */
  predicate GenSumOk(sum: int, cfg: BoundsConfig)
  {
    !Truthy(cfg.minSum) || (AsNumber(cfg.minSum) <= sum <= AsNumber(cfg.maxSum))
  }

  predicate CountBoundsOk(st: Stats, cfg: BoundsConfig)
  {
    AtLeast(st.even, cfg.evenMin) && AtMost(st.even, cfg.evenMax) &&
    AtLeast(st.primes, cfg.primeMin) && AtMost(st.primes, cfg.primeMax)
  }

  /**
   * isValidGame of the generator: the checks in the order of the source,
   * each returning false on failure; success carries the game's statistics.
   */
  function IsValidGame(nums: seq<int>, cfg: BoundsConfig, primeList: seq<int>): (r: Option<Stats>)
    ensures r.Some? <==> GenSumOk(Sum(nums), cfg) && CountBoundsOk(AnalyzeGame(nums, primeList), cfg)
    ensures r.Some? ==> r.value == AnalyzeGame(nums, primeList)
  {
    var st := AnalyzeGame(nums, primeList);
    if Truthy(cfg.minSum) && (st.sum < AsNumber(cfg.minSum) || st.sum > AsNumber(cfg.maxSum)) then None
    else if cfg.evenMin != Unset && st.even < cfg.evenMin.v then None
    else if cfg.evenMax != Unset && st.even > cfg.evenMax.v then None
    else if cfg.primeMin != Unset && st.primes < cfg.primeMin.v then None
    else if cfg.primeMax != Unset && st.primes > cfg.primeMax.v then None
    else Some(st)
  }

  /** A minSum of 0 or '' switches the whole sum check off, maxSum included. */
  lemma FalsyMinSumIgnoresSum(nums: seq<int>, cfg: BoundsConfig, maxSum: Bound, primeList: seq<int>)
    requires !Truthy(cfg.minSum)
    ensures IsValidGame(nums, cfg, primeList).Some? <==> CountBoundsOk(AnalyzeGame(nums, primeList), cfg)
    ensures IsValidGame(nums, cfg, primeList) == IsValidGame(nums, cfg.(maxSum := maxSum), primeList)
  {
  }

  /** With every field empty, every game is accepted. */
  lemma EmptyFormAcceptsAll(nums: seq<int>, primeList: seq<int>)
    ensures IsValidGame(nums, BoundsConfig(Unset, Unset, Unset, Unset, Unset, Unset), primeList)
      == Some(AnalyzeGame(nums, primeList))
  {
  }

  // ---------------------------------------------------------------------------
  // The "automatic" profile

  /** A count setting: 'any' or an exact number. */
  datatype CountSetting = Any | Exactly(c: int)

  datatype ProfileConfig = ProfileConfig(minSum: Bound, maxSum: Bound, evenCount: CountSetting, primeCount: CountSetting)

  /** Math.ceil(k / 1.5), in integers. */
  function PrimeCap(k: nat): nat
  {
    (2 * k + 2) / 3
  }

  /** PrimeCap(k) is the least integer c with 1.5 * c >= k. */
  lemma PrimeCapIsCeiling(k: nat)
    ensures 3 * PrimeCap(k) >= 2 * k
    ensures PrimeCap(k) == 0 || 3 * (PrimeCap(k) - 1) < 2 * k
    ensures PrimeCap(5) == 4
  {
  }

  predicate EvenOk(even: int, s: CountSetting, k: nat)
  {
    match s
    case Any => even != 0 && even != k
    case Exactly(c) => even == c
  }

  predicate PrimesOk(primes: int, s: CountSetting, cap: int)
  {
    match s
    case Any => primes <= cap
    case Exactly(c) => primes == c
  }

  /** isValidGame of the older validator: a gated sum check, then parity, then primes. */
  function IsValidProfile(nums: seq<int>, cfg: ProfileConfig, k: nat, primeList: seq<int>): (r: Option<Stats>)
    ensures r.Some? <==>
      var st := AnalyzeGame(nums, primeList);
      (!Truthy(cfg.minSum) || AsNumber(cfg.minSum) <= st.sum <= AsNumber(cfg.maxSum)) &&
      EvenOk(st.even, cfg.evenCount, k) && PrimesOk(st.primes, cfg.primeCount, PrimeCap(k))
    ensures r.Some? ==> r.value == AnalyzeGame(nums, primeList)
  {
    var st := AnalyzeGame(nums, primeList);
    if Truthy(cfg.minSum) && (st.sum < AsNumber(cfg.minSum) || st.sum > AsNumber(cfg.maxSum)) then None
    else if cfg.evenCount.Exactly? && st.even != cfg.evenCount.c then None
    else if cfg.evenCount.Any? && (st.even == 0 || st.even == k) then None
    else if cfg.primeCount.Exactly? && st.primes != cfg.primeCount.c then None
    else if cfg.primeCount.Any? && st.primes > PrimeCap(k) then None
    else Some(st)
  }

  /**
   * The monolithic generator's checks for the Quina: the sum bounds always
   * apply, 'any' evens means 1 to 4 and 'any' primes means at most 3.
   */
  predicate MonolithAccepts(st: Stats, cfg: ProfileConfig)
  {
    !(st.sum < AsNumber(cfg.minSum) || st.sum > AsNumber(cfg.maxSum)) &&
    (if cfg.evenCount.Exactly? then st.even == cfg.evenCount.c else !(st.even == 0 || st.even == 5)) &&
    (if cfg.primeCount.Exactly? then st.primes == cfg.primeCount.c else !(st.primes > 3))
  }

  /** Under 'any', the monolith accepts exactly the stated ranges. */
  lemma MonolithRanges(game: seq<int>, cfg: ProfileConfig, primeList: seq<int>)
    requires |game| == 5 && cfg.evenCount == Any && cfg.primeCount == Any
    ensures var st := AnalyzeGame(game, primeList);
      MonolithAccepts(st, cfg) <==>
      AsNumber(cfg.minSum) <= st.sum <= AsNumber(cfg.maxSum) && 1 <= st.even <= 4 && st.primes <= 3
  {
  }

  /**
   * The two automatic profiles differ: with k = 5 the older validator allows
   * four primes where the monolith allows three ([2, 3, 5, 7, 10] against
   * the primes up to 80).
   */
  lemma ProfilesDiffer(primeList: seq<int>)
    requires 2 in primeList && 3 in primeList && 5 in primeList && 7 in primeList && 10 !in primeList
    ensures var game := [2, 3, 5, 7, 10];
      var cfg := ProfileConfig(At(0), At(0), Any, Any);
      IsValidProfile(game, cfg, 5, primeList).Some? &&
      !MonolithAccepts(AnalyzeGame(game, primeList), cfg.(minSum := Unset, maxSum := At(260)))
  {
    var game := [2, 3, 5, 7, 10];
    assert game[1..] == [3, 5, 7, 10] && game[2..] == [5, 7, 10] && game[3..] == [7, 10] && game[4..] == [10];
    assert CountIf(game, InList(primeList)) == 4;
    assert AnalyzeGame(game, primeList) == Stats(27, 2, 4);
  }

  // ---------------------------------------------------------------------------
  // The simulation's acceptance rules

  /** Smart mode: the candidate's sum, even count and prime count all equal the target's. */
  predicate SmartAccepts(candidate: seq<int>, target: Stats, primeList: seq<int>)
  {
    AnalyzeGame(candidate, primeList) == target
  }

  /**
   * Manual mode: the sum within [minSum, maxSum] (an empty field read as 0),
   * and every non-empty even and prime bound, inclusively.
   */
  function ManualAccepts(st: Stats, cfg: BoundsConfig): (ok: bool)
    ensures ok <==> AsNumber(cfg.minSum) <= st.sum <= AsNumber(cfg.maxSum) && CountBoundsOk(st, cfg)
  {
    var isValid := !(st.sum < AsNumber(cfg.minSum) || st.sum > AsNumber(cfg.maxSum));
    var isValid := isValid && !(cfg.evenMin != Unset && st.even < cfg.evenMin.v);
    var isValid := isValid && !(cfg.evenMax != Unset && st.even > cfg.evenMax.v);
    var isValid := isValid && !(cfg.primeMin != Unset && st.primes < cfg.primeMin.v);
    var isValid := isValid && !(cfg.primeMax != Unset && st.primes > cfg.primeMax.v);
    isValid
  }

  /** The reasons startSim refuses to start in manual mode. */
  datatype StartError = SumOutOfRange | EvenBelowMin | EvenAboveMax | PrimesBelowMin | PrimesAboveMax

  /** The manual-mode start check on the target's statistics: the first violated rule, if any. */
  function StartCheck(target: Stats, cfg: BoundsConfig): (err: Option<StartError>)
    ensures err.None? <==> ManualAccepts(target, cfg)
    ensures err == Some(SumOutOfRange) <==> !(AsNumber(cfg.minSum) <= target.sum <= AsNumber(cfg.maxSum))
  {
    if target.sum < AsNumber(cfg.minSum) || target.sum > AsNumber(cfg.maxSum) then Some(SumOutOfRange)
    else if cfg.evenMin != Unset && target.even < cfg.evenMin.v then Some(EvenBelowMin)
    else if cfg.evenMax != Unset && target.even > cfg.evenMax.v then Some(EvenAboveMax)
    else if cfg.primeMin != Unset && target.primes < cfg.primeMin.v then Some(PrimesBelowMin)
    else if cfg.primeMax != Unset && target.primes > cfg.primeMax.v then Some(PrimesAboveMax)
    else None
  }
}
