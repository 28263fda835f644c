/**
 * The deduplicating search of the simulation, as functions of the state it
 * changes: the set of visited indices, the attempt counter, the safety
 * counter, the last shown candidate and whether the target was found.
 *
 * Scan follows the time-sliced loop (one candidate per iteration, a safety
 * counter that stops the slice after more than 5000 consecutive skips or
 * rejections, the shown candidate refreshed every 20 attempts). BatchScan
 * follows the fixed-batch loop of the older versions (5000 candidates in
 * random mode, 2000 otherwise, the shown candidate refreshed every 500
 * iterations, only smart mode filtering).
 */
module Search {
  import opened Combinatorics
  import opened GameStats
  import opened Validation
  import Core
  import Text

  datatype Mode = Smart | Random | Manual

  /** What a run reads and never changes: the shape, the mode, the target and the form. */
  datatype SimContext = SimContext(
    n: nat, k: nat, mode: Mode,
    target: Stats, targetNumbers: seq<string>,
    cfg: BoundsConfig, primeList: seq<int>)

  datatype ScanState = ScanState(marked: set<int>, attempts: nat, safety: nat, bestTry: seq<string>, found: bool)

  const SafetyLimit := 5000
  const BestTryEvery := 20
  const BatchBestTryEvery := 500

  /** The candidates the oracle may supply: ascending games of the shape. */
  predicate AllGames(cands: seq<seq<int>>, n: nat, k: nat)
  {
    forall i :: 0 <= i < |cands| ==> IsGame(cands[i], n, k)
  }

  /** The candidate as the table shows it: each number with two digits. */
  function Formatted(c: seq<int>): (f: seq<string>)
    requires Positive(c)
    ensures |f| == |c|
  {
    Core.PadAll(c)
  }

  /** The acceptance rule of the mode: smart and manual filter, random takes everything. */
  predicate Accepted(ctx: SimContext, c: seq<int>)
  {
    match ctx.mode
    case Smart => SmartAccepts(c, ctx.target, ctx.primeList)
    case Manual => ManualAccepts(AnalyzeGame(c, ctx.primeList), ctx.cfg)
    case Random => true
  }

  predicate Stopped(s: ScanState)
  {
    s.found || s.safety > SafetyLimit
  }

  /** One iteration of the time-sliced loop on candidate c. */
  function Step(ctx: SimContext, s: ScanState, c: seq<int>): (t: ScanState)
    requires IsGame(c, ctx.n, ctx.k)
    ensures t.marked == s.marked + {Rank(c)}
    ensures Rank(c) in s.marked ==> t == s.(safety := s.safety + 1)
    ensures Rank(c) !in s.marked ==> t.attempts == s.attempts + 1
    ensures t.found <==> s.found || (Rank(c) !in s.marked && Accepted(ctx, c) && Formatted(c) == ctx.targetNumbers)
  {
    var idx := Rank(c);
    if idx in s.marked then s.(safety := s.safety + 1)
    else
      var s1 := s.(marked := s.marked + {idx}, attempts := s.attempts + 1);
      if !Accepted(ctx, c) then s1.(safety := s1.safety + 1)
      else
        var formatted := Formatted(c);
        var s2 := s1.(safety := 0, bestTry := if s1.attempts % BestTryEvery == 0 then formatted else s1.bestTry);
        if formatted == ctx.targetNumbers then s2.(bestTry := formatted, found := true) else s2
  }

  /** The time-sliced loop over the candidates of one slice. */
  function Scan(ctx: SimContext, s: ScanState, cands: seq<seq<int>>): ScanState
    requires AllGames(cands, ctx.n, ctx.k)
    decreases |cands|
  {
    if |cands| == 0 || Stopped(s) then s
    else Scan(ctx, Step(ctx, s, cands[0]), cands[1..])
  }

  /** Every index counts once: attempts grow by exactly the number of newly visited indices. */
  lemma {:induction false} ScanCountsNewIndices(ctx: SimContext, s: ScanState, cands: seq<seq<int>>)
    requires AllGames(cands, ctx.n, ctx.k)
    ensures var t := Scan(ctx, s, cands);
      s.marked <= t.marked && t.attempts == s.attempts + |t.marked - s.marked|
    decreases |cands|
  {
    if |cands| > 0 && !Stopped(s) {
      var s1 := Step(ctx, s, cands[0]);
      ScanCountsNewIndices(ctx, s1, cands[1..]);
      var t := Scan(ctx, s, cands);
      if Rank(cands[0]) !in s.marked {
        assert t.marked - s.marked == (t.marked - s1.marked) + {Rank(cands[0])};
      } else {
        assert t.marked - s.marked == t.marked - s1.marked;
      }
    }
  }

  /** The count of attempts stays equal to the number of visited indices. */
  lemma ScanKeepsCount(ctx: SimContext, s: ScanState, cands: seq<seq<int>>)
    requires AllGames(cands, ctx.n, ctx.k) && s.attempts == |s.marked|
    ensures var t := Scan(ctx, s, cands); t.attempts == |t.marked|
  {
    var t := Scan(ctx, s, cands);
    ScanCountsNewIndices(ctx, s, cands);
    assert t.marked == s.marked + (t.marked - s.marked);
  }

  /** Only indices of supplied games get visited, so all stay below C(n, k). */
  lemma {:induction false} ScanMarksRanks(ctx: SimContext, s: ScanState, cands: seq<seq<int>>)
    requires AllGames(cands, ctx.n, ctx.k)
    ensures forall idx :: idx in Scan(ctx, s, cands).marked ==>
      idx in s.marked || exists i :: 0 <= i < |cands| && idx == Rank(cands[i])
    decreases |cands|
  {
    if |cands| > 0 && !Stopped(s) {
      ScanMarksRanks(ctx, Step(ctx, s, cands[0]), cands[1..]);
      forall idx | idx in Scan(ctx, s, cands).marked && idx !in s.marked && idx != Rank(cands[0])
        ensures exists i :: 0 <= i < |cands| && idx == Rank(cands[i])
      {
        var i :| 0 <= i < |cands[1..]| && idx == Rank(cands[1..][i]);
        assert idx == Rank(cands[i + 1]);
      }
    }
  }

  /** Once found, nothing more happens: Found is reached at most once per run. */
  lemma ScanStopsWhenFound(ctx: SimContext, s: ScanState, cands: seq<seq<int>>)
    requires AllGames(cands, ctx.n, ctx.k) && s.found
    ensures Scan(ctx, s, cands) == s
  {
  }

  /**
   * Found means an accepted, newly visited candidate whose two-digit form is
   * the target's numbers, and then it is the candidate shown.
   */
  lemma {:induction false} ScanFoundTarget(ctx: SimContext, s: ScanState, cands: seq<seq<int>>)
    requires AllGames(cands, ctx.n, ctx.k) && !s.found
    ensures var t := Scan(ctx, s, cands);
      t.found ==> (t.bestTry == ctx.targetNumbers &&
        exists i :: 0 <= i < |cands| && Accepted(ctx, cands[i]) && Formatted(cands[i]) == ctx.targetNumbers)
    decreases |cands|
  {
    if |cands| > 0 && !Stopped(s) {
      var s1 := Step(ctx, s, cands[0]);
      if s1.found {
        ScanStopsWhenFound(ctx, s1, cands[1..]);
      } else {
        ScanFoundTarget(ctx, s1, cands[1..]);
        var t := Scan(ctx, s, cands);
        if t.found {
          var i :| 0 <= i < |cands[1..]| && Accepted(ctx, cands[1..][i]) && Formatted(cands[1..][i]) == ctx.targetNumbers;
          assert cands[1..][i] == cands[i + 1];
        }
      }
    }
  }

  /** Formatting is injective on games: Found means the candidate is the target game itself. */
  lemma FoundIsTarget(c: seq<int>, target: seq<int>)
    requires Positive(c) && Positive(target)
    ensures Formatted(c) == Formatted(target) <==> c == target
  {
    if Formatted(c) == Formatted(target) {
      forall i | 0 <= i < |c|
        ensures c[i] == target[i]
      {
        Core.PadAllAt(c, i);
        Core.PadAllAt(target, i);
        Text.Pad2Injective(c[i], target[i]);
      }
    }
  }

  // ---------------------------------------------------------------------------
  // The fixed-batch loop

  /** Candidates per call: 5000 in random mode, 2000 otherwise. */
  function BatchSize(mode: Mode): nat
  {
    if mode == Random then 5000 else 2000
  }

  /** Only smart mode filters in the batch loop. */
  predicate BatchAccepted(ctx: SimContext, c: seq<int>)
  {
    ctx.mode == Smart ==> SmartAccepts(c, ctx.target, ctx.primeList)
  }

  /** One iteration of the batch loop; batch is the iteration number, from 1. */
  function BatchStep(ctx: SimContext, s: ScanState, batch: nat, c: seq<int>): (t: ScanState)
    requires IsGame(c, ctx.n, ctx.k)
    ensures t.marked == s.marked + {Rank(c)} && t.safety == s.safety
    ensures Rank(c) in s.marked ==> t == s
    ensures Rank(c) !in s.marked ==> t.attempts == s.attempts + 1
    ensures t.found <==> s.found || (Rank(c) !in s.marked && BatchAccepted(ctx, c) && Formatted(c) == ctx.targetNumbers)
  {
    var idx := Rank(c);
    if idx in s.marked then s
    else
      var s1 := s.(marked := s.marked + {idx}, attempts := s.attempts + 1);
      if !BatchAccepted(ctx, c) then s1
      else
        var formatted := Formatted(c);
        var s2 := s1.(bestTry := if batch % BatchBestTryEvery == 0 then formatted else s1.bestTry);
        if formatted == ctx.targetNumbers then s2.(bestTry := formatted, found := true) else s2
  }

  /** The batch loop from iteration batch + 1 on, one candidate per iteration. */
  function BatchScan(ctx: SimContext, s: ScanState, batch: nat, cands: seq<seq<int>>): ScanState
    requires AllGames(cands, ctx.n, ctx.k)
    decreases |cands|
  {
    if |cands| == 0 || s.found then s
    else BatchScan(ctx, BatchStep(ctx, s, batch + 1, cands[0]), batch + 1, cands[1..])
  }

  /** The batch loop counts every index once as well. */
  lemma {:induction false} BatchCountsNewIndices(ctx: SimContext, s: ScanState, batch: nat, cands: seq<seq<int>>)
    requires AllGames(cands, ctx.n, ctx.k)
    ensures var t := BatchScan(ctx, s, batch, cands);
      s.marked <= t.marked && t.attempts == s.attempts + |t.marked - s.marked| &&
      t.attempts <= s.attempts + |cands|
    decreases |cands|
  {
    if |cands| > 0 && !s.found {
      var s1 := BatchStep(ctx, s, batch + 1, cands[0]);
      BatchCountsNewIndices(ctx, s1, batch + 1, cands[1..]);
      var t := BatchScan(ctx, s, batch, cands);
      if Rank(cands[0]) !in s.marked {
        assert t.marked - s.marked == (t.marked - s1.marked) + {Rank(cands[0])};
      } else {
        assert t.marked - s.marked == t.marked - s1.marked;
      }
    }
  }
}
