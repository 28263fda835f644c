/**
 * The simulation state machine: opening a simulation on a past draw, the
 * start (with the manual-mode check of the target), the time-sliced search
 * loop and the fixed-batch loop over the visited bitmap, stop and reset.
 *
 * Each loop iteration consumes one candidate from a sequence supplied by the
 * caller (the generator of the mode), so the length of that sequence is the
 * budget of one animation frame.
 */
module Simulation {
  import opened Wrappers
  import opened Seqs
  import opened Text
  import opened Combinatorics
  import opened GameStats
  import opened Validation
  import opened Core
  import opened Filters
  import opened Strata
  import opened Search
  import Primes

  /** The target game: its number, its numbers as the table shows them, and their statistics. */
  datatype Target = Target(game: string, numbers: seq<string>, stats: Stats)

  /** The k '..' placeholders of the best-try display. */
  function Placeholders(k: nat): (s: seq<string>)
    ensures |s| == k && forall i :: 0 <= i < k ==> s[i] == ".."
  {
    seq(k, _ => "..")
  }

  /**
   * The ranking of openSimulation: count the numbers of the earlier games
   * that pass the filters and rank 1..n by those counts, most drawn first.
   */
  method RankPastGames(row: Row, results: seq<Row>, filters: FilterForm, n: nat) returns (ranked: seq<nat>)
    ensures ranked == RankByHistory(FilterPastGames(results, filters, ParseInt(row.game)), n)
  {
    var pastGames := FilterPastGames(results, filters, ParseInt(row.game));
    var counts := CountNumbers(pastGames);
    ranked := RankByFrequency(counts, n);
    RankMatchesHistory(counts, pastGames, n);
  }

  /**
   * The chunks and the pattern of openSimulation: the ranking cut into k
   * chunks and the target's numbers counted per chunk. Since the chunks
   * cover 1..n, a target inside 1..n is counted in full.
   */
  method ChunkPattern(ranked: seq<nat>, targetNums: seq<int>, n: nat, k: nat)
    returns (chunks: seq<seq<nat>>, pattern: seq<nat>)
    requires k >= 1
    ensures chunks == ChunksOf(ranked, k) && |pattern| == k
    ensures forall c :: 0 <= c < k ==> pattern[c] == CountIf(targetNums, InChunk(chunks, c))
    ensures multiset(ranked) == multiset(Universe(n)) && InRange(targetNums, 1, n) ==>
      Sum(pattern) == |targetNums|
  {
    chunks := BuildChunks(ranked, k);
    pattern := QuintilePattern(chunks, targetNums);
    if multiset(ranked) == multiset(Universe(n)) && InRange(targetNums, 1, n) {
      ChunksPartition(ranked, k);
      PatternCoversTarget(chunks, targetNums, n);
    }
  }

  /** The numbers of a row as values, each read with parseInt. */
  function Values(numbers: seq<string>): (vs: seq<int>)
    ensures |vs| == |numbers|
  {
    Map(numbers, ParseInt)
  }

  /** The chunks and the pattern of openSimulation, for the row and the filtered history. */
  method BuildStrata(row: Row, results: seq<Row>, filters: FilterForm, n: nat, k: nat)
    returns (chunks: seq<seq<nat>>, pattern: seq<nat>)
    requires k >= 1
    ensures chunks == ChunksOf(RankByHistory(FilterPastGames(results, filters, ParseInt(row.game)), n), k)
    ensures |pattern| == k
    ensures forall c :: 0 <= c < k ==> pattern[c] == CountIf(Values(row.numbers), InChunk(chunks, c))
    ensures InRange(Values(row.numbers), 1, n) ==> Sum(pattern) == |row.numbers|
  {
    var ranked := RankPastGames(row, results, filters, n);
    chunks, pattern := ChunkPattern(ranked, Values(row.numbers), n, k);
  }

  class Simulator {
    /** The visited-set component shared with the rest of the application. */
    const sys: BitSetSystem
    const n: nat
    const k: nat
    /** The primes up to n, computed once. */
    const primeList: seq<int>

    var running: bool
    var mode: Mode
    var attempts: nat
    var startTime: Option<int>
    var elapsedTime: string
    var target: Option<Target>
    var bestTry: seq<string>
    var quintilePattern: seq<nat>
    var chunks: seq<seq<nat>>
    var customConfig: BoundsConfig
    /** Set from the start of a run until the next reset or opening: attempts then counts the set bits. */
    ghost var counting: bool

    ghost predicate Valid()
      reads this, sys, sys.Repr
    {
      sys.Valid() && this !in sys.Repr && sys.n == n && sys.k == k &&
      (running ==> counting && target.Some? && startTime.Some?) &&
      (counting ==> sys.visitedBitmap != null && sys.combTable != null && attempts == |sys.Marked|)
    }

    /** What one run reads: the shape, the mode, the target and the manual form. */
    function Ctx(): SimContext
      reads this
      requires target.Some?
    {
      SimContext(n, k, mode, target.value.stats, target.value.numbers, customConfig, primeList)
    }

    /** The initial data of the component. */
    constructor (n: nat, k: nat)
      requires 1 <= k <= n
      ensures Valid() && fresh(sys) && fresh(sys.Repr)
      ensures this.n == n && this.k == k && primeList == Primes.PrimesUpTo(n)
      ensures !running && mode == Smart && attempts == 0 && startTime == None && elapsedTime == "00:00"
      ensures target == None && bestTry == [] && quintilePattern == [] && chunks == []
      ensures customConfig == DefaultBounds
    {
      var primes := Primes.GeneratePrimes(n);
      this.n, this.k := n, k;
      primeList := primes;
      sys := new BitSetSystem(n, k);
      running, mode, attempts := false, Smart, 0;
      startTime, elapsedTime := None, "00:00";
      target, bestTry := None, [];
      quintilePattern, chunks := [], [];
      customConfig := DefaultBounds;
      counting := false;
    }

    /**
     * openSimulation: the target is the row with its statistics; the numbers
     * 1..n are ranked by their frequency in the earlier games that pass the
     * filters, cut into k chunks, and the pattern counts the target's
     * numbers per chunk. The run is stopped and its counters cleared.
     */
    method OpenSimulation(row: Row, results: seq<Row>, filters: FilterForm)
      requires Valid()
      modifies this
      ensures Valid() && !counting && sys.Marked == old(sys.Marked)
      ensures !running && mode == Smart && attempts == 0 && startTime == None && elapsedTime == "00:00"
      ensures target == Some(Target(row.game, row.numbers, AnalyzeNumbers(row.numbers, primeList)))
      ensures bestTry == Placeholders(k)
      ensures chunks == ChunksOf(RankByHistory(FilterPastGames(results, filters, ParseInt(row.game)), n), k)
      ensures |quintilePattern| == k
      ensures forall c :: 0 <= c < k ==>
        quintilePattern[c] == CountIf(Values(row.numbers), InChunk(chunks, c))
      ensures InRange(Values(row.numbers), 1, n) ==> Sum(quintilePattern) == |row.numbers|
      ensures customConfig == old(customConfig)
    {
      var newChunks, pattern := BuildStrata(row, results, filters, n, k);
      Open(Target(row.game, row.numbers, AnalyzeNumbers(row.numbers, primeList)), newChunks, pattern);
    }

    /** The state change of openSimulation: a stopped, cleared run on the new target and strata. */
    method Open(t: Target, newChunks: seq<seq<nat>>, pattern: seq<nat>)
      requires Valid()
      modifies this`running, this`mode, this`attempts, this`startTime, this`elapsedTime
      modifies this`target, this`bestTry, this`quintilePattern, this`chunks, this`counting
      ensures Valid() && !counting
      ensures !running && mode == Smart && attempts == 0 && startTime == None && elapsedTime == "00:00"
      ensures target == Some(t) && bestTry == Placeholders(k)
      ensures chunks == newChunks && quintilePattern == pattern
    {
      ResetSim();
      Retarget(t, newChunks, pattern);
    }

    /** The rest of the state change of openSimulation: smart mode, no start time, the new target and strata. */
    method Retarget(t: Target, newChunks: seq<seq<nat>>, pattern: seq<nat>)
      requires Valid() && !running
      modifies this`mode, this`startTime, this`target, this`quintilePattern, this`chunks
      ensures Valid() && mode == Smart && startTime == None
      ensures target == Some(t) && chunks == newChunks && quintilePattern == pattern
    {
      mode, startTime, target := Smart, None, Some(t);
      quintilePattern, chunks := pattern, newChunks;
    }

    /**
     * startSim: in manual mode a target outside the form's bounds is refused
     * with the first violated rule and nothing changes; otherwise the run
     * starts with a zeroed bitmap and no attempts, and the first frame runs.
     */
    method StartSim(cands: seq<seq<int>>, start: int, now: int) returns (err: Option<StartError>)
      requires Valid() && target.Some? && AllGames(cands, n, k) && now >= start
      modifies this, sys, sys.Repr
      ensures Valid()
      ensures err == (if old(mode) == Manual then StartCheck(old(target).value.stats, old(customConfig)) else None)
      ensures err.Some? ==> unchanged(this) && sys.Marked == old(sys.Marked)
      ensures err.None? ==> (counting && startTime == Some(start) &&
        var t := Scan(old(Ctx()), ScanState({}, 0, 0, old(bestTry), false), cands);
        sys.Marked == t.marked && attempts == t.attempts && bestTry == t.bestTry && running == !t.found &&
        elapsedTime == (if t.found then old(elapsedTime) else FormatTime(now - start)))
      ensures mode == old(mode) && target == old(target) && customConfig == old(customConfig)
      ensures chunks == old(chunks) && quintilePattern == old(quintilePattern)
    {
      if mode == Manual {
        err := StartCheck(target.value.stats, customConfig);
        if err.Some? {
          return;
        }
      }
      err := None;
      Begin(cands, start, now);
    }

    /** The start of a run that passed the check: the bitmap is cleared, then the run starts. */
    method Begin(cands: seq<seq<int>>, start: int, now: int)
      requires Valid() && target.Some? && AllGames(cands, n, k) && now >= start
      modifies this, sys, sys.Repr
      ensures Valid() && counting && startTime == Some(start)
      ensures var t := Scan(old(Ctx()), ScanState({}, 0, 0, old(bestTry), false), cands);
        sys.Marked == t.marked && attempts == t.attempts && bestTry == t.bestTry && running == !t.found &&
        elapsedTime == (if t.found then old(elapsedTime) else FormatTime(now - start))
      ensures mode == old(mode) && target == old(target) && customConfig == old(customConfig)
      ensures chunks == old(chunks) && quintilePattern == old(quintilePattern)
    {
      sys.InitBitSetSystem();
      Launch(cands, start, now);
    }

    /** The start of a run that passed the check, on a zeroed bitmap: the run state, then the first frame. */
    method Launch(cands: seq<seq<int>>, start: int, now: int)
      requires sys.Valid() && this !in sys.Repr && sys.n == n && sys.k == k && target.Some?
      requires sys.visitedBitmap != null && sys.combTable != null && sys.Marked == {}
      requires AllGames(cands, n, k) && now >= start
      modifies this`running, this`startTime, this`attempts, this`counting, this`bestTry, this`elapsedTime
      modifies sys.visitedBitmap, sys`Marked
      ensures Valid() && counting && startTime == Some(start)
      ensures var t := Scan(old(Ctx()), ScanState({}, 0, 0, old(bestTry), false), cands);
        sys.Marked == t.marked && attempts == t.attempts && bestTry == t.bestTry && running == !t.found &&
        elapsedTime == (if t.found then old(elapsedTime) else FormatTime(now - start))
    {
      ghost var t := Scan(Ctx(), ScanState({}, 0, 0, bestTry, false), cands);
      ghost var clock := elapsedTime;
      Start(start);
      assert t == Scan(Ctx(), ScanState(sys.Marked, attempts, 0, bestTry, false), cands);
      RunningFrame(cands, now);
      assert elapsedTime == (if t.found then clock else FormatTime(now - start));
    }

    /** The state change of startSim once the bitmap is cleared: running, from zero attempts. */
    method Start(start: int)
      requires sys.Valid() && this !in sys.Repr && sys.n == n && sys.k == k && target.Some?
      requires sys.visitedBitmap != null && sys.combTable != null && sys.Marked == {}
      modifies this`running, this`startTime, this`attempts, this`counting
      ensures Valid() && running && counting && startTime == Some(start) && attempts == 0
    {
      running := true;
      startTime := Some(start);
      attempts := 0;
      counting := true;
    }

    /** The test-and-set of the candidate's bit; a newly set bit counts as an attempt. */
    method Visit(c: seq<int>) returns (isNew: bool)
      requires Valid() && counting && IsGame(c, n, k)
      modifies this`attempts, sys.visitedBitmap, sys`Marked
      ensures Valid()
      ensures isNew <==> Rank(c) !in old(sys.Marked)
      ensures sys.Marked == old(sys.Marked) + {Rank(c)}
      ensures attempts == old(attempts) + (if isNew then 1 else 0)
    {
      var idx := sys.GetGameIndex(c);
      var visited := sys.IsVisited(idx);
      if visited {
        return false;
      }
      sys.MarkVisited(idx);
      attempts := attempts + 1;
      return true;
    }

    /**
     * An accepted candidate: shown when count is a multiple of period, and
     * shown and the run stopped when it is the target.
     */
    method Show(ctx: SimContext, c: seq<int>, count: nat, period: nat)
      requires Valid() && target.Some? && ctx == Ctx() && Positive(c) && period > 0
      modifies this`bestTry, this`running
      ensures Valid()
      ensures bestTry == if Formatted(c) == ctx.targetNumbers || count % period == 0 then Formatted(c) else old(bestTry)
      ensures running == (old(running) && Formatted(c) != ctx.targetNumbers)
    {
      var formatted := Formatted(c);
      if count % period == 0 {
        bestTry := formatted;
      }
      if formatted == target.value.numbers {
        bestTry := formatted;
        running := false;
      }
    }

    /**
     * One iteration of runSimLoop on candidate c: test-and-set its bit, count
     * a new index, filter by the mode, refresh the shown candidate every 20
     * attempts and stop on the target; safety is the frame's counter of
     * consecutive skips and rejections. The iteration is the Step of the
     * search state.
     */
    method SimStep(ctx: SimContext, c: seq<int>, safety: nat) returns (next: nat)
      requires Valid() && counting && target.Some? && ctx == Ctx() && IsGame(c, n, k)
      modifies this`attempts, this`bestTry, this`running, sys.visitedBitmap, sys`Marked
      ensures Valid()
      ensures ScanState(sys.Marked, attempts, next, bestTry, !running) ==
        Step(ctx, ScanState(old(sys.Marked), old(attempts), safety, old(bestTry), !old(running)), c)
    {
      var isNew := Visit(c);
      if !isNew || !Accepted(ctx, c) {
        return safety + 1;
      }
      Show(ctx, c, attempts, BestTryEvery);
      next := 0;
    }

    /**
     * The loop of one frame of runSimLoop: SimStep on each candidate while
     * the run goes on and the safety counter is at most 5000. The frame is
     * the Scan of its candidates.
     */
    method ScanFrame(ctx: SimContext, cands: seq<seq<int>>) returns (safety: nat)
      requires Valid() && counting && target.Some? && ctx == Ctx() && AllGames(cands, n, k)
      modifies this`attempts, this`bestTry, this`running, sys.visitedBitmap, sys`Marked
      ensures Valid()
      ensures ScanState(sys.Marked, attempts, safety, bestTry, !running) ==
        Scan(ctx, ScanState(old(sys.Marked), old(attempts), 0, old(bestTry), !old(running)), cands)
    {
      ghost var init := ScanState(sys.Marked, attempts, 0, bestTry, !running);
      safety := 0;
      var i := 0;
      while i < |cands| && safety <= SafetyLimit && running
        invariant Valid() && 0 <= i <= |cands| && counting && target.Some? && ctx == Ctx()
        invariant Scan(ctx, ScanState(sys.Marked, attempts, safety, bestTry, !running), cands[i..]) == Scan(ctx, init, cands)
        decreases |cands| - i
      {
        assert cands[i..][0] == cands[i] && cands[i..][1..] == cands[i + 1..];
        safety := SimStep(ctx, cands[i], safety);
        i := i + 1;
      }
      ghost var last := ScanState(sys.Marked, attempts, safety, bestTry, !running);
      assert Scan(ctx, last, cands[i..]) == last;
    }

    /**
     * runSimLoop: nothing unless the run is on; otherwise one frame, and the
     * clock display is updated unless the target was hit.
     */
    method RunSimLoop(cands: seq<seq<int>>, now: int)
      requires Valid() && AllGames(cands, n, k)
      requires running ==> now >= startTime.value
      modifies this`attempts, this`bestTry, this`running, this`elapsedTime, sys.visitedBitmap, sys`Marked
      ensures Valid()
      ensures !old(running) ==> unchanged(this) && sys.Marked == old(sys.Marked)
      ensures old(running) ==>
        var t := Scan(old(Ctx()), ScanState(old(sys.Marked), old(attempts), 0, old(bestTry), false), cands);
        sys.Marked == t.marked && attempts == t.attempts && bestTry == t.bestTry && running == !t.found &&
        elapsedTime == (if t.found then old(elapsedTime) else FormatTime(now - old(startTime).value))
    {
      if running {
        RunningFrame(cands, now);
      }
    }

    /** RunSimLoop while the run goes on. */
    method RunningFrame(cands: seq<seq<int>>, now: int)
      requires Valid() && AllGames(cands, n, k) && running && now >= startTime.value
      modifies this`attempts, this`bestTry, this`running, this`elapsedTime, sys.visitedBitmap, sys`Marked
      ensures Valid()
      ensures var t := Scan(old(Ctx()), ScanState(old(sys.Marked), old(attempts), 0, old(bestTry), false), cands);
        sys.Marked == t.marked && attempts == t.attempts && bestTry == t.bestTry && running == !t.found &&
        elapsedTime == (if t.found then old(elapsedTime) else FormatTime(now - old(startTime).value))
    {
      var elapsed := now - startTime.value;
      var ctx := Ctx();
      ghost var t := Scan(ctx, ScanState(sys.Marked, attempts, 0, bestTry, false), cands);
      var safety := ScanFrame(ctx, cands);
      assert ScanState(sys.Marked, attempts, safety, bestTry, !running) == t;
      if running {
        elapsedTime := FormatTime(elapsed);
      }
    }

    /**
     * One iteration of the fixed-batch loop, the batch-th: test-and-set and
     * count as in SimStep, only smart mode filters, the shown candidate
     * refreshed every 500 iterations, stop on the target.
     */
    method BatchSimStep(ctx: SimContext, c: seq<int>, batch: nat)
      requires Valid() && counting && target.Some? && ctx == Ctx() && IsGame(c, n, k)
      modifies this`attempts, this`bestTry, this`running, sys.visitedBitmap, sys`Marked
      ensures Valid()
      ensures ScanState(sys.Marked, attempts, 0, bestTry, !running) ==
        BatchStep(ctx, ScanState(old(sys.Marked), old(attempts), 0, old(bestTry), !old(running)), batch, c)
    {
      var isNew := Visit(c);
      if isNew && BatchAccepted(ctx, c) {
        Show(ctx, c, batch, BatchBestTryEvery);
      }
    }

    /**
     * runSimLoop of the fixed-batch versions: BatchSize(mode) iterations of
     * BatchSimStep while the run goes on, then the clock display unless the
     * target was hit. The whole call is the BatchScan of its candidates.
     */
    method RunBatch(cands: seq<seq<int>>, now: int)
      requires Valid() && AllGames(cands, n, k) && |cands| == BatchSize(mode)
      requires running ==> now >= startTime.value
      modifies this`attempts, this`bestTry, this`running, this`elapsedTime, sys.visitedBitmap, sys`Marked
      ensures Valid()
      ensures !old(running) ==> unchanged(this) && sys.Marked == old(sys.Marked)
      ensures old(running) ==>
        ScanState(sys.Marked, attempts, 0, bestTry, !running) ==
          BatchScan(old(Ctx()), ScanState(old(sys.Marked), old(attempts), 0, old(bestTry), false), 0, cands)
      ensures old(running) ==> elapsedTime == if running then FormatTime(now - old(startTime).value) else old(elapsedTime)
    {
      if running {
        RunningBatch(cands, now);
      }
    }

    /** RunBatch while the run goes on. */
    method RunningBatch(cands: seq<seq<int>>, now: int)
      requires Valid() && AllGames(cands, n, k) && running && now >= startTime.value
      modifies this`attempts, this`bestTry, this`running, this`elapsedTime, sys.visitedBitmap, sys`Marked
      ensures Valid()
      ensures ScanState(sys.Marked, attempts, 0, bestTry, !running) ==
        BatchScan(old(Ctx()), ScanState(old(sys.Marked), old(attempts), 0, old(bestTry), !old(running)), 0, cands)
      ensures elapsedTime == if running then FormatTime(now - old(startTime).value) else old(elapsedTime)
    {
      var elapsed := now - startTime.value;
      var ctx := Ctx();
      BatchFrame(ctx, cands);
      if running {
        elapsedTime := FormatTime(elapsed);
      }
    }

    /**
     * The loop of the fixed-batch runSimLoop: BatchSimStep on each candidate
     * while the run goes on; the caller supplies one candidate per iteration.
     */
    method BatchFrame(ctx: SimContext, cands: seq<seq<int>>)
      requires Valid() && counting && target.Some? && ctx == Ctx() && AllGames(cands, n, k)
      modifies this`attempts, this`bestTry, this`running, sys.visitedBitmap, sys`Marked
      ensures Valid()
      ensures ScanState(sys.Marked, attempts, 0, bestTry, !running) ==
        BatchScan(ctx, ScanState(old(sys.Marked), old(attempts), 0, old(bestTry), !old(running)), 0, cands)
    {
      ghost var init := ScanState(sys.Marked, attempts, 0, bestTry, !running);
      var batch := 0;
      while batch < |cands| && running
        invariant Valid() && 0 <= batch <= |cands| && counting && target.Some? && ctx == Ctx()
        invariant BatchScan(ctx, ScanState(sys.Marked, attempts, 0, bestTry, !running), batch, cands[batch..]) ==
          BatchScan(ctx, init, 0, cands)
        decreases |cands| - batch
      {
        assert cands[batch..][0] == cands[batch] && cands[batch..][1..] == cands[batch + 1..];
        ghost var pre := ScanState(sys.Marked, attempts, 0, bestTry, !running);
        assert BatchScan(ctx, pre, batch, cands[batch..]) ==
          BatchScan(ctx, BatchStep(ctx, pre, batch + 1, cands[batch]), batch + 1, cands[batch + 1..]);
        BatchSimStep(ctx, cands[batch], batch + 1);
        batch := batch + 1;
      }
      ghost var last := ScanState(sys.Marked, attempts, 0, bestTry, !running);
      assert BatchScan(ctx, last, batch, cands[batch..]) == last;
    }

    /** stopSim: the run stops; everything else stays. */
    method StopSim()
      requires Valid()
      modifies this`running
      ensures Valid() && !running
    {
      running := false;
    }

    /**
     * resetSim: stopped, no attempts, the clock display at "00:00" and k
     * placeholders shown; the bitmap is left as it is until the next start.
     */
    method ResetSim()
      requires Valid()
      modifies this`running, this`attempts, this`elapsedTime, this`bestTry, this`counting
      ensures Valid() && !running && attempts == 0 && elapsedTime == "00:00" && bestTry == Placeholders(k)
      ensures sys.Marked == old(sys.Marked) && !counting
      ensures mode == old(mode) && target == old(target) && customConfig == old(customConfig)
      ensures chunks == old(chunks) && quintilePattern == old(quintilePattern) && startTime == old(startTime)
    {
      running := false;
      attempts := 0;
      elapsedTime := "00:00";
      bestTry := Placeholders(k);
      counting := false;
    }
  }
}
