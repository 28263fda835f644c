# Quina analytics: a Dafny model

This project models the computational core of a browser application. The
application loads past draws of the Quina lottery: 5 numbers from 1 to 80,
with CSV rows `game, date, n1 .. n5`. It then does four things:

- filters, orders and pages the results;
- counts how often each number was drawn, by decade, parity, primes and sum
  interval;
- generates "optimized" games;
- simulates how many distinct tickets a strategy needs to hit a past draw.

The simulation is the heart of the application:

- Every ascending game of k numbers from 1..n gets a unique index in
  [0, C(n, k)). This is the combinatorial number system, computed from a
  Pascal table.
- A bitmap with one bit per index makes sure each candidate game is counted
  at most once.
- A state machine (`running`, `attempts`, `bestTry`, the clock) drives a
  loop that generates candidates, ranks them, tests and sets their bit,
  applies the mode's acceptance rule and stops on the target.

The modules follow the program's structure:

| module | file | models |
|---|---|---|
| `Seqs`, `Text`, `Wrappers` | seqs.dfy, text.dfy, wrappers.dfy | array helpers with JavaScript's semantics (stable sort, `slice`, `filter`, `new Set`), decimal strings, `padStart`, `parseInt` |
| `Primes` | primes.dfy | the sieve `generatePrimes` |
| `GameStats` | stats.dfy | `analyzeGame` |
| `Combinatorics` | combinatorics.dfy | binomials and the rank; its inverse `Unrank`; the rank is a bijection |
| `Core` | core.dfy | class `BitSetSystem` (`combTable`, `visitedBitmap`, `initBitSetSystem`, `getGameIndex`, the bit test-and-set); the CSV row mapping |
| `Validation` | validation.dfy | the validator variants and the manual start check |
| `Filters` | filters.dfy | `checkFilters`, `sortedResults`, `activeFiltersCount`, `filterPastGames`; class `FilterPanel` |
| `Strata` | strata.dfy | the frequency ranking, the chunks ("quintiles") and the target's quintile pattern |
| `Sampling` | sampling.dfy | the random, smart and manual candidate generators over a stream of draws |
| `Search` | search.dfy | the deduplicating search loop as functions of its state (time-sliced and batch versions) |
| `Simulation` | simulation.dfy | class `Simulator` (`simState`, `openSimulation`, `startSim`, `runSimLoop`, `stopSim`, `resetSim`) |
| `Computed` | computed.dfy | the computed values of the result page: ordered list, pages, frequency table, decades, generic tallies, sum intervals |
| `Generator` | generator.dfy | `isValidGame` and `generateOptimizedGame` in its three versions; class `GeneratorPanel` |
| `Ui` | ui.dfy | class `ResultsView`: page, highlight, frequency sort, reset on list change |

The code exists in three generations: the monolith `js/main.js`, then
`js/methods.js`, then the modular files (`js/core.js`, `js/simulation.js`,
`js/generator.js`, `js/filters.js`, `js/computed.js`, `js/ui.js`). The
modular files are the primary model. Where an older copy behaves
differently, the model has both versions:

- the parity and prime "automatic" profiles;
- the 50-number second phase of the generator;
- the fixed-batch simulation loop.

## How the environment is modelled

- **Randomness.** `Math.random()` is replaced by what it feeds:
  - The simulation loop consumes an oracle sequence of candidate games, one per iteration. The candidate generators of `Sampling` produce such candidates from a stream of draws, where `draws[p] % m` stands for `Math.floor(Math.random() * m)`.
  - The generator consumes a stream of draws directly.
- **Time.**
  - `Date.now()` becomes the parameters `start` and `now`.
  - A 12 ms frame of `runSimLoop` is the finite candidate sequence handed to one call.
  - `requestAnimationFrame` and `setTimeout` become repeated calls.
- **Dates.** A date becomes an order-preserving day key `DayKey(y, m, d)`, in place of the millisecond timestamp of `new Date(...).setHours(0,0,0,0)`.
- **Object keys.** JavaScript objects used as counting maps become `map<string, nat>` or `map<int, nat>`. Their key order is explicit:
  - `KeyOrder` lists the integer-like keys first, ascending, as JavaScript does.
  - In `Tally`, the remaining keys come in insertion order.
- **Integers.** They are unbounded; none of the quantities can reach 2^53. Float expressions that feed integers are written with integers: `Math.ceil(k / 1.5)` is `(2k + 2) / 3`, and `Math.floor(n * 0.65)` is `n * 65 / 100`.

## Model

| member | source | states |
|---|---|---|
| Text.DecValue | js/core.js:59 | `toString()` of a number is all digits and reads back as that number; it has one digit exactly when the number is below 10 |
| Text.Pad2 | js/core.js:59 | `toString().padStart(2, '0')` yields at least two characters |
| Text.Pad2Value | js/core.js:59 | the padded string is all digits and reads back as the number; it is exactly two characters below 100 |
| Text.Pad2Injective | js/core.js:59 | two numbers have the same padded string exactly when they are equal |
| Text.LeadingDigits | js/core.js:58-59 | the digit prefix `parseInt` reads is the longest run of digits at the start of the string |
| Text.ParseInt | js/core.js:58-59 | on a string of digits, `parseInt` returns its decimal value |
| Text.FormatTime | js/utils.js:45-50 | `formatTime` yields at least five characters |
| Text.FormatTimeReadsBack | js/utils.js:45-50 | the result is `m + ":" + s` where s is two digits, m at least two, and 60·m + s = floor(ms / 1000) with s < 60 |
| Text.FormatTimeZero | js/utils.js:45-50 | `formatTime(0)` is "00:00", the value `resetSim` writes |
| GameStats.AnalyzeGame | js/utils.js:35-42 | the even and prime counts are at most the number of numbers |
| GameStats.AnalyzeNumbers | js/utils.js:35-42 | the same bounds for numbers given as strings, parsed with `parseInt` |
| GameStats.AnalyzeGamePermutation | js/utils.js:38-40 | the statistics do not depend on the order of the numbers |
| GameStats.AnalyzeGameAppend | js/utils.js:38-40 | sum, even count and prime count are additive over concatenation |
| GameStats.PrimeCountIsPrimes | js/utils.js:40 | against the sieve's list, the prime count counts exactly the primes up to max |
| GameStats.PaddedNumbersStats | js/core.js:58-64 | statistics of the two-digit strings equal the statistics of the numbers |
| GameStats.EvenOddSplit | js/utils.js:39 | even and odd counts add up to the number of balls, as the "x Pares / 5 - x Ímpares" label assumes |
| Primes.PrimesUpTo | js/utils.js:2-11 | the reference list: exactly the primes p with 2 ≤ p ≤ max, strictly ascending |
| Primes.SurvivorIsPrime | js/utils.js:5-9 | a number below i² that no d < i crossed out is prime, and conversely |
| Primes.CrossOutPrime | js/utils.js:6-7 | crossing out the multiples of a surviving i from i² on removes exactly its proper multiples |
| Primes.SkipComposite | js/utils.js:6 | skipping a crossed-out i loses nothing |
| Primes.CrossOut | js/utils.js:7 | the inner loop clears exactly the cells j = i², i² + i, … and leaves the rest unchanged |
| Primes.GeneratePrimes | js/utils.js:2-11 | the sieve returns exactly `PrimesUpTo(max)`: strictly ascending, with no 0, 1 or gaps |
| Primes.NoDivisorFromSound | js/utils.js:2-11 | trial division from d on agrees with primality for survivors |
| Primes.TrialPrimesCorrect | js/utils.js:2-11 | an independent trial-division definition gives the same list as the sieve's specification |
| Primes.QuinaPrimes | js/computed.js:97-100 | the primes up to 80 are exactly the 22-element list hard-coded in `primeStats` and the monolith |
| Combinatorics.Consecutive | js/core.js:37-43 | the game lo, lo + 1, …, lo + len − 1 |
| Combinatorics.BinomAboveIsZero | js/core.js:21-27 | C(i, j) = 0 for j > i, the zeros the table keeps above the diagonal |
| Combinatorics.BinomPositive | js/core.js:23-25 | C(i, j) ≥ 1 for j ≤ i |
| Combinatorics.BinomNonzero | js/core.js:21-27 | C(i, j) > 0 exactly when j ≤ i |
| Combinatorics.BinomMonotone | js/core.js:37-43 | C(a, k) ≤ C(m, k) for a ≤ m |
| Combinatorics.Absorption | js/core.js:21-27 | k·C(n, k) = n·C(n − 1, k − 1) |
| Combinatorics.QuinaCombinations | js/main.js:138 | C(80, 5) = 24 040 016, the constant of the monolith |
| Combinatorics.RankSnoc | js/core.js:37-43 | the rank adds C(last − 1, length) for the last number |
| Combinatorics.RankBelow | js/core.js:37-43 | an ascending game from [1, m] ranks below C(m, length) |
| Combinatorics.RankByLast | js/core.js:37-43 | of two ascending games of equal length, the one with the smaller last number has the smaller rank |
| Combinatorics.RankInjective | js/core.js:37-43 | ascending games of equal length with equal rank are equal |
| Combinatorics.LastValue | js/core.js:37-43 | for the inverse: the largest a ≤ top with C(a − 1, j) ≤ r |
| Combinatorics.Unrank | js/core.js:37-43 | the inverse of the rank: an ascending j-game of [1, m] whose rank is r |
| Combinatorics.LastValueSplit | js/core.js:37-43 | r lies between the rank offsets of the chosen last value |
| Combinatorics.UnrankAppend | js/core.js:37-43 | appending a larger number keeps a game ascending and adds its term to the rank |
| Combinatorics.RankAppend | js/core.js:37-43 | appending a number adds C(a − 1, length + 1) to the rank |
| Combinatorics.UnrankRank | js/core.js:37-43 | `Unrank(Rank(s)) == s` for every ascending game, a round trip |
| Combinatorics.RankInRange | js/core.js:37-43 | every game of shape (n, k) has an index in [0, C(n, k)) |
| Combinatorics.GameRankInjective | js/core.js:37-43 | two games have the same index exactly when they are equal |
| Combinatorics.GameRankSurjective | js/core.js:37-43 | every index below C(n, k) is the index of a game |
| Combinatorics.ConsecutiveRank | js/core.js:37-43 | the game m + 1 .. m + j has rank C(m + j, j) − 1 |
| Combinatorics.FirstGameRank | js/core.js:37-43 | `getGameIndex([1..k]) == 0` |
| Combinatorics.LastGameRank | js/core.js:37-43 | `getGameIndex([n−k+1..n]) == C(n, k) − 1` |
| Core.OrBit | js/simulation.js:149 | after `byte \|= 1 << b`, bit c is set exactly when it was set before or c = b |
| Core.ZeroByte | js/core.js:32 | a fresh `Uint8Array` byte has no bit set |
| Core.HoldsMark | js/simulation.js:140-150 | setting bit idx % 8 of byte idx / 8 adds exactly idx to the set the bitmap holds |
| Core.HoldsNone | js/core.js:32-35 | an all-zero bitmap holds the empty set |
| Core.ByteSizeIsCeiling | js/core.js:31 | `Math.ceil(total / 8)` is the fewest bytes with a bit per combination |
| Core.QuinaBitmapBytes | js/core.js:29-32 | for (80, 5) the bitmap has 3 005 002 bytes |
| Core.QuinaBytes | js/main.js:137-140 | `Math.ceil(24040016 / 8)` is 3 005 002 |
| Core.BitSetSystem.constructor | js/core.js:11-12 | `combTable` and `visitedBitmap` start null and nothing is visited |
| Core.BitSetSystem.InitBitSetSystem | js/core.js:17-36 | afterwards combTable[i][j] = C(i, j) for all i ≤ n, j ≤ k; the bitmap is allocated with ceil(C(n, k) / 8) bytes the first time and reused (same array, same length) afterwards; every byte is 0 and nothing is visited |
| Core.BitSetSystem.GetGameIndex | js/core.js:37-43 | the accumulating loop returns `Rank(nums)`, which lies in [0, C(n, k)) |
| Core.BitSetSystem.IsVisited | js/simulation.js:144 | the bit test answers exactly whether the index was visited |
| Core.BitSetSystem.MarkVisited | js/simulation.js:149 | the bit set adds exactly that index to the visited set and changes no other byte |
| Core.PascalTable | js/core.js:21-27 | the nested loops fill a fresh (n + 1) × (k + 1) table with C(i, j) |
| Core.PascalRow | js/core.js:22-26 | row i gets C(i, j), and the other rows are unchanged |
| Core.LeapYearCycle | js/core.js:74 | the Gregorian rule repeats every 400 years: 2000 and 2024 are leap years, 1900 and 2023 are not |
| Core.DayKeyOrder | js/core.js:62-63 | the day key orders dates as the calendar does (year, then month, then day) |
| Core.Split | js/core.js:62 | `split('/')` yields at least one part, no part holds the separator, and joining the parts with the separator gives back the string |
| Core.RowNumbers | js/core.js:58-60 | the numbers are the fields 2 .. 2 + k as two-digit strings of digits, and parse back to the fields' values sorted ascending |
| Core.PadAll | js/core.js:59 | one padded string per number |
| Core.PadAllParses | js/core.js:58-60 | padded numbers are all digits, of length at least two, and parse back to the numbers |
| Core.RowStatsOf | js/core.js:62-75 | the row's sum, even count and prime count are those of its parsed fields; d, m and y come from the date; time is the day key and isLeap follows the Gregorian rule |
| Core.NumbersStats | js/core.js:64 | statistics over the stored two-digit strings equal those over the parsed fields |
| Core.MapRow | js/core.js:55-76 | a row with fewer than 3 fields maps to null; any other row maps to game, date, numbers and stats |
| Core.MapRows | js/core.js:55-77 | the header row is dropped, and so is every row with fewer than 3 fields; result i is `mapRow` of the i-th remaining row, in file order |
| Core.KeepRows | js/core.js:77 | `filter(Boolean)` keeps one result per row that has 3 fields or more |
| Core.KeepRowsMapped | js/core.js:55-77 | result i of `filter(Boolean)` is the mapped i-th row of 3 fields or more: the non-null results, in order |

| Seqs.CeilDiv | js/generator.js:45 | `Math.ceil(a / b)`: the least q with b·q ≥ a |
| Seqs.Slice | js/core.js:58 | `slice(lo, hi)` clamps to the array's length |
| Seqs.Map | js/core.js:59 | `map` applies f at every position |
| Seqs.Filter | js/filters.js:13 | `filter` keeps exactly the elements satisfying p, and no more elements than there were |
| Seqs.FilterMultiset | js/filters.js:13 | `filter` takes each element at most as often as it occurs |
| Seqs.FilterAppend | js/filters.js:13 | `filter` distributes over concatenation |
| Seqs.Dedup | js/generator.js:72 | `[...new Set(s)]` is repeat-free, has the same members, and is s itself when s has no repeats |
| Seqs.InsertBy | js/filters.js:14-17 | inserting into a key-sorted list adds the element and keeps the list sorted |
| Seqs.SortBy | js/filters.js:14-17 | the stable `sort` with a key comparator yields a permutation sorted by the key |
| Seqs.SortByStable | js/filters.js:14-17 | stability: for every key value, the elements with that key keep their relative order |
| Seqs.SortByTies | js/filters.js:14-17 | stability, pairwise: elements with equal keys that came in a given order still come in that order |
| Seqs.InsertByShape | js/filters.js:14-17 | inserting puts x after exactly the elements with a smaller key |
| Seqs.SortAscending | js/generator.js:72 | `sort((a, b) => a - b)` yields a permutation in ascending order |
| Seqs.SortDistinct | js/generator.js:72 | sorting repeat-free numbers gives a strictly ascending list |
| Validation.IsValidGame | js/generator.js:25-33 | accepts exactly when the sum bounds hold (or a falsy minSum switches them off) and every set even or prime bound holds; on success it returns `analyzeGame`'s statistics |
| Validation.FalsyMinSumIgnoresSum | js/generator.js:27 | with minSum 0 or '' the sum is not checked at all, and maxSum makes no difference |
| Validation.EmptyFormAcceptsAll | js/generator.js:28-31 | with every bound '' every game is accepted |
| Validation.PrimeCapIsCeiling | js/methods.js:184 | `(2k + 2) / 3` is the least c with 1.5·c ≥ k, i.e. `Math.ceil(k / 1.5)`; it is 4 for k = 5 |
| Validation.IsValidProfile | js/methods.js:169-188 | accepts exactly when the gated sum check passes, evens are 1..k − 1 under 'any' (exact otherwise), and primes are at most ceil(k / 1.5) under 'any' (exact otherwise) |
| Validation.MonolithRanges | js/main.js:406-429 | under 'any' the monolith accepts exactly minSum ≤ sum ≤ maxSum, 1 ≤ evens ≤ 4 and primes ≤ 3 |
| Validation.ProfilesDiffer | js/main.js:422-429 | [2, 3, 5, 7, 10] passes the layered profile (4 primes) but not the monolith's (at most 3) |
| Validation.ManualAccepts | js/simulation.js:159-166 | manual mode accepts exactly when minSum ≤ sum ≤ maxSum ('' read as 0) and every set even or prime bound holds inclusively |
| Validation.StartCheck | js/simulation.js:62-71 | no error exactly when the manual rule accepts the target; the sum error exactly when the sum is out of range |
| Filters.CheckFilters | js/filters.js:34-55 | a row passes exactly when the start date, day, month, year, leap year and the inclusive even, prime and sum bounds all hold; '' imposes nothing |
| Filters.ActiveFiltersCount | js/filters.js:19-31 | the counter counts each min/max pair once, is at most 8, and 0 means every row passes |
| Filters.NoActiveFilterPassesAll | js/filters.js:34-55 | with no active filter every row passes, and the end date is never counted |
| Filters.SortedResults | js/filters.js:12-18 | a permutation of the rows that pass the filters, ordered by the game number in the chosen direction |
| Filters.SortedResultsMembers | js/filters.js:12-13 | a row is listed exactly when it is a result and passes the filters |
| Filters.SortedResultsOrder | js/filters.js:14-17 | ascending order lists smaller game numbers first; descending order lists larger ones first |
| Filters.FilterPastGames | js/filters.js:64-69 | exactly the results with a smaller game number that pass the filters |
| Filters.FilterPanel.constructor | js/filters.js:2-10 | order 'desc' and an empty form |
| Filters.FilterPanel.CleanFilters | js/filters.js:56-63 | every field empty again, so no filter is active; the sort order is kept |
| Filters.FilterPanel.ToggleSort | js/filters.js:70 | asc and desc swap; the form is kept |
| Filters.ToggleTwice | js/filters.js:70 | toggling twice is the identity, and once always changes the order |
| Strata.CountNumbers | js/simulation.js:32-33 | the counting loop maps each string to its number of occurrences in the past games |
| Strata.ShortKeyNeverCounted | js/simulation.js:33-36 | a key shorter than two characters never occurs when every stored number has two digits |
| Strata.Universe | js/simulation.js:35 | `Array.from({length: n}, (_, i) => i + 1)` |
| Strata.RankByFrequency | js/simulation.js:35-36 | corrected ranking: a permutation of 1..n with non-increasing counts, each count read under the number's two-digit key |
| Strata.RankByFrequencyTies | js/simulation.js:35-36 | numbers with equal counts stay in ascending order, as the stable sort of `Array.from` leaves them |
| Strata.RankByHistory | js/simulation.js:31-36 | the same ranking stated against the history: most drawn first |
| Strata.RankByHistoryTies | js/simulation.js:35-36 | numbers drawn equally often stay in ascending order |
| Strata.RankMatchesHistory | js/simulation.js:32-36 | ranking by the counting loop's map equals ranking by the history |
| Strata.RankAsWritten | js/simulation.js:35-36 | the ranking as written: a permutation of 1..n ordered by the count stored under the plain decimal key |
| Strata.RankAsWrittenTies | js/simulation.js:35-36 | as written, numbers with equal looked-up counts stay in ascending order |
| Strata.AsWrittenIgnoresSingleDigits | js/simulation.js:33-36 | as written, the count of every number 1..9 reads 0 whatever the history |
| Strata.AsWrittenOrder | js/simulation.js:35-36 | as written, a number read as 0 comes after every number read as positive |
| Strata.SingleDigitExample | js/simulation.js:33-36 | a history with "05" once: the padded count is 1 but the looked-up count is 0 |
| Strata.NoHistoryKeepsOrder | js/main.js:475-482 | without history the stable sort keeps 1..n in order, as the monolith's unsorted branch does |
| Strata.ChunksOf | js/simulation.js:38-42 | k chunks |
| Strata.BuildChunks | js/simulation.js:38-42 | the push loop builds exactly the k slices of size ceil(len / k) |
| Strata.ChunksPartition | js/simulation.js:38-42 | the chunks, concatenated, give back the ranked list |
| Strata.ChunkRange | js/simulation.js:41 | chunk i is the clamped slice [i·size, (i + 1)·size) |
| Strata.InChunkPosition | js/simulation.js:41 | a member of chunk i sits at a position of that slice |
| Strata.ChunksDisjoint | js/simulation.js:38-42 | chunks of a repeat-free list share no number |
| Strata.QuinaChunks | js/main.js:485 | for 80 numbers the five chunks hold 16 numbers each |
| Strata.FindChunk | js/simulation.js:46 | `findIndex`: the first chunk holding x, or −1 exactly when none does |
| Strata.QuintilePattern | js/simulation.js:44-48 | entry c counts the target's numbers in chunk c; the entries sum to the numbers found in some chunk |
| Strata.PatternCoversTarget | js/simulation.js:44-48 | when the chunks partition 1..n, no target number is missed |
| Strata.FoundInChunks | js/simulation.js:46-47 | every number of 1..n is found in some chunk |
| Strata.StrataPartition | js/simulation.js:38-48 | the chunks of the ranking partition 1..n, and the pattern sums to the target's size |
| Sampling.SortedCandidate | js/simulation.js:97 | sorting distinct numbers in range gives a strictly ascending candidate of the same size |
| Sampling.RandomCandidate | js/simulation.js:92-97 | random mode yields strictly ascending numbers of [1, n]; a full candidate is a game; a short one only when the draws ran out |
| Sampling.PickFromChunk | js/simulation.js:103-111 | at most `needed` distinct numbers, all from the chunk; fewer only when the 100 tries of the safety counter or the draws ran out |
| Sampling.SmartCandidate | js/simulation.js:99-115 | strictly ascending numbers, each from a chunk; at most pattern[c] from chunk c, and complete exactly when every chunk gave pattern[c] |
| Sampling.CollectPicks | js/simulation.js:99-112 | the per-chunk loop: distinct picks, got[c] of them from chunk c with got[c] ≤ pattern[c], complete exactly when every got[c] = pattern[c] |
| Sampling.PickChunk | js/simulation.js:100-111 | one chunk's picks extend the candidate and keep the per-chunk counts |
| Sampling.SmartCandidateIsGame | js/simulation.js:99-115 | a complete smart candidate from chunks of [1, n] is a game |
| Sampling.Indices | js/simulation.js:117 | `[0, 1, …, k − 1]` |
| Sampling.Shuffle | js/simulation.js:117-121 | the Fisher–Yates loop yields a permutation of 0..k − 1 and uses k − 1 draws |
| Sampling.ManualCandidate | js/simulation.js:116-137 | manual mode yields strictly ascending numbers of [1, n], at most k; fewer only when the draws ran out; a candidate of k numbers is a game |
| Search.Formatted | js/simulation.js:171 | one two-digit string per number |
| Search.Step | js/simulation.js:140-179 | one iteration: the candidate's index joins the visited set; a visited one only bumps the safety counter; a new one adds one attempt; found exactly when it is new, accepted and the target |
| Search.ScanCountsNewIndices | js/simulation.js:140-150 | across a frame, attempts grow by exactly the number of newly visited indices |
| Search.ScanKeepsCount | js/simulation.js:140-150 | the invariant attempts = number of visited indices (set bits) is kept |
| Search.ScanMarksRanks | js/simulation.js:140-149 | only indices of supplied candidates get marked |
| Search.ScanStopsWhenFound | js/simulation.js:174-179 | once found, nothing more changes |
| Search.ScanFoundTarget | js/simulation.js:174-179 | found means some accepted candidate formats as the target, and it is shown as bestTry |
| Search.FoundIsTarget | js/simulation.js:171-174 | two games format alike exactly when they are equal, so the match is the target game itself |
| Search.BatchStep | js/methods.js:345-377 | the batch loop: a visited index changes nothing; a new one adds one attempt; only smart mode filters; found exactly on the target |
| Search.BatchCountsNewIndices | js/methods.js:346-353 | the batch loop counts each new index once and at most one attempt per candidate |
| Simulation.Placeholders | js/simulation.js:54 | `Array(k).fill('..')` |
| Simulation.RankPastGames | js/main.js:470-482 | the ranking of 1..n by the filtered earlier games, most drawn first |
| Simulation.ChunkPattern | js/simulation.js:38-48 | the chunks of the ranking and the target's per-chunk counts; they sum to the target's size when the ranking is a permutation |
| Simulation.Values | js/simulation.js:46 | one parsed value per stored number |
| Simulation.BuildStrata | js/main.js:470-485 | chunks of the history ranking, the pattern per chunk, and its sum equals the target's size |
| Simulation.Simulator.constructor | js/simulation.js:7-27 | stopped, smart mode, no attempts, "00:00", no target, default form 140..260 |
| Simulation.Simulator.OpenSimulation | js/simulation.js:29-60 | the run is reset (stopped, smart, 0 attempts, no start time, "00:00"); the target carries its statistics; bestTry holds k placeholders; the chunks and pattern are those of the history ranking; the form is kept |
| Simulation.Simulator.Open | js/simulation.js:50-56 | the new simState fields |
| Simulation.Simulator.Retarget | js/simulation.js:50-56 | the target, chunks and pattern replaced; smart mode, no start time |
| Simulation.Simulator.StartSim | js/simulation.js:61-78 | in manual mode a target the form rejects gives the first violated rule and changes nothing; otherwise the run starts with a zeroed bitmap and 0 attempts, and the first frame is the search from an empty visited set |
| Simulation.Simulator.Begin | js/simulation.js:73-77 | start of a checked run: start time set, bitmap cleared, first frame run |
| Simulation.Simulator.Launch | js/simulation.js:73-77 | the first frame from an empty bitmap is the search from no visited index |
| Simulation.Simulator.Start | js/simulation.js:73-75 | running, start time set, 0 attempts, counting the set bits |
| Simulation.Simulator.Visit | js/simulation.js:140-150 | test-and-set: new exactly when the index was not visited; the index is marked; attempts grow by one only when it was new |
| Simulation.Simulator.Show | js/simulation.js:171-178 | bestTry shows the candidate every 20 attempts and on the target; running stops exactly on the target |
| Simulation.Simulator.SimStep | js/simulation.js:87-179 | one iteration of the loop changes the state as `Search.Step` says |
| Simulation.Simulator.ScanFrame | js/simulation.js:87-180 | a frame's loop changes the state as `Search.Scan` says |
| Simulation.Simulator.RunSimLoop | js/simulation.js:79-184 | nothing happens unless running; otherwise the frame's result is `Scan` from the current state, and the clock shows `formatTime(now − start)` unless the target was hit |
| Simulation.Simulator.RunningFrame | js/simulation.js:81-183 | a frame of a running simulation: `Scan` from the current state, then the clock unless the target was hit |
| Simulation.Simulator.BatchSimStep | js/methods.js:318-377 | one iteration of the batch loop, as `Search.BatchStep` says |
| Simulation.Simulator.RunBatch | js/methods.js:309-382 | nothing unless running; otherwise `BatchScan` over the configured batch size, and the clock updated unless found |
| Simulation.Simulator.RunningBatch | js/methods.js:312-381 | the batch frame of a running simulation |
| Simulation.Simulator.BatchFrame | js/methods.js:318-378 | the batch loop changes the state as `BatchScan` says |
| Simulation.Simulator.StopSim | js/simulation.js:185 | not running |
| Simulation.Simulator.ResetSim | js/simulation.js:186-191 | stopped, 0 attempts, "00:00", k placeholders; everything else kept |
| Computed.AfterStart | js/computed.js:5-16 | exactly the rows dated on or after the start; all rows when no start is set |
| Computed.DateSortedResults | js/computed.js:2-23 | a permutation of the date-filtered rows, ordered by game number per sortOrder |
| Computed.DateSortedMembers | js/computed.js:2-23 | a row is listed exactly when it is dated on or after the start |
| Computed.TotalPages | js/computed.js:24-26 | `Math.ceil(len / size)`: the fewest pages that hold the list |
| Computed.Paginated | js/computed.js:27-30 | at most `size` rows, row i of the page being row (page − 1)·size + i of the list; a page is non-empty exactly when it starts inside the list |
| Computed.PagesCoverList | js/computed.js:24-30 | pages 1..totalPages, concatenated, give back the list |
| Computed.PageNonEmpty | js/computed.js:24-30 | a page holds rows exactly when its number is at most the page count |
| Computed.KeyOrder | js/computed.js:34-37 | the order `Object.keys` lists "01".."80": 10..80 first, then 01..09 |
| Computed.ZeroCounts | js/computed.js:34-37 | the keys "01".."80", each mapped to 0 |
| Computed.CountGame | js/computed.js:39-42 | one game counted: each key grows by its occurrences among the balls; a ball that is not a key is passed over |
| Computed.FrequencyCounts | js/computed.js:31-43 | the map has each of "01".."80", each mapped to its number of occurrences |
| Computed.Entries | js/computed.js:50-52 | 80 entries in key order |
| Computed.KeyPosition | js/computed.js:50 | every number 1..80 has its place in the key order |
| Computed.FrequencyTable | js/computed.js:31-88 | empty for no results; otherwise a permutation of the 80 entries sorted by the chosen column and direction |
| Computed.FrequencyTableTies | js/computed.js:50-87 | entries that tie under the sort key keep the `Object.keys` order (10..80, then 01..09) |
| Computed.FrequencyTableCounts | js/computed.js:31-52 | every entry counts the occurrences of its two-digit number, and every number 01..80 has its entry |
| Computed.FrequencyTableOrder | js/computed.js:77-87 | the table is ordered by number or by count, ascending or descending |
| Computed.BuildFrequencyTable | js/computed.js:31-88 | the counting loops give the specified table |
| Computed.DecadeLabel | js/computed.js:119-122 | "00-09" .. "80-89": both ends with two digits |
| Computed.DecadeLabelReadsBack | js/computed.js:119-122 | the label parses back as 10·d and 10·d + 9 |
| Computed.CountDecades | js/computed.js:113-116 | each ball adds one to the counter of its decade; the total grows by the number of balls |
| Computed.DecadeStats | js/computed.js:107-124 | empty for no results; otherwise 9 labelled buckets, each counting the balls of its decade, adding up to all balls |
| Computed.BucketsOf | js/methods.js:106-111 | one tally line per key with its count |
| Computed.TotalOfBuckets | js/methods.js:106-111 | the lines add up to the counts of their keys |
| Computed.Tally | js/methods.js:99-104 | one game tallied: its value's count grows by one, a new key is appended, and the total grows by one |
| Computed.TallyAll | js/methods.js:99-104 | every key counts the games with that value; the counts add up to the number of games |
| Computed.GenericStats | js/methods.js:94-112 | strictly ascending keys; every count is the number of games with that value and positive; every game's value is listed; the counts add up to the number of games |
| Computed.ListedAscending | js/methods.js:111 | sorted repeat-free keys give strictly ascending tally lines |
| Computed.ListedKeys | js/methods.js:106-111 | every key of the map is listed with its count |
| Computed.ListedTotal | js/methods.js:106-111 | sorting the keys keeps the total |
| Computed.SumInterval | js/computed.js:134-135 | the key is a multiple of 20 with key ≤ sum < key + 20 |
| Computed.EvenCount | js/computed.js:91 | the even count is at most the number of balls |
| Computed.PrimeCount | js/computed.js:102 | the prime count is at most the number of balls |
| Computed.SumStats | js/computed.js:129-154 | ascending multiples of 20, each counting the games whose sum falls in it; every game is listed; the counts add up to the number of games |
| Generator.PoolSize | js/generator.js:63-64 | the second-phase pool: min(floor(0.65·n), len), or min(50, len) in the layered version |
| Generator.Check | js/generator.js:25-33 | the version's validator: the optional bounds, the layered profile or the monolith's checks, returning `analyzeGame`'s statistics on success |
| Generator.SortedNumbersList | js/generator.js:38-42 | one number per table entry, or 1..n without a table |
| Generator.KeyNumber | js/generator.js:39 | a key "01".."80" parses to its number, which pads back to the key |
| Generator.RankedList | js/generator.js:39 | the list holds numbers of 1..80, most drawn first |
| Generator.SortedNumbersRanked | js/generator.js:38-42 | the list holds 80 numbers of 1..80, most drawn first |
| Generator.TableTieOrdered | js/generator.js:38-39 | two table entries with equal counts come in TableRank order |
| Generator.TableTiesOrdered | js/generator.js:38-39 | the frequency table's entries with equal counts come in a fixed order: the key order when sorted by count, the number order when sorted by number |
| Generator.NumbersStrictlyOrdered | js/computed.js:77-82 | sorted by number, the table is strictly ordered in the chosen direction |
| Generator.SortedNumbersTies | js/generator.js:38-42 | numbers drawn equally often come in that fixed order, so the list is determined by the table's column and direction |
| Generator.PhaseOnePick | js/generator.js:58-61 | one number from each chunk; any number of 1..n for an empty chunk |
| Generator.PhaseTwoFrom | js/generator.js:66-69 | the second-phase draw loop as a function: it only extends the candidate, keeps it within the pool and at most k long, and stops short of k only when the draws ran out or the pool is empty |
| Generator.PhaseTwoPick | js/generator.js:63-69 | equals PhaseTwoFrom from an empty candidate; distinct numbers of the pool, at most k; fewer only when the draws ran out or the pool is empty |
| Generator.Normalized | js/generator.js:72 | the candidate without repeats, sorted |
| Generator.NormalizedIsGame | js/generator.js:72-73 | a normalized candidate of k numbers of [1, n] is a game |
| Generator.NormalizedInRange | js/generator.js:72 | removing repeats and sorting keeps every number within the candidate's bounds |
| Generator.CandidateOf | js/generator.js:55-70 | the candidate of one attempt: one number per chunk before 2000 attempts, at most k from the pool after |
| Generator.ChunksInList | js/generator.js:44-48 | every number in a chunk comes from the ranked list |
| Generator.CandidateInRange | js/generator.js:55-70 | when the list holds numbers of [1, n], so does every candidate, in either phase |
| Generator.NextCandidate | js/generator.js:54-72 | attempt a's normalized candidate, drawn from position q on, and the draws it used; its numbers lie in [1, n] |
| Generator.Candidate | js/generator.js:55-70 | equals CandidateOf; phase one before 2000 attempts picks per chunk; later candidates come only from the pool prefix of the list |
| Generator.CandidateStep | js/generator.js:53-72 | the loop's candidate step as a function of the attempt and the draw position; every candidate it gives lies in [1, n] |
| Generator.Tried | js/generator.js:53-72 | the candidates of all attempts, one per attempt, each drawn where the previous attempts stopped |
| Generator.TriedAt | js/generator.js:53-72 | the j-th tried candidate is attempt j + 1's, drawn from the position the first j attempts left |
| Generator.TriedInRange | js/generator.js:53-72 | every tried candidate lies in [1, n] when every step's does |
| Generator.Outcome | js/generator.js:73-78 | a candidate yields a game exactly when it lies in [1, n], has k numbers and passes the validator; the game's numbers parse back to the candidate and carry `analyzeGame`'s statistics |
| Generator.OutcomeOf | js/generator.js:73-78 | for a candidate of [1, n], the judge keeps it exactly when it has k numbers and passes the validator |
| Generator.FirstPassing | js/generator.js:53-79 | the loop over the tried candidates stops at an attempt count between where it starts and the last attempt |
| Generator.FirstPassingFirst | js/generator.js:53-79 | the loop finds nothing exactly when no candidate is kept, and then spends every attempt; otherwise it stops right after the first kept candidate, and keeps that one |
| Generator.ScanAdvance | js/generator.js:53-79 | one attempt: the draws advance by what the attempt used, and the loop stops at this candidate when it is kept, otherwise goes on |
| Generator.Attempt | js/generator.js:54-78 | one attempt's draws and outcome are CandidateStep's and OutcomeOf's; a game it yields is valid |
| Generator.Advance | js/generator.js:53-79 | one iteration of the loop: it either stops the loop with its game, or advances the draw position and leaves the result to later attempts |
| Generator.Generate | js/generator.js:50-79 | the loop's game and attempt count are FirstPassing over the tried candidates; at most 10 000 attempts (5 000 in the monolith), all of them when nothing passed; a result is k ascending distinct numbers in [1, n], two-digit, passing the validator with its statistics |
| Generator.GeneratorPanel.constructor | js/generator.js:7-18 | no game yet; the prime list is the sieve's up to 80 |
| Generator.GeneratorPanel.GenerateOptimizedGame | js/generator.js:34-87 | the game is cleared and then set to the first tried candidate that passes, as a valid game; the alert happens exactly when no tried candidate passes the validator |
| Ui.UiTotalPages | js/ui.js:21-23 | at least 1; 1 for an empty list, `Math.ceil(len / size)` otherwise |
| Ui.ToggledHighlight | js/ui.js:61 | the same number clears the highlight; another one replaces it |
| Ui.ToggleHighlightTwice | js/ui.js:61 | toggling twice restores the highlight exactly when it was empty or that number; another number is lost |
| Ui.FrequencySort | js/ui.js:68-75 | the same column flips the order; a new column starts descending |
| Ui.SortFrequencyTwice | js/ui.js:68-75 | sorting twice by the same column restores column and order |
| Ui.ResultsView.constructor | js/ui.js:5-16 | page 1, 50 rows per page, no highlight, by count descending |
| Ui.ResultsView.TotalPagesNow | js/ui.js:21-23 | at least one page |
| Ui.ResultsView.PaginatedResults | js/ui.js:24-27 | the rows of the current page, at most pageSize; empty only for an empty list |
| Ui.ResultsView.ChangePage | js/ui.js:64-67 | the page moves by dir |
| Ui.ResultsView.NextPage | js/ui.js:62 | one page on unless on the last; 1 ≤ page ≤ totalPages is kept |
| Ui.ResultsView.PrevPage | js/ui.js:63 | one page back unless on the first; 1 ≤ page ≤ totalPages is kept |
| Ui.ResultsView.ToggleHighlight | js/ui.js:61 | the highlight toggles as `ToggledHighlight` says |
| Ui.ResultsView.SortFrequency | js/ui.js:68-75 | the sort changes as `FrequencySort` says |
| Ui.ResultsView.SortedResultsChanged | js/ui.js:17-19 | a new ordered list sends the view back to page 1 |

## Left out

- `js/storage.js` (IndexedDB I/O), the DOM, bootstrap modals, `alert`, `scrollIntoView` and `Papa.parse` file reading are not modelled. Only the mapping of parsed rows is.
- `Math.random`, `Date.now`, `performance.now`, `requestAnimationFrame` and `setTimeout` become parameters, as described above. Probabilities are not modelled, including the 30 % group swap of manual mode. Neither is the probabilistic termination of the rejection loops: they stop when the draws run out.
- Simulation.Simulator.RunSimLoop: a frame is the candidate sequence passed in, standing for the games generated in 12 ms. The generators of `Sampling` are proved separately rather than called inside the loop.
- The heat-map colours (`getHeatMapColor`, the colour branch of `frequencyTable`), `toFixed` percentages, `percentBar`, `maxDecadeCount`, `getProgressBarColor` and the labels of `genericStats` are floating point or presentation, and are not modelled.
- `openDetails` is not modelled: it is a modal plus colour computation over `filterPastGames`, and `filterPastGames` is modelled.
- Text.ParseInt reads only a leading run of decimal digits. JavaScript's `parseInt` also skips leading whitespace and reads a sign: " 5", "+7" and "-3" give 5, 7 and −3 there but 0 here. Any other string without leading digits (NaN in JavaScript) also reads as 0 here. Modelling the sign would make parsed values negative, where the model keeps them natural numbers.
- Core.RowStatsOf: does not model the invalid date of a malformed date field. For a date without two '/' ("2024-01-05", "05/01", "") or with a field that is not a decimal number, JavaScript's `new Date` gives time NaN and the leap test gives false. The model reads the missing fields as 0 and an unreadable field as its leading digits, so time is DayKey(y, m, d) and isLeap is IsLeap(y), which is true for year 0. Filters.CheckFilters then differs on such rows. JavaScript keeps them under a start date (js/filters.js:40, `NaN < start` is false), where the model compares DayKey(y, m, d) and may drop them. JavaScript drops them under the leap-year filter (js/filters.js:45), where the model keeps them when y is 0 or a leap year.
- Computed.DecadeStats requires every ball below 90. Above that, the JavaScript increments a missing array slot (NaN).
- Computed.GenericStats keys the tally by the value `countFn` returns, not by its label. The labels of `evenOddStats` and `primeStats` are one-to-one with the values, so the buckets coincide.
- Computed.Paginated requires page ≥ 1, which `currentPage` always satisfies. `ChangePage` by itself does not keep that bound; `NextPage` and `PrevPage` do.
- Ui.ToggleHighlightTwice is weaker than "toggling twice restores the previous highlight", because that does not hold: with another number highlighted, the second toggle clears it.
- Generator.PhaseTwoPick returns an empty candidate for an empty pool, where the JavaScript loop would not terminate. The pool is empty only when the ranked list is empty.
- Sampling.SmartCandidate can stop short, as the source's safety limit of 100 does. Such a candidate is not ranked: a rank needs k ascending numbers, and the oracle supplies only games.
- Dates are day keys. `new Date` normalisation of out-of-range days or months is not modelled.
- Simulation.RankPastGames ranks by the count read under the two-digit key, as js/main.js:479 does, and not under the number itself as `counts[b]` at js/simulation.js:36 does. The code as written is Strata.RankAsWritten; see Findings.
- Simulation.BuildStrata cuts the corrected ranking of Simulation.RankPastGames into chunks, so its chunks are those of js/main.js:470-485 and not those js/simulation.js:35-42 computes when a number below 10 was drawn.
- Simulation.Simulator.OpenSimulation stores the chunks and pattern of Simulation.BuildStrata, i.e. of the corrected ranking. It differs from js/simulation.js:29-60 exactly where Strata.RankAsWritten differs from Strata.RankByHistory.
- Generator.SortedNumbersList states the order of ties (Generator.SortedNumbersTies) for tables built by Computed.FrequencyTable, the only tables the application passes it.

## Findings

| source | as written | input that shows it | evidently intended | confidence | as-written member | corrected member |
|---|---|---|---|---|---|---|
| js/simulation.js:33-36 (same at js/methods.js:268-271) | the counts are stored under the rows' two-digit strings ("05"), but the sort reads them under `counts[b]` with the number b, i.e. the key "5"; so 1..9 always count 0 and sink below every drawn number | one past game with numbers ["05", "10", "20", "30", "40"]: 5 was drawn once, yet its count reads 0 (the monolith, js/main.js:479, pads the key and reads 1) | rank each number by the count of its two-digit string | not executed | Strata.RankAsWritten, Strata.SingleDigitExample, Strata.AsWrittenIgnoresSingleDigits | Strata.RankByFrequency, Strata.RankMatchesHistory |
