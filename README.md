# PageRank estimators in Dafny

This project models the core of `pagerank.py`, a small PageRank calculator over a
corpus of HTML pages, and proves properties of that model. It covers four parts of
the program:

- **Link cleaning** (`crawl`, module `Graph`). The links found in each file lose the
  file itself and every link to something outside the corpus. The result is a
  `Corpus`, which maps each page to the set of pages it links to.
- **The transition model** (`transition_model` with its inner `find_probab`, module
  `Transition`). This is the probability distribution over the next page, given the
  current page and the damping factor `d`.
- **The sampling estimator** (`sample_pagerank`, module `Sampling`). It is a walk of
  `n` steps. Each step draws from a list in which every page is repeated
  `int(p * n)` times, where `p` is its transition probability. The counts of the
  drawn pages, divided by `n`, are the estimate.
- **The iterative estimator** (`iterate_pagerank`, module `Iteration`). Every rank
  starts at N. Passes over the corpus then rewrite the ranks in place until no rank
  moves by 0.001 or more.

Module `RealArith` holds the arithmetic facts the proofs use.

Conventions:

- Python's dictionary iteration order is a parameter `order: seq<Page>` that lists
  every page exactly once (`Graph.IsOrderOf`).
- Floating point is replaced by exact reals.
- `random.choice` is an oracle. Natural numbers stand for the draws, and each is
  reduced modulo the length of the list it picks from. This makes every possible
  choice expressible.
- Each operation that evaluates the sink guard takes a `SinkTest`, which selects
  how a page without links is recognised:
  - `AsWritten` is the program's own test `corpus[page] == 0`. It compares a set
    with an integer, so it never holds.
  - `Intended` is the test for an empty link set.
- The operations of the iterative estimator take a `SinkRule` instead. It pairs a
  `SinkTest` with the share a recognised page hands to every page in a pass: the
  constant 1/N that the program adds (`OneOverN`), or the page's own rank over N
  (`RankOverN`). There are three named rules:
  - `AsWrittenRule` is the loop as written.
  - `GuardFixedRule` corrects the guard and keeps the constant 1/N.
  - `IntendedRule` corrects both.

Where the program and its stated design differ, the model follows the program:

- Ranks start at N, not 1/N (pagerank.py:136-138).
- A pass updates the ranks in place. Each page's new rank already sees the new ranks
  of the pages before it in the order. It does not use the previous pass's ranks
  (pagerank.py:145-153).
- Pages the walk never visits are absent from the sampled estimate
  (pagerank.py:108-115).
- The walk's first page, picked at pagerank.py:99, is never counted. Only the n
  pages drawn in the loop are tallied (pagerank.py:101-113).
- In a pass, a recognised page without links adds the constant 1/N to every page's
  sum, not its own rank over N (pagerank.py:149).
- A page with no links is treated as described under "## Findings".

## Model

| member | source | states |
|---|---|---|
| Graph.RemoveSelfLinks | pagerank.py:40 | every file keeps the same key; its links become exactly its links minus itself |
| Graph.KeepCorpusLinks | pagerank.py:43-47 | every file keeps the same key; its links become exactly those of its links that are files of the corpus |
| Graph.CleanLinks | pagerank.py:40-47 | the corpus has the files as keys, is well formed (no self links, every target a page) and a file links to `l` exactly when `l` was extracted from it, is not the file itself and is a file of the corpus |
| Graph.CleaningFixesExactlyWellFormed | pagerank.py:40-47 | cleaning leaves a corpus unchanged if and only if it is already well formed |
| Graph.OrderLength | pagerank.py:136 | the iteration order is as long as the corpus, so `len(corpus)` is the number of pages visited by every `for page in corpus` loop |
| Transition.SinkGuardNeverHolds | pagerank.py:67 | the guard as written (a set compared with 0) is false for every link set |
| Transition.PyEquals | pagerank.py:67 | Python's `==` on the two kinds of value the guard compares: two integers or two sets are equal when their values are, and an integer never equals a set |
| Transition.IsSink | pagerank.py:67 | the sink guard: as written, `PyEquals` of the link set and the integer 0, which never holds; corrected, the link set is empty |
| Transition.FindProbab | pagerank.py:62-75 | `find_probab`: 1/N when the guard holds; otherwise (1-d)/N plus d/L for a page among the L links, and (1-d)/N for any other page |
| Transition.Distribution | pagerank.py:77-80 | the distribution has exactly the pages of the corpus as keys |
| Transition.TransitionModel | pagerank.py:52-80 | the loop over the corpus builds exactly the distribution that `find_probab` gives page by page |
| Transition.NonSinkDistribution | pagerank.py:69-75 | for a page with L > 0 links, a linked page gets (1-d)/N + d/L and every other page (1-d)/N |
| Transition.ProbabilitiesInRange | pagerank.py:62-75 | with d in [0, 1] every probability lies in [0, 1] |
| Transition.NonSinkSumsToOne | pagerank.py:62-78 | for a page with links inside the corpus, the probabilities add up to 1 |
| Transition.SinkAsWritten | pagerank.py:67-75 | as written, a page without links gives (1-d)/N to every page, and its distribution adds up to 1-d |
| Transition.SinkIntended | pagerank.py:67-68 | with the corrected guard, a page without links gives 1/N to every page, and its distribution adds up to 1 |
| Transition.IntendedSumsToOne | pagerank.py:62-78 | with the corrected guard, every distribution adds up to 1 |
| Transition.AsWrittenSumsToOneIff | pagerank.py:62-78 | as written, a distribution adds up to 1 if and only if the page has links or d = 0 |
| Transition.SumAtMostOne | pagerank.py:62-78 | with d in [0, 1], under either guard, a distribution never adds up to more than 1 |
| Sampling.CopiesIsFloor | pagerank.py:103 | `int(p * n)` for p, n >= 0 is floor(p * n), and the number of copies is at most p * n |
| Sampling.Trunc | pagerank.py:103 | Python's `int()` on a number: truncation toward zero, floor for a non-negative value |
| Sampling.Copies | pagerank.py:103 | the length of `[page]*int(model[page] * n)`: the truncated product, or 0 when it is negative |
| Sampling.Collection | pagerank.py:102-103 | the list holds only pages of the corpus |
| Sampling.BuildCollection | pagerank.py:102-103 | the `extend` loop builds exactly the weighted list |
| Sampling.CollectionCount | pagerank.py:103 | each page occurs in the list exactly `int(model[page] * n)` times, and a page outside the corpus not at all |
| Sampling.CollectionLength | pagerank.py:103 | the list is at most n times the sum of the probabilities long |
| Sampling.CollectionAtMostN | pagerank.py:102-103 | with d in [0, 1] the list never has more than n elements |
| Sampling.StepCollection | pagerank.py:101-103 | the list built while standing on a page holds only pages of the corpus |
| Sampling.Choose | pagerank.py:105 | `random.choice` succeeds exactly when the list is not empty, and returns one of its elements |
| Sampling.Walk | pagerank.py:96-105 | a walk that does not raise draws one page per step, each a page of the corpus |
| Sampling.WalkStep | pagerank.py:101-105 | one more step extends a successful walk by the page drawn from the list of its current page, or raises IndexError when that list is empty |
| Sampling.WalkFailurePersists | pagerank.py:96-105 | once a step raises IndexError, the whole loop raises it |
| Sampling.CountMapCounts | pagerank.py:108-113 | the counter map has exactly the drawn pages as keys, and each value is the number of times that page was drawn |
| Sampling.Increment | pagerank.py:111-113 | one counted draw: the page's counter is created at 0 when missing, then goes up by 1, and no other counter changes |
| Sampling.CountMap | pagerank.py:108-113 | the counters after a sequence of draws: one increment per draw, in order, starting from the empty map |
| Sampling.Tally | pagerank.py:108-113 | the scan over the corpus increments the counter of the drawn page, creating it at 0, and changes nothing for a page outside the corpus |
| Sampling.CountsToFrequencies | pagerank.py:115 | dividing each counter by n gives the frequency estimate of the drawn pages |
| Sampling.Frequencies | pagerank.py:115 | the estimate: each drawn page mapped to the number of times it was drawn, divided by n |
| Sampling.DrawNext | pagerank.py:101-105 | the model, the weighted list and the draw of one iteration give exactly the oracle's choice from that list |
| Sampling.RecordDraw | pagerank.py:108-113 | counting the drawn page turns the counters of the walk so far into those of the walk one step longer |
| Sampling.CountDraws | pagerank.py:96-113 | the n iterations give the counters of the walk, or IndexError exactly when the walk raises it |
| Sampling.SamplePageRank | pagerank.py:84-116 | the procedure returns exactly the estimate of the sampling model: an empty map for n <= 0, IndexError for an empty corpus or an empty list, otherwise the frequencies of the walk |
| Sampling.WalkFrequencies | pagerank.py:108-115 | the estimate's keys are the pages drawn, each value is its count over n and lies in (0, 1], and the values add up to 1 |
| Sampling.SampleRanksFacts | pagerank.py:84-116 | the estimator raises only when n > 0; for n <= 0 it returns an empty map; otherwise its keys are pages of the corpus and its values lie in (0, 1] and add up to 1 |
| Sampling.SampleRanks | pagerank.py:84-116 | what `sample_pagerank` returns or raises: an empty map for n <= 0; IndexError for an empty corpus, as the first `random.choice` does; otherwise the walk of n draws from the first pick, which raises IndexError when a weighted list is empty and else gives the frequencies of the drawn pages |
| Sampling.CollectionNotEmpty | pagerank.py:102-105 | when a page's distribution adds up to 1 and n >= N, its weighted list is not empty |
| Sampling.WalkSucceeds | pagerank.py:96-105 | when no page's list is empty, the walk never raises |
| Sampling.DistributionsSumToOne | pagerank.py:52-80 | in a well-formed corpus every distribution adds up to 1 under the corrected guard; as written, it does so when d = 0 or no page lacks links |
| Sampling.SamplingSucceeds | pagerank.py:84-116 | in such a corpus with at least one page and n >= N, the estimator never raises IndexError |
| Sampling.PairCollectionEmpty | pagerank.py:103 | in the two-page corpus where each page links to the other, with n = 1, the list is empty, since int(0.075) = int(0.925) = 0 |
| Sampling.FewSamplesFail | pagerank.py:103-105 | for that corpus with n = 1 the estimator raises IndexError, under either guard |
| Iteration.PassPrefixKeys | pagerank.py:145-153 | part of a pass never adds or removes a page |
| Iteration.SinkPart | pagerank.py:149 | what a page the guard recognises adds to another page's sum: 1/N as written, or its rank over N under the corrected rule |
| Iteration.Contribution | pagerank.py:148-152 | what `page2` adds to `probab_sum` for `page1`: its sink share when the guard holds (the `continue` skips the rest); otherwise its rank over its number of links L when it links to `page1`, else nothing |
| Iteration.ProbabSum | pagerank.py:146-152 | `probab_sum` after the inner loop has visited the first k pages of the order: the sum of their contributions, read from the ranks as they stand |
| Iteration.Damped | pagerank.py:153 | the rank formula (1-d)/N + d * `probab_sum` |
| Iteration.NewRank | pagerank.py:153 | the value stored for `page1`: the damped sum of the contributions of all pages |
| Iteration.PassPrefix | pagerank.py:145-153 | the ranks after the outer loop has rewritten the first k pages of the order, each page's new rank computed from the ranks as they stood at its turn |
| Iteration.Pass | pagerank.py:145-153 | a pass keeps exactly the pages of the corpus as keys |
| Iteration.ProbabSumOf | pagerank.py:146-152 | the inner loop computes the sum of the contributions of all pages to `page1` |
| Iteration.OnePass | pagerank.py:145-153 | the nested loops compute exactly one pass |
| Iteration.PassPrefixValues | pagerank.py:145-153 | after the first k pages of a pass, each of them holds the rank computed from the ranks as they stood at its turn, and every later page its old rank |
| Iteration.PassValues | pagerank.py:145-153 | a pass gives each page the damped sum computed from the ranks in which exactly the pages before it have been rewritten (Gauss-Seidel order) |
| Iteration.NewRankLowerBound | pagerank.py:146-153 | with non-negative ranks and d in [0, 1], a new rank is at least (1-d)/N |
| Iteration.PassLowerBound | pagerank.py:145-153 | a pass keeps the ranks non-negative, and every page ends it at (1-d)/N or more |
| Iteration.Settled | pagerank.py:156-158 | the count of settled pages among the first k is at most k |
| Iteration.Close | pagerank.py:157 | the settle test: the old rank minus the new one lies strictly between -0.001 and 0.001 |
| Iteration.AllClose | pagerank.py:156-160 | the loop's exit condition: every page of the corpus passes the settle test |
| Iteration.SettledAllIff | pagerank.py:156-160 | all k counted pages are settled if and only if each one moved by less than 0.001 |
| Iteration.CountSettled | pagerank.py:156-160 | the scan counts the settled pages; the count is at most N, and it equals N exactly when every page moved by less than 0.001 |
| Iteration.SettledMeansAllClose | pagerank.py:156-160 | the count of settled pages is at most N, and it equals N if and only if every page moved by less than 0.001 |
| Iteration.Initial | pagerank.py:135-138 | the starting ranks have exactly the pages of the corpus as keys |
| Iteration.InitialRanks | pagerank.py:135-138 | the initial loop gives every page the rank N |
| Iteration.IterateFrom | pagerank.py:141-164 | at most `fuel` more passes of the `while True` loop: each pass copies the ranks, rewrites them, and stops with the new ranks once every page has settled; when the fuel runs out, the ranks so far are returned as `OutOfFuel` |
| Iteration.IterateRanks | pagerank.py:135-164 | `iterate_pagerank`: that loop started from rank N for every page |
| Iteration.IteratePageRank | pagerank.py:126-164 | the loop returns exactly the outcome of the iteration model, stopping at the first pass that settles every page or when the fuel runs out |
| Iteration.ConvergedMeansSettled | pagerank.py:141-164 | a converged result has every page as a key, and it is one pass applied to ranks that agree with it to within 0.001 on every page |
| Iteration.OutcomeLowerBound | pagerank.py:141-164 | the result keeps every page as a key; after at least one pass with d in [0, 1], every rank is at least (1-d)/N |
| Iteration.LonelyAsWritten | pagerank.py:148-150 | as written, for a corpus of one page without links and d = 0.85, the loop converges to rank 0.15, so the ranks do not add up to 1 |
| Iteration.LonelyIntended | pagerank.py:148-150 | with the corrected rule, that corpus converges to rank 1 |
| Iteration.ChainGuardFixed | pagerank.py:148-149 | with only the guard corrected, the corpus where a and b link to c and c has no links converges in two passes, with d = 0.85, to 1/3, 1/3 and 9/10, which add up to 47/30 |
| Iteration.ChainIntended | pagerank.py:145-153 | with the corrected rule that corpus has the exact fixed point 10/47, 10/47, 27/47. A pass from it changes nothing, the loop stops after that pass, and the ranks add up to 1 |
| Iteration.InflowsAreOutflows | pagerank.py:145-152 | the total that a set of pages receives from another set equals the total the second set hands to the first |
| Iteration.OutflowIsRank | pagerank.py:148-152 | under the corrected rule, a page whose links all lie in the corpus hands out, over one pass, exactly its own rank |
| Iteration.OutflowsAreRanks | pagerank.py:145-152 | in a well-formed corpus under the corrected rule, what the first b pages hand out adds up to the sum of their ranks |
| Iteration.FixedPrefix | pagerank.py:145-153 | if a whole pass changes no rank, then neither does any part of it |
| Iteration.FixedPointSatisfiesEquations | pagerank.py:145-153 | at a fixed point of a pass, every rank equals (1-d)/N plus d times the sum of what its page receives |
| Iteration.SumOfDamped | pagerank.py:153 | at such a fixed point, the first k ranks add up to k times (1-d)/N plus d times what those k pages receive |
| Iteration.FixedPointSumsToOne | pagerank.py:145-153 | under the corrected rule, with d != 1, the ranks at an exact fixed point of a pass over a well-formed corpus add up to 1 |

## Left out

- `main`, the command line and the printed results (pagerank.py:11-22) are not modelled: they are input and output only. The constants `DAMPING = 0.85` and `SAMPLES = 10000` (pagerank.py:7-8) become the parameters `d` and `n`.
- Listing the directory, filtering `.html` names, reading the files and the link regular expression (pagerank.py:34-39) are not modelled; `Graph.CleanLinks` takes the links extracted from each file as its input.
- `random.choice` is replaced by an oracle of natural numbers. Nothing is stated about the statistics of the draws, so the model makes no claim about how close the sampled estimate comes to PageRank.
- Floating-point rounding is not modelled; all arithmetic is on exact reals. `int(model[page] * n)` truncates an exact product.
- Iteration.IterateRanks: the source loops until convergence with no bound. The model caps the number of passes with `fuel` and reports `OutOfFuel` when the cap is reached, and termination of the unbounded loop is not proved.
- `copy.deepcopy(pagerank_dict)` (pagerank.py:144) is a copy of an immutable map value; the model has no aliasing to rule out.
- Transition.Distribution: requires `page in corpus`. The source would raise KeyError otherwise, but every caller passes a page of the corpus.
- Iteration.RankOf: its default of 0 for a missing page is never read, because every pass keeps all the pages (`Iteration.PassPrefixKeys`).
- Iteration.IteratePageRank: its result is not proved to add up to 1. The loop stops once no rank moved by 0.001 or more (pagerank.py:156-160), not at an exact fixed point, so even under the corrected rule the returned ranks only come near one; `Iteration.FixedPointSumsToOne` covers exact fixed points only. Under the rule as written, a page without links receives rank but passes none on, so the sum is not 1 (`Iteration.LonelyAsWritten`, `Iteration.ChainGuardFixed`). That the unbounded loop converges at all is not proved either.

## Findings

| source | as written | input that shows it | evidently intended | confidence | as-written member | corrected member |
|---|---|---|---|---|---|---|
| pagerank.py:67 | `corpus[page] == 0` compares a set with an integer and is always false, so a page without links gives (1-d)/N to every page and its distribution adds up to 1-d | a corpus where some page has no links, with d = 0.85: its distribution sums to 0.15 | a page without links spreads its probability uniformly, 1/N to every page, summing to 1 | high, not executed | Transition.SinkAsWritten | Transition.SinkIntended |
| pagerank.py:148 | the same always-false guard in the iteration: a page without links contributes nothing to any page | the one-page corpus `{"a.html": {}}` with d = 0.85 converges to rank 0.15 | a page without links spreads its rank over every page, and the lone page keeps rank 1 | high, not executed | Iteration.LonelyAsWritten | Iteration.LonelyIntended |
| pagerank.py:149 | once the guard holds, a page without links adds the constant 1/N to every page, whatever its own rank, so the ranks still do not add up to 1 | the corpus where `a.html` and `b.html` link to `c.html` and `c.html` has no links, with d = 0.85, converges to 1/3, 1/3 and 9/10, which add up to 47/30 | a page without links adds its rank over N to every page, as if it linked to all of them, so every fixed point sums to 1 (10/47, 10/47, 27/47 for that corpus) | high, not executed | Iteration.ChainGuardFixed | Iteration.FixedPointSumsToOne |

Transition.SinkGuardNeverHolds and Transition.AsWrittenSumsToOneIff state the
as-written behaviour of the guard at pagerank.py:67 for every input, and
Transition.IntendedSumsToOne states the corrected behaviour. Iteration.ChainIntended
shows the fixed point of the corrected iteration for the chain corpus. The model takes
the guard as a `SinkTest` parameter, and the iteration's treatment of such a page as
a `SinkRule`, so every operation is available both as written and corrected.
