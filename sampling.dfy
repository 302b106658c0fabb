/** The sampling estimator (pagerank.py `sample_pagerank`): a random walk of n
    steps over the corpus, each step drawn from a list in which every page is
    repeated in proportion to its transition probability. The calls to
    `random.choice` are an oracle: `first` picks the initial page and
    `steps[i]` the element drawn at step i, each reduced modulo the length of
    the list it picks from, so every choice `random.choice` could make is one
    of the oracle's. */
module Sampling {
  import opened Graph
  import opened Transition
  import opened RealArith

  /** `random.choice` on an empty list raises IndexError. */
  datatype Error = IndexError

  datatype Result<T> = Success(value: T) | Failure(error: Error)

  // ---------------------------------------------------------------------------
  // The weighted list
  // ---------------------------------------------------------------------------

  /** Python's `int(x)`: truncation toward zero. */
  function Trunc(x: real): int {
    if x >= 0.0 then x.Floor else -((-x).Floor)
  }

  /** The length of `[page] * int(p * n)`: a negative factor gives the empty list. */
  function Copies(p: real, n: int): nat {
    var k := Trunc(p * n as real);
    if k < 0 then 0 else k
  }

  /** For a probability and a sample count that are not negative, the number
      of copies is floor(p * n). */
  lemma {:induction false} CopiesIsFloor(p: real, n: int)
    requires 0.0 <= p && 0 <= n
    ensures Copies(p, n) == (p * n as real).Floor
    ensures Copies(p, n) as real <= p * n as real
  {
    ProductBound(n as real, 0.0);
    assert 0.0 <= p * n as real;
  }

  /** `collection`: every page of `model`, in the model's key order, repeated `Copies` times. */
  function Collection(order: seq<Page>, model: map<Page, real>, n: int): (c: seq<Page>)
    requires forall i :: 0 <= i < |order| ==> order[i] in model
    ensures forall x :: x in c ==> x in order
  {
    if order == [] then []
    else
      var last := order[|order| - 1];
      Collection(order[..|order| - 1], model, n) + seq(Copies(model[last], n), _ => last)
  }

  /** pagerank.py:102-103: extends `collection` page by page. */
  method BuildCollection(model: map<Page, real>, order: seq<Page>, n: int) returns (collection: seq<Page>)
    requires forall i :: 0 <= i < |order| ==> order[i] in model
    ensures collection == Collection(order, model, n)
  {
    collection := [];
    for i := 0 to |order|
      invariant collection == Collection(order[..i], model, n)
    {
      var page := order[i];
      assert order[..i + 1][..i] == order[..i];
      collection := collection + seq(Copies(model[page], n), _ => page);
    }
    assert order[..|order|] == order;
  }

  /** Each page of the order occurs in the collection exactly `Copies` times; no other page occurs. */
  lemma {:induction false} CollectionCount(order: seq<Page>, model: map<Page, real>, n: int, p: Page)
    requires forall i :: 0 <= i < |order| ==> order[i] in model
    requires Distinct(order)
    ensures Count(Collection(order, model, n), p) == if p in order then Copies(model[p], n) else 0
  {
    if order == [] {
    } else {
      var init, last := order[..|order| - 1], order[|order| - 1];
      var block := seq(Copies(model[last], n), _ => last);
      CollectionCount(init, model, n, p);
      CountConcat(Collection(init, model, n), block, p);
      RepeatCount(last, Copies(model[last], n), p);
      assert p in order <==> p in init || p == last;
      if p == last {
        assert p !in init;
      }
    }
  }

  lemma {:induction false} RepeatCount(x: Page, k: nat, p: Page)
    ensures Count(seq(k, _ => x), p) == if p == x then k else 0
  {
    if k > 0 {
      assert seq(k, _ => x)[..k - 1] == seq(k - 1, _ => x);
      RepeatCount(x, k - 1, p);
    }
  }

  /** With no negative probabilities the collection holds at most n * (their sum) elements. */
  lemma {:induction false} CollectionLength(order: seq<Page>, model: map<Page, real>, n: int)
    requires forall i :: 0 <= i < |order| ==> order[i] in model && model[order[i]] >= 0.0
    requires n >= 0
    ensures |Collection(order, model, n)| as real <= Times(n, Sum(order, model))
  {
    if order == [] {
      ZeroProduct(n as real);
      assert Times(n, Sum(order, model)) == 0.0;
    } else {
      CollectionLength(order[..|order| - 1], model, n);
      CollectionLengthStep(order, model, n);
    }
  }

  /** One step of the bound: adding the copies of the last page keeps it. */
  lemma {:induction false} CollectionLengthStep(order: seq<Page>, model: map<Page, real>, n: int)
    requires forall i :: 0 <= i < |order| ==> order[i] in model && model[order[i]] >= 0.0
    requires n >= 0 && order != []
    requires |Collection(order[..|order| - 1], model, n)| as real <= Times(n, Sum(order[..|order| - 1], model))
    ensures |Collection(order, model, n)| as real <= Times(n, Sum(order, model))
  {
    var init, last := order[..|order| - 1], order[|order| - 1];
    CopiesBound(model[last], n);
    CollectionSnoc(order, model, n);
    AddBounds(|Collection(init, model, n)|, Copies(model[last], n), |Collection(order, model, n)|,
      n, Sum(init, model), model[last], Sum(order, model));
  }

  lemma {:induction false} CopiesBound(p: real, n: int)
    requires 0.0 <= p && 0 <= n
    ensures Copies(p, n) as real <= p * n as real
  {
    CopiesIsFloor(p, n);
  }

  lemma {:induction false} CollectionSnoc(order: seq<Page>, model: map<Page, real>, n: int)
    requires forall i :: 0 <= i < |order| ==> order[i] in model
    requires order != []
    ensures var init, last := order[..|order| - 1], order[|order| - 1];
      && |Collection(order, model, n)| == |Collection(init, model, n)| + Copies(model[last], n)
      && Sum(order, model) == Sum(init, model) + model[last]
  {
  }

  /** For a damping factor in [0, 1] and links inside the corpus, the list
      built for any page is at most n long. */
  lemma {:induction false} CollectionAtMostN(corpus: Corpus, order: seq<Page>, page: Page, d: real, test: SinkTest, n: int)
    requires IsOrderOf(corpus, order) && page in corpus && corpus[page] <= corpus.Keys
    requires 0.0 <= d <= 1.0 && n >= 0
    ensures |Collection(order, Distribution(corpus, page, d, test), n)| <= n
  {
    var model := Distribution(corpus, page, d, test);
    forall i | 0 <= i < |order| ensures order[i] in model && model[order[i]] >= 0.0 {
      ProbabInRange(corpus, page, d, test, order[i]);
    }
    SumAtMostOne(corpus, order, page, d, test);
    CollectionWithinN(order, model, n);
  }

  lemma {:induction false} CollectionWithinN(order: seq<Page>, model: map<Page, real>, n: int)
    requires forall i :: 0 <= i < |order| ==> order[i] in model && model[order[i]] >= 0.0
    requires n >= 0 && Sum(order, model) <= 1.0
    ensures |Collection(order, model, n)| <= n
  {
    CollectionLength(order, model, n);
    AtMostScaled(|Collection(order, model, n)| as real, n, Sum(order, model));
  }

  // ---------------------------------------------------------------------------
  // The walk
  // ---------------------------------------------------------------------------

  /** The page the surfer stands on: the last page drawn, or the initial page. */
  function Current(start: Page, drawn: seq<Page>): Page {
    if drawn == [] then start else drawn[|drawn| - 1]
  }

  /** The collection built while standing on `current`. */
  function StepCollection(corpus: Corpus, order: seq<Page>, d: real, test: SinkTest, n: int, current: Page): (c: seq<Page>)
    requires IsOrderOf(corpus, order) && current in corpus
    ensures forall x :: x in c ==> x in corpus
  {
    Collection(order, Distribution(corpus, current, d, test), n)
  }

  /** `random.choice(c)` with the oracle index `choice`: IndexError on an empty list. */
  function Choose(c: seq<Page>, choice: nat): (r: Result<Page>)
    ensures r.Success? <==> |c| > 0
    ensures r.Success? ==> r.value in c
  {
    if |c| == 0 then Failure(IndexError) else Success(c[choice % |c|])
  }

  /** The pages drawn by the first |steps| iterations of the sampling loop
      from the initial page `start`; IndexError when one of the lists is empty. */
  function Walk(corpus: Corpus, order: seq<Page>, d: real, test: SinkTest, n: int, start: Page, steps: seq<nat>)
    : (r: Result<seq<Page>>)
    requires IsOrderOf(corpus, order) && start in corpus
    ensures r.Success? ==> |r.value| == |steps| && forall x :: x in r.value ==> x in corpus
    decreases |steps|
  {
    if steps == [] then Success([])
    else
      match Walk(corpus, order, d, test, n, start, steps[..|steps| - 1])
      case Failure(e) => Failure(e)
      case Success(drawn) =>
        match Choose(StepCollection(corpus, order, d, test, n, Current(start, drawn)), steps[|steps| - 1])
        case Failure(e) => Failure(e)
        case Success(next) => Success(drawn + [next])
  }

  /** Each key is a page drawn at least once, its value the number of draws over n. */
  function Frequencies(drawn: seq<Page>, n: int): map<Page, real>
    requires n > 0
  {
    map p | p in drawn :: Count(drawn, p) as real / n as real
  }

  /** What `sample_pagerank(corpus, damping_factor, n)` returns or raises. */
  function SampleRanks(corpus: Corpus, order: seq<Page>, d: real, test: SinkTest, n: int, first: nat, steps: seq<nat>)
    : Result<map<Page, real>>
    requires IsOrderOf(corpus, order)
    requires n > 0 ==> |steps| == n
  {
    if n <= 0 then Success(map[])
    else if |order| == 0 then Failure(IndexError)
    else
      match Walk(corpus, order, d, test, n, order[first % |order|], steps)
      case Failure(e) => Failure(e)
      case Success(drawn) => Success(Frequencies(drawn, n))
  }

  // ---------------------------------------------------------------------------
  // The sampling loop
  // ---------------------------------------------------------------------------

  /** `counts[x] += 1`, creating the entry at 0 first. */
  function Increment(counts: map<Page, int>, x: Page): map<Page, int>
  {
    counts[x := (if x in counts then counts[x] else 0) + 1]
  }

  /** The counter map after the draws `w`, one increment per draw. */
  function CountMap(w: seq<Page>): map<Page, int>
  {
    if w == [] then map[] else Increment(CountMap(w[..|w| - 1]), w[|w| - 1])
  }

  /** The counter map holds exactly the pages drawn, each with its number of draws. */
  lemma {:induction false} CountMapCounts(w: seq<Page>)
    ensures CountMap(w).Keys == Elements(w)
    ensures forall p :: p in CountMap(w) ==> CountMap(w)[p] == Count(w, p)
  {
    if w != [] {
      var v, x := w[..|w| - 1], w[|w| - 1];
      CountMapCounts(v);
      assert w == v + [x];
      CountPositive(v, x);
    }
  }

  lemma {:induction false} CountMapAppend(w: seq<Page>, x: Page)
    ensures CountMap(w + [x]) == Increment(CountMap(w), x)
  {
    assert (w + [x])[..|w|] == w;
  }

  /** One more iteration of the sampling loop extends the walk by the element
      chosen from the list built at the current page, or fails on an empty list. */
  lemma {:induction false} WalkStep(corpus: Corpus, order: seq<Page>, d: real, test: SinkTest, n: int, start: Page,
                 steps: seq<nat>, i: nat, drawn: seq<Page>)
    requires IsOrderOf(corpus, order) && start in corpus && i < |steps|
    requires Walk(corpus, order, d, test, n, start, steps[..i]) == Success(drawn)
    ensures var next := Choose(StepCollection(corpus, order, d, test, n, Current(start, drawn)), steps[i]);
      Walk(corpus, order, d, test, n, start, steps[..i + 1])
      == if next.Failure? then Failure(IndexError) else Success(drawn + [next.value])
  {
    assert steps[..i + 1][..i] == steps[..i];
  }

  /** Once the walk has failed, a longer run of the loop fails too. */
  lemma {:induction false} WalkFailurePersists(corpus: Corpus, order: seq<Page>, d: real, test: SinkTest, n: int,
                                               start: Page, steps: seq<nat>, k: nat)
    requires IsOrderOf(corpus, order) && start in corpus && k <= |steps|
    requires Walk(corpus, order, d, test, n, start, steps[..k]).Failure?
    ensures Walk(corpus, order, d, test, n, start, steps).Failure?
    decreases |steps| - k
  {
    if k == |steps| {
      assert steps[..k] == steps;
    } else {
      var longer := steps[..|steps| - 1];
      assert longer[..k] == steps[..k];
      WalkFailurePersists(corpus, order, d, test, n, start, longer, k);
    }
  }

  /** pagerank.py:108-113: the scan over the corpus that counts the page drawn. */
  method Tally(order: seq<Page>, counts: map<Page, int>, sample: Page) returns (updated: map<Page, int>)
    requires Distinct(order)
    ensures updated == if sample in order then Increment(counts, sample) else counts
  {
    updated := counts;
    for j := 0 to |order|
      invariant updated == if sample in order[..j] then Increment(counts, sample) else counts
    {
      assert order[..j + 1] == order[..j] + [order[j]];
      if sample == order[j] {
        if sample !in updated {
          updated := updated[sample := 0];
        }
        updated := updated[sample := updated[sample] + 1];
      }
    }
    assert order[..|order|] == order;
  }

  /** Counting a drawn page of the corpus turns the counts of a walk into the counts of the walk one step longer. */
  lemma {:induction false} TallyExtends(order: seq<Page>, drawn: seq<Page>, sample: Page, counts: map<Page, int>, updated: map<Page, int>)
    requires counts == CountMap(drawn) && sample in order
    requires updated == (if sample in order then Increment(counts, sample) else counts)
    ensures updated == CountMap(drawn + [sample])
  {
    CountMapAppend(drawn, sample);
  }

  /** `{k: v/n for k, v in counts.items()}` on the counts of a walk is its frequency map. */
  lemma {:induction false} CountsToFrequencies(drawn: seq<Page>, n: int)
    requires n > 0
    ensures (map k | k in CountMap(drawn) :: CountMap(drawn)[k] as real / n as real) == Frequencies(drawn, n)
  {
    CountMapCounts(drawn);
  }

  /** pagerank.py:101-105: the choice from the list built at `sample`, or IndexError when it is empty. */
  method DrawNext(corpus: Corpus, order: seq<Page>, d: real, test: SinkTest, n: int, sample: Page, choice: nat)
    returns (next: Result<Page>)
    requires IsOrderOf(corpus, order) && sample in corpus
    ensures next == Choose(StepCollection(corpus, order, d, test, n, sample), choice)
  {
    var model := TransitionModel(corpus, order, sample, d, test);
    var collection := BuildCollection(model, order, n);
    if |collection| == 0 {
      return Failure(IndexError);
    }
    next := Success(collection[choice % |collection|]);
  }

  /** The counting of one iteration: the counter map of the walk so far becomes
      that of the walk extended by the page drawn. */
  method RecordDraw(order: seq<Page>, counts: map<Page, int>, sample: Page, ghost drawn: seq<Page>)
    returns (updated: map<Page, int>, ghost extended: seq<Page>)
    requires Distinct(order) && sample in order && counts == CountMap(drawn)
    ensures updated == CountMap(drawn + [sample])
    ensures extended == drawn + [sample]
  {
    updated := Tally(order, counts, sample);
    TallyExtends(order, drawn, sample, counts, updated);
    extended := drawn + [sample];
  }

  /** pagerank.py:96-113: the n iterations of the sampling loop from the page
      `start`, returning the counter map, or IndexError from an empty list. */
  method CountDraws(corpus: Corpus, order: seq<Page>, d: real, test: SinkTest, n: nat, start: Page, steps: seq<nat>)
    returns (counts: Result<map<Page, int>>)
    requires IsOrderOf(corpus, order) && start in corpus && |steps| == n
    ensures var walk := Walk(corpus, order, d, test, n, start, steps);
      counts == if walk.Failure? then Failure(IndexError) else Success(CountMap(walk.value))
  {
    var tally: map<Page, int> := map[];
    var sample := start;
    ghost var drawn: seq<Page> := [];
    for i := 0 to n
      invariant Walk(corpus, order, d, test, n, start, steps[..i]) == Success(drawn)
      invariant sample == Current(start, drawn) && sample in corpus
      invariant tally == CountMap(drawn)
    {
      var next := DrawNext(corpus, order, d, test, n, sample, steps[i]);
      WalkStep(corpus, order, d, test, n, start, steps, i, drawn);
      if next.Failure? {
        WalkFailurePersists(corpus, order, d, test, n, start, steps, i + 1);
        return Failure(IndexError);
      }
      sample := next.value;
      tally, drawn := RecordDraw(order, tally, sample, drawn);
    }
    assert steps[..n] == steps;
    counts := Success(tally);
  }

  /** `sample_pagerank(corpus, damping_factor, n)`. */
  method SamplePageRank(corpus: Corpus, order: seq<Page>, d: real, test: SinkTest, n: int, first: nat, steps: seq<nat>)
    returns (result: Result<map<Page, real>>)
    requires IsOrderOf(corpus, order)
    requires n > 0 ==> |steps| == n
    ensures result == SampleRanks(corpus, order, d, test, n, first, steps)
  {
    if n <= 0 {
      return Success(map[]);
    }
    if |order| == 0 {
      return Failure(IndexError);
    }
    var sample := order[first % |order|];
    var counts := CountDraws(corpus, order, d, test, n, sample, steps);
    if counts.Failure? {
      return Failure(IndexError);
    }
    ghost var drawn := Walk(corpus, order, d, test, n, sample, steps).value;
    CountsToFrequencies(drawn, n);
    result := Success(map k | k in counts.value :: counts.value[k] as real / n as real);
  }

  // ---------------------------------------------------------------------------
  // What the estimate satisfies
  // ---------------------------------------------------------------------------

  /** The frequencies over the order add up to the counts over the order divided by n. */
  lemma {:induction false} FrequencySum(order: seq<Page>, drawn: seq<Page>, n: nat)
    requires n > 0
    ensures Sum(order, Frequencies(drawn, n)) == CountTotal(order, drawn) as real / n as real
  {
    var f := Frequencies(drawn, n);
    if order == [] {
    } else {
      var init, last := order[..|order| - 1], order[|order| - 1];
      FrequencySum(init, drawn, n);
      CountPositive(drawn, last);
      AddShares(CountTotal(init, drawn), Count(drawn, last), n);
      assert CountTotal(order, drawn) == CountTotal(init, drawn) + Count(drawn, last);
      assert (if last in f then f[last] else 0.0) == Count(drawn, last) as real / n as real;
    }
  }

  /** The estimate from a completed walk of n draws: its keys are exactly the
      pages drawn, each value is that page's count over n and lies in (0, 1],
      the counts add up to n and the values to 1. */
  lemma {:induction false} WalkFrequencies(order: seq<Page>, drawn: seq<Page>, n: int)
    requires Distinct(order) && (forall x :: x in drawn ==> x in order)
    requires n > 0 && |drawn| == n
    ensures Frequencies(drawn, n).Keys == Elements(drawn)
    ensures forall p :: p in drawn ==> Frequencies(drawn, n)[p] == Count(drawn, p) as real / n as real
    ensures forall p :: p in drawn ==> 0.0 < Frequencies(drawn, n)[p] <= 1.0
    ensures CountTotal(order, drawn) == n
    ensures Sum(order, Frequencies(drawn, n)) == 1.0
  {
    var ranks := Frequencies(drawn, n);
    forall p | p in drawn ensures 0.0 < ranks[p] <= 1.0 {
      CountPositive(drawn, p);
      ShareInRange(Count(drawn, p), n);
    }
    CountTotalIsLength(order, drawn);
    FrequencySum(order, drawn, n);
    WholeShare(n);
  }

  /** Keys among the pages of the corpus, values in (0, 1] adding up to 1 over the corpus. */
  predicate RanksFacts(corpus: Corpus, order: seq<Page>, ranks: map<Page, real>) {
    && ranks.Keys <= corpus.Keys
    && (forall p :: p in ranks ==> 0.0 < ranks[p] <= 1.0)
    && Sum(order, ranks) == 1.0
  }

  /** `sample_pagerank` either raises IndexError (only when n > 0) or returns
      an estimate whose keys are the pages drawn: none for n <= 0, otherwise
      pages of the corpus with values in (0, 1] that add up to 1. */
  lemma {:induction false} SampleRanksFacts(corpus: Corpus, order: seq<Page>, d: real, test: SinkTest, n: int, first: nat, steps: seq<nat>)
    requires IsOrderOf(corpus, order)
    requires n > 0 ==> |steps| == n
    ensures SampleRanks(corpus, order, d, test, n, first, steps).Failure? ==> n > 0
    ensures n <= 0 ==> SampleRanks(corpus, order, d, test, n, first, steps) == Success(map[])
    ensures n > 0 && SampleRanks(corpus, order, d, test, n, first, steps).Success? ==>
      RanksFacts(corpus, order, SampleRanks(corpus, order, d, test, n, first, steps).value)
  {
    if n > 0 && |order| > 0 {
      var start := order[first % |order|];
      match Walk(corpus, order, d, test, n, start, steps)
      case Failure(_) =>
      case Success(drawn) =>
        WalkFrequencies(order, drawn, n);
    }
  }

  // ---------------------------------------------------------------------------
  // When the walk cannot fail
  // ---------------------------------------------------------------------------

  /** Values all below c add up to less than |order| * c. */
  lemma {:induction false} SumBelow(order: seq<Page>, m: map<Page, real>, c: real)
    requires order != []
    requires forall i :: 0 <= i < |order| ==> order[i] in m && m[order[i]] < c
    ensures Sum(order, m) < |order| as real * c
  {
    var init, last := order[..|order| - 1], order[|order| - 1];
    assert Sum(order, m) == Sum(init, m) + m[last];
    SuccTimes(|init|, c);
    if init != [] {
      SumBelow(init, m, c);
    }
  }

  /** Among n pages whose values add up to 1, some page has at least 1/n. */
  lemma {:induction false} SomeLargeShare(order: seq<Page>, m: map<Page, real>, n: nat)
    requires n > 0 && |order| == n
    requires forall i :: 0 <= i < |order| ==> order[i] in m
    requires Sum(order, m) == 1.0
    ensures exists i :: 0 <= i < |order| && m[order[i]] >= 1.0 / n as real
  {
    if forall i :: 0 <= i < |order| ==> m[order[i]] < 1.0 / n as real {
      SumBelow(order, m, 1.0 / n as real);
      CopiesOfShare(|order|, n, 1.0);
    }
  }

  /** A page with at least one copy makes the list nonempty. */
  lemma {:induction false} CollectionHasPage(order: seq<Page>, model: map<Page, real>, n: int, i: nat)
    requires forall j :: 0 <= j < |order| ==> order[j] in model
    requires Distinct(order) && i < |order|
    requires Times(n, model[order[i]]) >= 1.0
    ensures |Collection(order, model, n)| > 0
  {
    CopiesAtLeastOne(model[order[i]], n);
    CollectionCount(order, model, n, order[i]);
    CountPositive(Collection(order, model, n), order[i]);
  }

  lemma {:induction false} CopiesAtLeastOne(p: real, n: int)
    requires Times(n, p) >= 1.0
    ensures Copies(p, n) >= 1
  {
    assert p * n as real == Times(n, p);
  }

  /** With at least as many samples as pages and a distribution that adds up
      to 1, the list built at `page` is not empty. */
  lemma {:induction false} CollectionNotEmpty(corpus: Corpus, order: seq<Page>, page: Page, d: real, test: SinkTest, n: int)
    requires IsOrderOf(corpus, order) && page in corpus
    requires Sum(order, Distribution(corpus, page, d, test)) == 1.0
    requires n >= |corpus|
    ensures |StepCollection(corpus, order, d, test, n, page)| > 0
  {
    var model := Distribution(corpus, page, d, test);
    OrderLength(corpus, order);
    SomeLargeShare(order, model, |corpus|);
    var i :| 0 <= i < |order| && model[order[i]] >= 1.0 / |corpus| as real;
    ShareTimesCount(model[order[i]], |corpus|, n);
    CollectionHasPage(order, model, n, i);
  }

  /** Every page's transition distribution adds up to 1. */
  predicate AllSumToOne(corpus: Corpus, order: seq<Page>, d: real, test: SinkTest) {
    forall p {:trigger Distribution(corpus, p, d, test)} :: p in corpus ==> Sum(order, Distribution(corpus, p, d, test)) == 1.0
  }

  /** The list built at every page of the corpus is not empty. */
  predicate AllStepsNonEmpty(corpus: Corpus, order: seq<Page>, d: real, test: SinkTest, n: int)
    requires IsOrderOf(corpus, order)
  {
    forall p {:trigger StepCollection(corpus, order, d, test, n, p)} :: p in corpus ==> |StepCollection(corpus, order, d, test, n, p)| > 0
  }

  /** With at least as many samples as pages, distributions that add up to 1
      give nonempty lists everywhere. */
  lemma {:induction false} SumsGiveNonEmptySteps(corpus: Corpus, order: seq<Page>, d: real, test: SinkTest, n: int)
    requires IsOrderOf(corpus, order) && n >= |corpus|
    requires AllSumToOne(corpus, order, d, test)
    ensures AllStepsNonEmpty(corpus, order, d, test, n)
  {
    forall p | p in corpus ensures |StepCollection(corpus, order, d, test, n, p)| > 0 {
      CollectionNotEmpty(corpus, order, p, d, test, n);
    }
  }

  /** When every list is nonempty, a walk that has not failed yet does not
      fail at the next step. */
  lemma {:induction false} WalkStepSucceeds(corpus: Corpus, order: seq<Page>, d: real, test: SinkTest, n: int, start: Page, steps: seq<nat>)
    requires IsOrderOf(corpus, order) && start in corpus
    requires AllStepsNonEmpty(corpus, order, d, test, n)
    requires steps != [] && Walk(corpus, order, d, test, n, start, steps[..|steps| - 1]).Success?
    ensures Walk(corpus, order, d, test, n, start, steps).Success?
  {
    var drawn := Walk(corpus, order, d, test, n, start, steps[..|steps| - 1]).value;
    assert drawn != [] ==> drawn[|drawn| - 1] in drawn;
    assert Current(start, drawn) in corpus;
  }

  /** When every list is nonempty, no step of the walk raises. */
  lemma {:induction false} WalkSucceeds(corpus: Corpus, order: seq<Page>, d: real, test: SinkTest, n: int, start: Page, steps: seq<nat>)
    requires IsOrderOf(corpus, order) && start in corpus
    requires AllStepsNonEmpty(corpus, order, d, test, n)
    ensures Walk(corpus, order, d, test, n, start, steps).Success?
    decreases |steps|
  {
    if steps != [] {
      WalkSucceeds(corpus, order, d, test, n, start, steps[..|steps| - 1]);
      WalkStepSucceeds(corpus, order, d, test, n, start, steps);
    }
  }

  /** Every distribution adds up to 1 under the intended sink guard, and as
      written when no page is a sink or d is 0. */
  lemma {:induction false} DistributionsSumToOne(corpus: Corpus, order: seq<Page>, d: real, test: SinkTest)
    requires IsOrderOf(corpus, order) && WellFormed(corpus)
    requires test == Intended || d == 0.0 || forall p :: p in corpus ==> corpus[p] != {}
    ensures AllSumToOne(corpus, order, d, test)
  {
    forall p | p in corpus ensures Sum(order, Distribution(corpus, p, d, test)) == 1.0 {
      match test
      case Intended => IntendedSumsToOne(corpus, order, p, d);
      case AsWritten => AsWrittenSumsToOneIff(corpus, order, p, d);
    }
  }

  /** `sample_pagerank` on a nonempty well-formed corpus with n >= N raises
      nothing when every distribution adds up to 1: always under the intended
      sink guard, and as written when no page is a sink or d is 0. */
  lemma {:induction false} SamplingSucceeds(corpus: Corpus, order: seq<Page>, d: real, test: SinkTest, n: int, first: nat, steps: seq<nat>)
    requires IsOrderOf(corpus, order) && WellFormed(corpus) && |corpus| > 0
    requires n >= |corpus| && |steps| == n
    requires test == Intended || d == 0.0 || forall p :: p in corpus ==> corpus[p] != {}
    ensures SampleRanks(corpus, order, d, test, n, first, steps).Success?
  {
    OrderLength(corpus, order);
    var start := order[first % |order|];
    DistributionsSumToOne(corpus, order, d, test);
    SumsGiveNonEmptySteps(corpus, order, d, test, n);
    WalkSucceeds(corpus, order, d, test, n, start, steps);
  }

  /** Two pages linking each other. */
  function Pair(): Corpus {
    map["a.html" := {"b.html"}, "b.html" := {"a.html"}]
  }

  lemma {:induction false} PairOrder()
    ensures IsOrderOf(Pair(), ["a.html", "b.html"]) && |Pair()| == 2
  {
    assert Pair().Keys == {"a.html", "b.html"};
  }

  /** At "a.html" with d = 0.85 the surfer stays with probability 0.075 and
      moves to "b.html" with probability 0.925. */
  lemma {:induction false} PairProbabilities(test: SinkTest)
    ensures FindProbab(Pair(), "a.html", 0.85, test, "a.html") == 0.075
    ensures FindProbab(Pair(), "a.html", 0.85, test, "b.html") == 0.925
  {
    var corpus := Pair();
    PairOrder();
    assert "a.html" != "b.html" && corpus["a.html"] == {"b.html"};
    assert "a.html" !in corpus["a.html"] && |corpus["a.html"]| == 1;
    NonSinkProbab(corpus, "a.html", 0.85, test, "a.html");
    NonSinkProbab(corpus, "a.html", 0.85, test, "b.html");
  }

  /** With n = 1 the list built at "a.html" is empty: both probabilities
      truncate to 0 copies. */
  lemma {:induction false} PairCollectionEmpty(test: SinkTest)
    ensures IsOrderOf(Pair(), ["a.html", "b.html"])
    ensures StepCollection(Pair(), ["a.html", "b.html"], 0.85, test, 1, "a.html") == []
  {
    var corpus, order := Pair(), ["a.html", "b.html"];
    PairOrder();
    PairProbabilities(test);
    var dist := Distribution(corpus, "a.html", 0.85, test);
    assert dist["a.html"] == 0.075 && dist["b.html"] == 0.925;
    assert Copies(dist["a.html"], 1) == 0 && Copies(dist["b.html"], 1) == 0;
    assert order[..1] == ["a.html"] && order[..1][..0] == [];
    assert Collection(order[..1], dist, 1) == [];
  }

  /** With fewer samples than pages the walk can fail: for two pages linking
      each other and n = 1, `random.choice` meets an empty list and raises
      IndexError. */
  lemma {:induction false} FewSamplesFail(test: SinkTest)
    ensures IsOrderOf(Pair(), ["a.html", "b.html"])
    ensures SampleRanks(Pair(), ["a.html", "b.html"], 0.85, test, 1, 0, [0]) == Failure(IndexError)
  {
    PairCollectionEmpty(test);
    assert [0][..0] == [];
  }
}
