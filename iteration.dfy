/** The iterative estimator (pagerank.py `iterate_pagerank`). Every rank starts
    at N, the number of pages; each pass then rewrites the ranks page by page
    in the corpus's order, and a page's new rank already reads the new ranks of
    the pages before it in that pass. The loop stops after a pass in which no
    rank moved by 0.001 or more. The source loops without bound; here the
    number of passes is capped by `fuel`. */
module Iteration {
  import opened Graph
  import opened Transition
  import opened RealArith

  /** The convergence threshold of pagerank.py:157. */
  const Threshold: real := 0.001

  type Ranks = map<Page, real>

  /** Every page of `order` has a link set. */
  predicate InCorpus(corpus: Corpus, order: seq<Page>) {
    forall i :: 0 <= i < |order| ==> order[i] in corpus
  }

  // ---------------------------------------------------------------------------
  // One pass
  // ---------------------------------------------------------------------------

  /** `pagerank_dict[page2]`. Every page keeps its rank throughout
      (`PassPrefixKeys`), so the default 0 is never read. */
  function RankOf(ranks: Ranks, page: Page): real {
    if page in ranks then ranks[page] else 0.0
  }

  /** What a page the sink guard recognises hands to every page in a pass:
      the constant of pagerank.py:149, or its own rank. */
  datatype SinkShare = OneOverN | RankOverN

  /** How a pass treats a page without links: the guard of pagerank.py:148
      that recognises it and the share of line 149 it hands out. */
  datatype SinkRule = SinkRule(test: SinkTest, share: SinkShare)

  /** The loop as written: the guard never holds, and would add 1/N if it did. */
  const AsWrittenRule: SinkRule := SinkRule(AsWritten, OneOverN)

  /** The guard corrected, the constant 1/N of line 149 kept. */
  const GuardFixedRule: SinkRule := SinkRule(Intended, OneOverN)

  /** Both corrected: a page without links spreads its rank over all N pages,
      as if it linked to every page. */
  const IntendedRule: SinkRule := SinkRule(Intended, RankOverN)

  /** What a page without links hands to each page: 1/N, or its rank over N. */
  function SinkPart(corpus: Corpus, share: SinkShare, ranks: Ranks, page2: Page): real
    requires page2 in corpus
  {
    (if share == OneOverN then 1.0 else RankOf(ranks, page2)) / |corpus| as real
  }

  /** What `page2` adds to `probab_sum` for `page1` (pagerank.py:148-152): its
      sink share when the sink guard holds, `page2`'s rank over its link count
      when it links to `page1`, nothing otherwise. */
  function Contribution(corpus: Corpus, rule: SinkRule, ranks: Ranks, page1: Page, page2: Page): real
    requires page2 in corpus
  {
    if IsSink(rule.test, corpus[page2]) then SinkPart(corpus, rule.share, ranks, page2)
    else if page1 in corpus[page2] then RankOf(ranks, page2) / |corpus[page2]| as real
    else 0.0
  }

  /** `probab_sum` after the inner loop has visited the first k pages of the order. */
  function ProbabSum(corpus: Corpus, order: seq<Page>, rule: SinkRule, ranks: Ranks, page1: Page, k: nat): real
    requires k <= |order| && InCorpus(corpus, order)
  {
    if k == 0 then 0.0
    else ProbabSum(corpus, order, rule, ranks, page1, k - 1) + Contribution(corpus, rule, ranks, page1, order[k - 1])
  }

  /** `(1-damping_factor)/len(corpus) + damping_factor * probab_sum`. */
  function Damped(d: real, n: nat, probabSum: real): real
    requires n > 0
  {
    (1.0 - d) / n as real + d * probabSum
  }

  /** The value pagerank.py:153 stores for `page1`. */
  function NewRank(corpus: Corpus, order: seq<Page>, d: real, rule: SinkRule, ranks: Ranks, page1: Page): real
    requires page1 in corpus && InCorpus(corpus, order)
  {
    Damped(d, |corpus|, ProbabSum(corpus, order, rule, ranks, page1, |order|))
  }

  /** The ranks after the outer loop of one pass has rewritten the first k pages of the order. */
  function PassPrefix(corpus: Corpus, order: seq<Page>, d: real, rule: SinkRule, ranks: Ranks, k: nat): Ranks
    requires InCorpus(corpus, order) && k <= |order|
  {
    if k == 0 then ranks
    else
      var before := PassPrefix(corpus, order, d, rule, ranks, k - 1);
      before[order[k - 1] := NewRank(corpus, order, d, rule, before, order[k - 1])]
  }

  lemma {:induction false} PassPrefixStep(corpus: Corpus, order: seq<Page>, d: real, rule: SinkRule, ranks: Ranks, k: nat)
    requires InCorpus(corpus, order) && k < |order|
    ensures var before := PassPrefix(corpus, order, d, rule, ranks, k);
      PassPrefix(corpus, order, d, rule, ranks, k + 1) == before[order[k] := NewRank(corpus, order, d, rule, before, order[k])]
  {
  }

  /** A pass rewrites ranks but adds and removes no page. */
  lemma {:induction false} PassPrefixKeys(corpus: Corpus, order: seq<Page>, d: real, rule: SinkRule, ranks: Ranks, k: nat)
    requires InCorpus(corpus, order) && k <= |order|
    requires forall i :: 0 <= i < |order| ==> order[i] in ranks
    ensures PassPrefix(corpus, order, d, rule, ranks, k).Keys == ranks.Keys
  {
    if k > 0 {
      PassPrefixKeys(corpus, order, d, rule, ranks, k - 1);
    }
  }

  /** The ranks after one whole pass (pagerank.py:145-153); every page keeps a rank. */
  function Pass(corpus: Corpus, order: seq<Page>, d: real, rule: SinkRule, ranks: Ranks): (r: Ranks)
    requires IsOrderOf(corpus, order) && ranks.Keys == corpus.Keys
    ensures r.Keys == corpus.Keys
  {
    PassPrefixKeys(corpus, order, d, rule, ranks, |order|);
    PassPrefix(corpus, order, d, rule, ranks, |order|)
  }

  /** pagerank.py:146-152: the inner loop, reading the ranks as they stand. */
  method ProbabSumOf(corpus: Corpus, order: seq<Page>, rule: SinkRule, ranks: Ranks, page1: Page)
    returns (probabSum: real)
    requires InCorpus(corpus, order) && forall i :: 0 <= i < |order| ==> order[i] in ranks
    ensures probabSum == ProbabSum(corpus, order, rule, ranks, page1, |order|)
  {
    probabSum := 0.0;
    for j := 0 to |order|
      invariant probabSum == ProbabSum(corpus, order, rule, ranks, page1, j)
    {
      var page2 := order[j];
      if IsSink(rule.test, corpus[page2]) {
        probabSum := probabSum + (if rule.share == OneOverN then 1.0 else ranks[page2]) / |corpus| as real;
        continue;
      }
      if page1 in corpus[page2] {
        probabSum := probabSum + ranks[page2] / |corpus[page2]| as real;
      }
    }
  }

  /** pagerank.py:145-153: one pass, overwriting the ranks in place. */
  method OnePass(corpus: Corpus, order: seq<Page>, d: real, rule: SinkRule, ranks: Ranks)
    returns (next: Ranks)
    requires IsOrderOf(corpus, order) && ranks.Keys == corpus.Keys
    ensures next == Pass(corpus, order, d, rule, ranks)
  {
    next := ranks;
    for i := 0 to |order|
      invariant next == PassPrefix(corpus, order, d, rule, ranks, i)
    {
      var page1 := order[i];
      PassPrefixKeys(corpus, order, d, rule, ranks, i);
      var probabSum := ProbabSumOf(corpus, order, rule, next, page1);
      PassPrefixStep(corpus, order, d, rule, ranks, i);
      next := next[page1 := Damped(d, |corpus|, probabSum)];
    }
  }

  // ---------------------------------------------------------------------------
  // The stopping test
  // ---------------------------------------------------------------------------

  /** The test of pagerank.py:157: the rank moved by less than the threshold either way. */
  predicate Close(before: real, after: real) {
    before - after < Threshold && before - after > -Threshold
  }

  /** The number of pages among the first k of the order whose rank is settled. */
  function Settled(order: seq<Page>, temp: Ranks, ranks: Ranks, k: nat): (c: nat)
    requires k <= |order| && forall i :: 0 <= i < |order| ==> order[i] in temp && order[i] in ranks
    ensures c <= k
  {
    if k == 0 then 0
    else Settled(order, temp, ranks, k - 1) + (if Close(temp[order[k - 1]], ranks[order[k - 1]]) then 1 else 0)
  }

  /** Every page of the corpus has moved by less than the threshold. */
  predicate AllClose(corpus: Corpus, temp: Ranks, ranks: Ranks)
    requires temp.Keys == corpus.Keys && ranks.Keys == corpus.Keys
  {
    forall p :: p in corpus ==> Close(temp[p], ranks[p])
  }

  /** All k counted pages are settled exactly when each of them is. */
  lemma {:induction false} SettledAllIff(order: seq<Page>, temp: Ranks, ranks: Ranks, k: nat)
    requires k <= |order| && forall i :: 0 <= i < |order| ==> order[i] in temp && order[i] in ranks
    ensures Settled(order, temp, ranks, k) == k <==>
      forall i :: 0 <= i < k ==> Close(temp[order[i]], ranks[order[i]])
  {
    if k > 0 {
      SettledAllIff(order, temp, ranks, k - 1);
    }
  }

  /** pagerank.py:142, 156-158: counts the settled pages; the count reaches
      `len(corpus)` exactly when every page is settled. */
  method CountSettled(corpus: Corpus, order: seq<Page>, temp: Ranks, ranks: Ranks) returns (isFinalCount: nat)
    requires IsOrderOf(corpus, order) && temp.Keys == corpus.Keys && ranks.Keys == corpus.Keys
    ensures isFinalCount == Settled(order, temp, ranks, |order|)
    ensures isFinalCount <= |corpus|
    ensures isFinalCount == |corpus| <==> AllClose(corpus, temp, ranks)
  {
    isFinalCount := 0;
    for i := 0 to |order|
      invariant isFinalCount == Settled(order, temp, ranks, i)
    {
      var page := order[i];
      if temp[page] - ranks[page] < Threshold && temp[page] - ranks[page] > -Threshold {
        isFinalCount := isFinalCount + 1;
      }
    }
    SettledMeansAllClose(corpus, order, temp, ranks);
  }

  /** Over the whole order the count is at most the corpus size, and reaches
      it exactly when every page of the corpus is settled. */
  lemma {:induction false} SettledMeansAllClose(corpus: Corpus, order: seq<Page>, temp: Ranks, ranks: Ranks)
    requires IsOrderOf(corpus, order) && temp.Keys == corpus.Keys && ranks.Keys == corpus.Keys
    ensures Settled(order, temp, ranks, |order|) <= |corpus|
    ensures Settled(order, temp, ranks, |order|) == |corpus| <==> AllClose(corpus, temp, ranks)
  {
    OrderLength(corpus, order);
    SettledAllIff(order, temp, ranks, |order|);
    if Settled(order, temp, ranks, |order|) == |order| {
      forall p | p in corpus ensures Close(temp[p], ranks[p]) {
        var i :| 0 <= i < |order| && order[i] == p;
      }
    }
  }

  // ---------------------------------------------------------------------------
  // The convergence loop
  // ---------------------------------------------------------------------------

  /** How the loop ends: converged with the final ranks, or the pass cap reached. */
  datatype Outcome = Converged(ranks: Ranks) | OutOfFuel(ranks: Ranks)

  /** The starting ranks of pagerank.py:135-138: N for every page. */
  function Initial(corpus: Corpus): (r: Ranks)
    ensures r.Keys == corpus.Keys
  {
    map p | p in corpus :: |corpus| as real
  }

  /** At most `fuel` more passes of the loop from `ranks`. */
  function IterateFrom(corpus: Corpus, order: seq<Page>, d: real, rule: SinkRule, ranks: Ranks, fuel: nat): Outcome
    requires IsOrderOf(corpus, order) && ranks.Keys == corpus.Keys
  {
    if fuel == 0 then OutOfFuel(ranks)
    else
      var next := Pass(corpus, order, d, rule, ranks);
      if AllClose(corpus, ranks, next) then Converged(next)
      else IterateFrom(corpus, order, d, rule, next, fuel - 1)
  }

  /** `iterate_pagerank(corpus, damping_factor)` with at most `fuel` passes. */
  function IterateRanks(corpus: Corpus, order: seq<Page>, d: real, rule: SinkRule, fuel: nat): Outcome
    requires IsOrderOf(corpus, order)
  {
    IterateFrom(corpus, order, d, rule, Initial(corpus), fuel)
  }

  /** pagerank.py:135-138: every page starts at `len(corpus)`. */
  method InitialRanks(corpus: Corpus, order: seq<Page>) returns (pagerankDict: Ranks)
    requires IsOrderOf(corpus, order)
    ensures pagerankDict == Initial(corpus)
  {
    pagerankDict := map[];
    var num := |corpus| as real;
    for i := 0 to |order|
      invariant pagerankDict.Keys == Elements(order[..i])
      invariant forall p :: p in pagerankDict ==> pagerankDict[p] == num
    {
      assert order[..i + 1] == order[..i] + [order[i]];
      pagerankDict := pagerankDict[order[i] := num];
    }
    assert order[..|order|] == order;
  }

  /** pagerank.py:135-164, the `while True` loop capped at `fuel` passes. */
  method IteratePageRank(corpus: Corpus, order: seq<Page>, d: real, rule: SinkRule, fuel: nat)
    returns (outcome: Outcome)
    requires IsOrderOf(corpus, order)
    ensures outcome == IterateRanks(corpus, order, d, rule, fuel)
  {
    var pagerankDict := InitialRanks(corpus, order);
    var remaining := fuel;
    while remaining > 0
      invariant pagerankDict.Keys == corpus.Keys
      invariant IterateFrom(corpus, order, d, rule, pagerankDict, remaining) == IterateRanks(corpus, order, d, rule, fuel)
    {
      var temp := pagerankDict;
      pagerankDict := OnePass(corpus, order, d, rule, pagerankDict);
      var isFinalCount := CountSettled(corpus, order, temp, pagerankDict);
      if isFinalCount == |corpus| {
        return Converged(pagerankDict);
      }
      remaining := remaining - 1;
    }
    outcome := OutOfFuel(pagerankDict);
  }

  // ---------------------------------------------------------------------------
  // What a pass and the loop satisfy
  // ---------------------------------------------------------------------------

  /** In-place update: after k steps of a pass, each of the first k pages holds
      the rank computed from the ranks as they stood when its turn came, and
      every later page still holds its old rank. */
  lemma {:induction false} PassPrefixValues(corpus: Corpus, order: seq<Page>, d: real, rule: SinkRule, ranks: Ranks, k: nat, j: nat)
    requires InCorpus(corpus, order) && k <= |order| && j < |order|
    requires forall i :: 0 <= i < |order| && i != j ==> order[i] != order[j]
    ensures RankOf(PassPrefix(corpus, order, d, rule, ranks, k), order[j]) ==
      if j < k then NewRank(corpus, order, d, rule, PassPrefix(corpus, order, d, rule, ranks, j), order[j])
      else RankOf(ranks, order[j])
  {
    if k > 0 {
      if j == k - 1 {
        PassPrefixStep(corpus, order, d, rule, ranks, j);
      } else {
        PassPrefixValues(corpus, order, d, rule, ranks, k - 1, j);
        PassPrefixStep(corpus, order, d, rule, ranks, k - 1);
      }
    }
  }

  lemma {:induction false} DistinctAt(order: seq<Page>, j: nat)
    requires Distinct(order) && j < |order|
    ensures forall i :: 0 <= i < |order| && i != j ==> order[i] != order[j]
  {
  }

  /** Gauss-Seidel order: the whole pass gives each page the rank of
      pagerank.py:153 computed from the ranks in which exactly the pages
      before it in the order have already been rewritten. */
  lemma {:induction false} PassValues(corpus: Corpus, order: seq<Page>, d: real, rule: SinkRule, ranks: Ranks, j: nat)
    requires IsOrderOf(corpus, order) && ranks.Keys == corpus.Keys && j < |order|
    ensures Pass(corpus, order, d, rule, ranks)[order[j]] ==
      Damped(d, |corpus|, ProbabSum(corpus, order, rule, PassPrefix(corpus, order, d, rule, ranks, j), order[j], |order|))
  {
    DistinctAt(order, j);
    PassPrefixValues(corpus, order, d, rule, ranks, |order|, j);
  }

  predicate NonNegative(ranks: Ranks) {
    forall p :: p in ranks ==> ranks[p] >= 0.0
  }

  /** With ranks that are not negative, every contribution is not negative and neither is their sum. */
  lemma {:induction false} ProbabSumNonNegative(corpus: Corpus, order: seq<Page>, rule: SinkRule, ranks: Ranks, page1: Page, k: nat)
    requires k <= |order| && InCorpus(corpus, order) && NonNegative(ranks)
    ensures ProbabSum(corpus, order, rule, ranks, page1, k) >= 0.0
  {
    if k > 0 {
      ProbabSumNonNegative(corpus, order, rule, ranks, page1, k - 1);
      var page2 := order[k - 1];
      if IsSink(rule.test, corpus[page2]) {
        QuotientNonNegative(if rule.share == OneOverN then 1.0 else RankOf(ranks, page2), |corpus|);
      } else if page1 in corpus[page2] {
        QuotientNonNegative(RankOf(ranks, page2), |corpus[page2]|);
      }
    }
  }

  /** For d in [0, 1] and ranks that are not negative, a new rank is at least (1-d)/N. */
  lemma {:induction false} NewRankLowerBound(corpus: Corpus, order: seq<Page>, d: real, rule: SinkRule, ranks: Ranks, page1: Page)
    requires page1 in corpus && InCorpus(corpus, order) && NonNegative(ranks)
    requires 0.0 <= d <= 1.0
    ensures NewRank(corpus, order, d, rule, ranks, page1) >= (1.0 - d) / |corpus| as real
    ensures (1.0 - d) / |corpus| as real >= 0.0
  {
    ProbabSumNonNegative(corpus, order, rule, ranks, page1, |order|);
    var s := ProbabSum(corpus, order, rule, ranks, page1, |order|);
    ProductBound(s, d);
    assert d * s >= 0.0;
    QuotientNonNegative(1.0 - d, |corpus|);
  }

  /** Ranks that are not negative stay so through a pass, and every rewritten
      page ends at least at (1-d)/N. */
  lemma {:induction false} PassPrefixLowerBound(corpus: Corpus, order: seq<Page>, d: real, rule: SinkRule, ranks: Ranks, k: nat)
    requires InCorpus(corpus, order) && k <= |order|
    requires NonNegative(ranks) && 0.0 <= d <= 1.0
    ensures NonNegative(PassPrefix(corpus, order, d, rule, ranks, k))
    ensures forall p :: p in order[..k] ==> RankOf(PassPrefix(corpus, order, d, rule, ranks, k), p) >= (1.0 - d) / |corpus| as real
  {
    if k > 0 {
      PassPrefixLowerBound(corpus, order, d, rule, ranks, k - 1);
      var before := PassPrefix(corpus, order, d, rule, ranks, k - 1);
      NewRankLowerBound(corpus, order, d, rule, before, order[k - 1]);
      assert order[..k] == order[..k - 1] + [order[k - 1]];
    }
  }

  /** After a whole pass every page's rank is at least (1-d)/N. */
  lemma {:induction false} PassLowerBound(corpus: Corpus, order: seq<Page>, d: real, rule: SinkRule, ranks: Ranks)
    requires IsOrderOf(corpus, order) && ranks.Keys == corpus.Keys
    requires NonNegative(ranks) && 0.0 <= d <= 1.0
    ensures NonNegative(Pass(corpus, order, d, rule, ranks))
    ensures forall p :: p in corpus ==> Pass(corpus, order, d, rule, ranks)[p] >= (1.0 - d) / |corpus| as real
  {
    PassPrefixLowerBound(corpus, order, d, rule, ranks, |order|);
    assert order[..|order|] == order;
  }

  /** The loop ends in `Converged` only right after a pass that moved no rank by
      the threshold: the final ranks are one pass applied to ranks that agree
      with them to within 0.001 on every page, and every page is a key. */
  lemma {:induction false} ConvergedMeansSettled(corpus: Corpus, order: seq<Page>, d: real, rule: SinkRule, ranks: Ranks, fuel: nat)
    requires IsOrderOf(corpus, order) && ranks.Keys == corpus.Keys
    requires IterateFrom(corpus, order, d, rule, ranks, fuel).Converged?
    ensures var final := IterateFrom(corpus, order, d, rule, ranks, fuel).ranks;
      final.Keys == corpus.Keys &&
      exists prev: Ranks :: prev.Keys == corpus.Keys && final == Pass(corpus, order, d, rule, prev) && AllClose(corpus, prev, final)
  {
    var next := Pass(corpus, order, d, rule, ranks);
    if !AllClose(corpus, ranks, next) {
      ConvergedMeansSettled(corpus, order, d, rule, next, fuel - 1);
    }
  }

  /** With d in [0, 1], every rank the loop returns, converged or not, after at
      least one pass is at least (1-d)/N; with no pass it is N. */
  lemma {:induction false} OutcomeLowerBound(corpus: Corpus, order: seq<Page>, d: real, rule: SinkRule, ranks: Ranks, fuel: nat)
    requires IsOrderOf(corpus, order) && ranks.Keys == corpus.Keys && NonNegative(ranks) && 0.0 <= d <= 1.0
    ensures IterateFrom(corpus, order, d, rule, ranks, fuel).ranks.Keys == corpus.Keys
    ensures fuel > 0 ==> forall p :: p in corpus ==>
      IterateFrom(corpus, order, d, rule, ranks, fuel).ranks[p] >= (1.0 - d) / |corpus| as real
  {
    if fuel > 0 {
      var next := Pass(corpus, order, d, rule, ranks);
      PassLowerBound(corpus, order, d, rule, ranks);
      if !AllClose(corpus, ranks, next) && fuel > 1 {
        OutcomeLowerBound(corpus, order, d, rule, next, fuel - 1);
      }
    }
  }

  // ---------------------------------------------------------------------------
  // A page without links
  // ---------------------------------------------------------------------------

  /** A corpus of one page that links nowhere. */
  function Lonely(): Corpus {
    map["a.html" := {}]
  }

  /** As written, the sink guard of pagerank.py:148 never holds, so the lone
      page receives nothing and, with d = 0.85, the loop settles at rank 0.15:
      the ranks do not add up to 1. */
  lemma {:induction false} LonelyAsWritten()
    ensures IterateRanks(Lonely(), ["a.html"], 0.85, AsWrittenRule, 2) == Converged(map["a.html" := 0.15])
  {
    var corpus, order := Lonely(), ["a.html"];
    var r0, r1 := map["a.html" := 1.0], map["a.html" := 0.15];
    assert corpus.Keys == {"a.html"};
    assert Initial(corpus) == r0;
    assert ProbabSum(corpus, order, AsWrittenRule, r0, "a.html", 1) == 0.0;
    assert NewRank(corpus, order, 0.85, AsWrittenRule, r0, "a.html") == 0.15;
    assert PassPrefix(corpus, order, 0.85, AsWrittenRule, r0, 1) == r1;
    assert !Close(r0["a.html"], r1["a.html"]);
    assert ProbabSum(corpus, order, AsWrittenRule, r1, "a.html", 1) == 0.0;
    assert NewRank(corpus, order, 0.85, AsWrittenRule, r1, "a.html") == 0.15;
    assert PassPrefix(corpus, order, 0.85, AsWrittenRule, r1, 1) == r1;
    assert AllClose(corpus, r1, r1);
  }

  /** With the corrected rule the lone page spreads its rank over the corpus,
      that is back to itself, and the loop settles at rank 1. */
  lemma {:induction false} LonelyIntended()
    ensures IterateRanks(Lonely(), ["a.html"], 0.85, IntendedRule, 1) == Converged(map["a.html" := 1.0])
  {
    var corpus, order := Lonely(), ["a.html"];
    var r0 := map["a.html" := 1.0];
    assert corpus.Keys == {"a.html"};
    assert Initial(corpus) == r0;
    assert ProbabSum(corpus, order, IntendedRule, r0, "a.html", 1) == 1.0;
    assert NewRank(corpus, order, 0.85, IntendedRule, r0, "a.html") == 1.0;
    assert PassPrefix(corpus, order, 0.85, IntendedRule, r0, 1) == r0;
    assert AllClose(corpus, r0, r0);
  }

  /** Over an order of three pages the inner loop adds three contributions. */
  lemma {:induction false} ProbabSumOfThree(corpus: Corpus, order: seq<Page>, rule: SinkRule, ranks: Ranks, page1: Page)
    requires InCorpus(corpus, order) && |order| == 3
    ensures ProbabSum(corpus, order, rule, ranks, page1, 3) ==
      Contribution(corpus, rule, ranks, page1, order[0]) + Contribution(corpus, rule, ranks, page1, order[1])
      + Contribution(corpus, rule, ranks, page1, order[2])
  {
    assert ProbabSum(corpus, order, rule, ranks, page1, 1) == Contribution(corpus, rule, ranks, page1, order[0]);
  }

  lemma {:induction false} SumOfThree(x: Page, y: Page, z: Page, m: Ranks)
    requires x in m && y in m && z in m
    ensures Sum([x, y, z], m) == m[x] + m[y] + m[z]
  {
    assert [x, y, z][..2] == [x, y];
    assert [x, y][..1] == [x];
    assert [x][..0] == [];
    assert Sum([x], m) == m[x];
    assert Sum([x, y], m) == m[x] + m[y];
  }

  /** Two pages that link to a third, which links nowhere. */
  function Chain(): Corpus {
    map["a.html" := {"c.html"}, "b.html" := {"c.html"}, "c.html" := {}]
  }

  lemma {:induction false} ChainOrder()
    ensures IsOrderOf(Chain(), ["a.html", "b.html", "c.html"]) && WellFormed(Chain()) && |Chain()| == 3
    ensures Chain()["a.html"] == {"c.html"} && Chain()["b.html"] == {"c.html"} && Chain()["c.html"] == {}
  {
    var corpus := Chain();
    assert corpus.Keys == {"a.html", "b.html", "c.html"};
  }

  /** The ranks 1/3, 1/3, 9/10 of the chain. */
  function ChainConstantRanks(): Ranks {
    map["a.html" := 1.0 / 3.0, "b.html" := 1.0 / 3.0, "c.html" := 0.9]
  }

  /** What the chain's pages receive under the guard-only rule from ranks in
      which a.html and b.html hold `x` and `y`: c's constant 1/3 for a and b,
      and x + y + 1/3 for c. */
  lemma {:induction false} ChainConstantInflow(r: Ranks, x: real, y: real)
    requires r.Keys == Chain().Keys && r["a.html"] == x && r["b.html"] == y
    ensures ProbabSum(Chain(), ["a.html", "b.html", "c.html"], GuardFixedRule, r, "a.html", 3) == 1.0 / 3.0
    ensures ProbabSum(Chain(), ["a.html", "b.html", "c.html"], GuardFixedRule, r, "b.html", 3) == 1.0 / 3.0
    ensures ProbabSum(Chain(), ["a.html", "b.html", "c.html"], GuardFixedRule, r, "c.html", 3) == x + y + 1.0 / 3.0
  {
    var corpus, order := Chain(), ["a.html", "b.html", "c.html"];
    ChainOrder();
    assert SinkPart(corpus, OneOverN, r, "c.html") == 1.0 / 3.0;
    ProbabSumOfThree(corpus, order, GuardFixedRule, r, "a.html");
    ProbabSumOfThree(corpus, order, GuardFixedRule, r, "b.html");
    ProbabSumOfThree(corpus, order, GuardFixedRule, r, "c.html");
    assert Contribution(corpus, GuardFixedRule, r, "c.html", "a.html") == x;
    assert Contribution(corpus, GuardFixedRule, r, "c.html", "b.html") == y;
  }

  /** One pass of the guard-only rule over the chain from any ranks. */
  lemma {:induction false} ChainConstantPass(r: Ranks)
    requires r.Keys == Chain().Keys
    ensures Pass(Chain(), ["a.html", "b.html", "c.html"], 0.85, GuardFixedRule, r) == ChainConstantRanks()
  {
    var corpus, order, d := Chain(), ["a.html", "b.html", "c.html"], 0.85;
    ChainOrder();
    var p1 := r["a.html" := 1.0 / 3.0];
    var p2 := p1["b.html" := 1.0 / 3.0];
    ChainConstantInflow(r, r["a.html"], r["b.html"]);
    assert Damped(d, 3, 1.0 / 3.0) == 1.0 / 3.0;
    assert PassPrefix(corpus, order, d, GuardFixedRule, r, 1) == p1;
    ChainConstantInflow(p1, 1.0 / 3.0, r["b.html"]);
    assert PassPrefix(corpus, order, d, GuardFixedRule, r, 2) == p2;
    ChainConstantInflow(p2, 1.0 / 3.0, 1.0 / 3.0);
    assert Damped(d, 3, 1.0) == 0.9;
    assert PassPrefix(corpus, order, d, GuardFixedRule, r, 3) == p2["c.html" := 0.9];
    assert p2["c.html" := 0.9] == ChainConstantRanks();
  }

  /** With the guard corrected but the constant 1/N of pagerank.py:149 kept,
      the chain settles in two passes at ranks that add up to 47/30, not 1. */
  lemma {:induction false} ChainGuardFixed()
    ensures IterateRanks(Chain(), ["a.html", "b.html", "c.html"], 0.85, GuardFixedRule, 2) == Converged(ChainConstantRanks())
    ensures Sum(["a.html", "b.html", "c.html"], ChainConstantRanks()) == 47.0 / 30.0
  {
    var corpus, order, d := Chain(), ["a.html", "b.html", "c.html"], 0.85;
    ChainOrder();
    var r0, r1 := Initial(corpus), ChainConstantRanks();
    assert r0["a.html"] == 3.0;
    ChainConstantPass(r0);
    assert !Close(r0["a.html"], r1["a.html"]);
    assert !AllClose(corpus, r0, r1);
    ChainConstantPass(r1);
    assert AllClose(corpus, r1, r1);
    assert IterateFrom(corpus, order, d, GuardFixedRule, r1, 1) == Converged(r1);
    SumOfThree("a.html", "b.html", "c.html", r1);
  }

  /** The ranks 10/47, 10/47, 27/47 of the chain. */
  function ChainFixedRanks(): Ranks {
    map["a.html" := 10.0 / 47.0, "b.html" := 10.0 / 47.0, "c.html" := 27.0 / 47.0]
  }

  /** What the chain's pages receive under the corrected rule at those ranks:
      a third of c's rank for a and b, and a's and b's ranks and a third of
      its own for c. */
  lemma {:induction false} ChainFixedInflow()
    ensures ProbabSum(Chain(), ["a.html", "b.html", "c.html"], IntendedRule, ChainFixedRanks(), "a.html", 3) == 9.0 / 47.0
    ensures ProbabSum(Chain(), ["a.html", "b.html", "c.html"], IntendedRule, ChainFixedRanks(), "b.html", 3) == 9.0 / 47.0
    ensures ProbabSum(Chain(), ["a.html", "b.html", "c.html"], IntendedRule, ChainFixedRanks(), "c.html", 3) == 29.0 / 47.0
  {
    var corpus, order, r := Chain(), ["a.html", "b.html", "c.html"], ChainFixedRanks();
    ChainOrder();
    assert SinkPart(corpus, RankOverN, r, "c.html") == 9.0 / 47.0;
    ProbabSumOfThree(corpus, order, IntendedRule, r, "a.html");
    ProbabSumOfThree(corpus, order, IntendedRule, r, "b.html");
    ProbabSumOfThree(corpus, order, IntendedRule, r, "c.html");
    assert Contribution(corpus, IntendedRule, r, "c.html", "a.html") == 10.0 / 47.0;
    assert Contribution(corpus, IntendedRule, r, "c.html", "b.html") == 10.0 / 47.0;
  }

  /** With the corrected rule the chain has the exact fixed point 10/47, 10/47,
      27/47: a pass from it changes no rank, the loop stops after that pass,
      and the ranks add up to 1. */
  lemma {:induction false} ChainIntended()
    ensures Pass(Chain(), ["a.html", "b.html", "c.html"], 0.85, IntendedRule, ChainFixedRanks()) == ChainFixedRanks()
    ensures IterateFrom(Chain(), ["a.html", "b.html", "c.html"], 0.85, IntendedRule, ChainFixedRanks(), 1) == Converged(ChainFixedRanks())
    ensures Sum(["a.html", "b.html", "c.html"], ChainFixedRanks()) == 1.0
  {
    var corpus, order, d, r := Chain(), ["a.html", "b.html", "c.html"], 0.85, ChainFixedRanks();
    ChainOrder();
    ChainFixedInflow();
    assert Damped(d, 3, 9.0 / 47.0) == 10.0 / 47.0;
    assert Damped(d, 3, 29.0 / 47.0) == 27.0 / 47.0;
    assert r["a.html" := 10.0 / 47.0] == r && r["b.html" := 10.0 / 47.0] == r && r["c.html" := 27.0 / 47.0] == r;
    assert PassPrefix(corpus, order, d, IntendedRule, r, 1) == r;
    assert PassPrefix(corpus, order, d, IntendedRule, r, 2) == r;
    assert PassPrefix(corpus, order, d, IntendedRule, r, 3) == r;
    assert AllClose(corpus, r, r);
    SumOfThree("a.html", "b.html", "c.html", r);
  }

  // ---------------------------------------------------------------------------
  // The ranks at a fixed point of the corrected rule
  // ---------------------------------------------------------------------------

  /** What `q` hands to the first `a` pages of the order in a pass. */
  function Outflow(corpus: Corpus, order: seq<Page>, rule: SinkRule, ranks: Ranks, q: Page, a: nat): real
    requires InCorpus(corpus, order) && a <= |order| && q in corpus
  {
    if a == 0 then 0.0
    else Outflow(corpus, order, rule, ranks, q, a - 1) + Contribution(corpus, rule, ranks, order[a - 1], q)
  }

  /** What the first `a` pages of the order receive from the first `b`. */
  function Inflows(corpus: Corpus, order: seq<Page>, rule: SinkRule, ranks: Ranks, a: nat, b: nat): real
    requires InCorpus(corpus, order) && a <= |order| && b <= |order|
  {
    if a == 0 then 0.0
    else Inflows(corpus, order, rule, ranks, a - 1, b) + ProbabSum(corpus, order, rule, ranks, order[a - 1], b)
  }

  /** What the first `b` pages of the order hand to the first `a`. */
  function Outflows(corpus: Corpus, order: seq<Page>, rule: SinkRule, ranks: Ranks, a: nat, b: nat): real
    requires InCorpus(corpus, order) && a <= |order| && b <= |order|
  {
    if b == 0 then 0.0
    else Outflows(corpus, order, rule, ranks, a, b - 1) + Outflow(corpus, order, rule, ranks, order[b - 1], a)
  }

  lemma {:induction false} OutflowsToNone(corpus: Corpus, order: seq<Page>, rule: SinkRule, ranks: Ranks, b: nat)
    requires InCorpus(corpus, order) && b <= |order|
    ensures Outflows(corpus, order, rule, ranks, 0, b) == 0.0
  {
    if b > 0 {
      OutflowsToNone(corpus, order, rule, ranks, b - 1);
    }
  }

  /** One more receiving page adds what it receives from the first b pages. */
  lemma {:induction false} OutflowsStep(corpus: Corpus, order: seq<Page>, rule: SinkRule, ranks: Ranks, a: nat, b: nat)
    requires InCorpus(corpus, order) && a < |order| && b <= |order|
    ensures Outflows(corpus, order, rule, ranks, a + 1, b)
      == Outflows(corpus, order, rule, ranks, a, b) + ProbabSum(corpus, order, rule, ranks, order[a], b)
  {
    if b > 0 {
      OutflowsStep(corpus, order, rule, ranks, a, b - 1);
    }
  }

  /** Everything received is everything handed out: the double sum in either order. */
  lemma {:induction false} InflowsAreOutflows(corpus: Corpus, order: seq<Page>, rule: SinkRule, ranks: Ranks, a: nat, b: nat)
    requires InCorpus(corpus, order) && a <= |order| && b <= |order|
    ensures Inflows(corpus, order, rule, ranks, a, b) == Outflows(corpus, order, rule, ranks, a, b)
  {
    if a == 0 {
      OutflowsToNone(corpus, order, rule, ranks, b);
    } else {
      InflowsAreOutflows(corpus, order, rule, ranks, a - 1, b);
      OutflowsStep(corpus, order, rule, ranks, a - 1, b);
    }
  }

  /** Under the corrected rule a page without links hands RankOf/N to each page. */
  lemma {:induction false} OutflowOfSink(corpus: Corpus, order: seq<Page>, ranks: Ranks, q: Page, a: nat)
    requires InCorpus(corpus, order) && a <= |order| && q in corpus && corpus[q] == {}
    ensures Outflow(corpus, order, IntendedRule, ranks, q, a) == Times(a, RankOf(ranks, q) / |corpus| as real)
  {
    if a > 0 {
      OutflowOfSink(corpus, order, ranks, q, a - 1);
      SuccTimes(a - 1, RankOf(ranks, q) / |corpus| as real);
    }
  }

  /** A page with links hands RankOf/L to each of its links among the first a pages. */
  lemma {:induction false} OutflowOfLinked(corpus: Corpus, order: seq<Page>, rule: SinkRule, ranks: Ranks, q: Page, a: nat)
    requires InCorpus(corpus, order) && a <= |order| && q in corpus && corpus[q] != {}
    requires rule.test == Intended
    ensures Outflow(corpus, order, rule, ranks, q, a) == Times(CountIn(order[..a], corpus[q]), RankOf(ranks, q) / |corpus[q]| as real)
  {
    if a > 0 {
      var share := RankOf(ranks, q) / |corpus[q]| as real;
      OutflowOfLinked(corpus, order, rule, ranks, q, a - 1);
      assert order[..a][..a - 1] == order[..a - 1];
      var before := CountIn(order[..a - 1], corpus[q]);
      if order[a - 1] in corpus[q] {
        assert CountIn(order[..a], corpus[q]) == before + 1;
        SuccTimes(before, share);
      } else {
        assert CountIn(order[..a], corpus[q]) == before;
      }
    }
  }

  /** Under the corrected rule a page without links hands out exactly its rank. */
  lemma {:induction false} SinkOutflowIsRank(corpus: Corpus, order: seq<Page>, ranks: Ranks, q: Page)
    requires IsOrderOf(corpus, order) && q in corpus && corpus[q] == {}
    ensures Outflow(corpus, order, IntendedRule, ranks, q, |order|) == RankOf(ranks, q)
  {
    OrderLength(corpus, order);
    OutflowOfSink(corpus, order, ranks, q, |order|);
    TimesShare(|order|, |corpus|, RankOf(ranks, q));
  }

  /** So does a page whose links all lie in the corpus. */
  lemma {:induction false} LinkedOutflowIsRank(corpus: Corpus, order: seq<Page>, ranks: Ranks, q: Page)
    requires IsOrderOf(corpus, order) && q in corpus && corpus[q] != {} && corpus[q] <= corpus.Keys
    ensures Outflow(corpus, order, IntendedRule, ranks, q, |order|) == RankOf(ranks, q)
  {
    OutflowOfLinked(corpus, order, IntendedRule, ranks, q, |order|);
    assert order[..|order|] == order;
    LinksCounted(corpus, order, q);
    TimesShare(|corpus[q]|, |corpus[q]|, RankOf(ranks, q));
  }

  /** Under the corrected rule every page whose links lie in the corpus hands out exactly its rank. */
  lemma {:induction false} OutflowIsRank(corpus: Corpus, order: seq<Page>, ranks: Ranks, q: Page)
    requires IsOrderOf(corpus, order) && q in corpus && corpus[q] <= corpus.Keys
    ensures Outflow(corpus, order, IntendedRule, ranks, q, |order|) == RankOf(ranks, q)
  {
    if corpus[q] == {} {
      SinkOutflowIsRank(corpus, order, ranks, q);
    } else {
      LinkedOutflowIsRank(corpus, order, ranks, q);
    }
  }

  /** So what the first b pages hand out is the sum of their ranks. */
  lemma {:induction false} OutflowsAreRanks(corpus: Corpus, order: seq<Page>, ranks: Ranks, b: nat)
    requires IsOrderOf(corpus, order) && WellFormed(corpus) && ranks.Keys == corpus.Keys && b <= |order|
    ensures Outflows(corpus, order, IntendedRule, ranks, |order|, b) == Sum(order[..b], ranks)
  {
    if b > 0 {
      OutflowsAreRanks(corpus, order, ranks, b - 1);
      OutflowIsRank(corpus, order, ranks, order[b - 1]);
      assert order[..b][..b - 1] == order[..b - 1];
    }
  }

  /** A pass that changes nothing leaves every part of itself unchanged too. */
  lemma {:induction false} FixedPrefix(corpus: Corpus, order: seq<Page>, d: real, rule: SinkRule, ranks: Ranks, k: nat)
    requires IsOrderOf(corpus, order) && ranks.Keys == corpus.Keys && k <= |order|
    requires Pass(corpus, order, d, rule, ranks) == ranks
    ensures PassPrefix(corpus, order, d, rule, ranks, k) == ranks
  {
    if k > 0 {
      FixedPrefix(corpus, order, d, rule, ranks, k - 1);
      DistinctAt(order, k - 1);
      PassPrefixValues(corpus, order, d, rule, ranks, |order|, k - 1);
      PassPrefixStep(corpus, order, d, rule, ranks, k - 1);
      assert ranks[order[k - 1] := ranks[order[k - 1]]] == ranks;
    }
  }

  /** At a fixed point every rank is its own damped sum. */
  predicate FixedPointEquations(corpus: Corpus, order: seq<Page>, d: real, rule: SinkRule, ranks: Ranks)
    requires IsOrderOf(corpus, order)
  {
    forall j :: 0 <= j < |order| ==>
      order[j] in ranks && ranks[order[j]] == Damped(d, |corpus|, ProbabSum(corpus, order, rule, ranks, order[j], |order|))
  }

  lemma {:induction false} FixedPointSatisfiesEquations(corpus: Corpus, order: seq<Page>, d: real, rule: SinkRule, ranks: Ranks)
    requires IsOrderOf(corpus, order) && ranks.Keys == corpus.Keys
    requires Pass(corpus, order, d, rule, ranks) == ranks
    ensures FixedPointEquations(corpus, order, d, rule, ranks)
  {
    forall j | 0 <= j < |order|
      ensures ranks[order[j]] == Damped(d, |corpus|, ProbabSum(corpus, order, rule, ranks, order[j], |order|))
    {
      FixedPrefix(corpus, order, d, rule, ranks, j);
      PassValues(corpus, order, d, rule, ranks, j);
    }
  }

  /** Summing the equations: the first k ranks add up to k shares of (1-d)/N
      plus d times what the first k pages receive. */
  lemma {:induction false} SumOfDamped(corpus: Corpus, order: seq<Page>, d: real, rule: SinkRule, ranks: Ranks, k: nat)
    requires IsOrderOf(corpus, order) && |corpus| > 0 && k <= |order|
    requires FixedPointEquations(corpus, order, d, rule, ranks)
    ensures Sum(order[..k], ranks) == Times(k, (1.0 - d) / |corpus| as real) + Scale(d, Inflows(corpus, order, rule, ranks, k, |order|))
  {
    if k > 0 {
      SumOfDamped(corpus, order, d, rule, ranks, k - 1);
      assert order[..k][..k - 1] == order[..k - 1];
      var x := (1.0 - d) / |corpus| as real;
      var ps := ProbabSum(corpus, order, rule, ranks, order[k - 1], |order|);
      assert ranks[order[k - 1]] == x + Scale(d, ps);
      TimesSucc(k - 1, x);
      ScaleAdd(d, Inflows(corpus, order, rule, ranks, k - 1, |order|), ps);
    }
  }

  /** With the corrected rule, the ranks of an exact fixed point of a pass over
      a well-formed corpus add up to 1 whenever d is not 1: what the pages
      hand out is all their rank, so the total S satisfies S = (1-d) + d * S. */
  lemma {:induction false} FixedPointSumsToOne(corpus: Corpus, order: seq<Page>, d: real, ranks: Ranks)
    requires IsOrderOf(corpus, order) && WellFormed(corpus) && |corpus| > 0
    requires ranks.Keys == corpus.Keys && d != 1.0
    requires Pass(corpus, order, d, IntendedRule, ranks) == ranks
    ensures Sum(order, ranks) == 1.0
  {
    var n := |order|;
    OrderLength(corpus, order);
    FixedPointSatisfiesEquations(corpus, order, d, IntendedRule, ranks);
    SumOfDamped(corpus, order, d, IntendedRule, ranks, n);
    TimesShare(n, |corpus|, 1.0 - d);
    InflowsAreOutflows(corpus, order, IntendedRule, ranks, n, n);
    OutflowsAreRanks(corpus, order, ranks, n);
    assert order[..n] == order;
    OwnShare(Sum(order, ranks), d);
  }
}
