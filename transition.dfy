/** The transition model: the distribution over the page a random surfer
    visits next (pagerank.py `transition_model` and its inner `find_probab`). */
module Transition {
  import opened Graph
  import opened RealArith

  /** The two kinds of Python value the sink guard compares: an integer and a set of pages. */
  datatype PyValue = PyInt(n: int) | PySet(members: set<Page>)

  /** Python's `==` on these values: values of different types are never equal. */
  function PyEquals(a: PyValue, b: PyValue): bool {
    match (a, b)
    case (PyInt(x), PyInt(y)) => x == y
    case (PySet(x), PySet(y)) => x == y
    case _ => false
  }

  /** Which sink guard to evaluate: the code's `corpus[page] == 0`, or the
      evidently intended test that the page has no links. */
  datatype SinkTest = AsWritten | Intended

  predicate IsSink(test: SinkTest, links: set<Page>) {
    match test
    case AsWritten => PyEquals(PySet(links), PyInt(0))
    case Intended => |links| == 0
  }

  /** The guard as written compares a set with the integer 0 and so never holds. */
  lemma {:induction false} SinkGuardNeverHolds(links: set<Page>)
    ensures !IsSink(AsWritten, links)
  {
  }

  /** `find_probab(some_page)`: the probability of moving from `page` to `somePage`. */
  function FindProbab(corpus: Corpus, page: Page, d: real, test: SinkTest, somePage: Page): real
    requires page in corpus
  {
    var n := |corpus| as real;
    if IsSink(test, corpus[page]) then 1.0 / n
    else
      var linked := if somePage in corpus[page] then 1.0 / |corpus[page]| as real else 0.0;
      (1.0 - d) * (1.0 / n) + d * linked
  }

  /** The dictionary `transition_model` returns: one entry per page of the corpus. */
  function Distribution(corpus: Corpus, page: Page, d: real, test: SinkTest): (dist: map<Page, real>)
    requires page in corpus
    ensures dist.Keys == corpus.Keys
  {
    map p | p in corpus :: FindProbab(corpus, page, d, test, p)
  }

  /** `transition_model(corpus, page, damping_factor)`: fills the dictionary page by page. */
  method TransitionModel(corpus: Corpus, order: seq<Page>, page: Page, d: real, test: SinkTest)
    returns (probabDict: map<Page, real>)
    requires IsOrderOf(corpus, order) && page in corpus
    ensures probabDict == Distribution(corpus, page, d, test)
  {
    probabDict := map[];
    for i := 0 to |order|
      invariant probabDict.Keys == Elements(order[..i])
      invariant forall p :: p in probabDict ==> probabDict[p] == FindProbab(corpus, page, d, test, p)
    {
      assert order[..i + 1] == order[..i] + [order[i]];
      probabDict := probabDict[order[i] := FindProbab(corpus, page, d, test, order[i])];
    }
    assert order[..|order|] == order;
  }

  // ---------------------------------------------------------------------------
  // Properties of the distribution
  // ---------------------------------------------------------------------------

  /** A page with links: a linked page gets (1-d)/N + d/L, every other page (1-d)/N,
      whichever sink guard is used. */
  lemma {:induction false} NonSinkDistribution(corpus: Corpus, page: Page, d: real, test: SinkTest)
    requires page in corpus && corpus[page] != {}
    ensures var dist, n, l := Distribution(corpus, page, d, test), |corpus| as real, |corpus[page]| as real;
      forall p :: p in corpus ==>
        dist[p] == if p in corpus[page] then (1.0 - d) / n + d / l else (1.0 - d) / n
  {
    forall p | p in corpus {
      NonSinkProbab(corpus, page, d, test, p);
    }
  }

  lemma {:induction false} NonSinkProbab(corpus: Corpus, page: Page, d: real, test: SinkTest, p: Page)
    requires page in corpus && corpus[page] != {}
    ensures var n, l := |corpus| as real, |corpus[page]| as real;
      FindProbab(corpus, page, d, test, p) == if p in corpus[page] then (1.0 - d) / n + d / l else (1.0 - d) / n
  {
    var n, l := |corpus| as real, |corpus[page]| as real;
    assert n != 0.0 && l != 0.0;
    assert !IsSink(test, corpus[page]);
    var x := (1.0 - d) * (1.0 / n);
    MulInverse(1.0 - d, n);
    if p in corpus[page] {
      var y := d * (1.0 / l);
      MulInverse(d, l);
      assert FindProbab(corpus, page, d, test, p) == x + y;
    } else {
      var y := d * 0.0;
      assert y == 0.0;
      assert FindProbab(corpus, page, d, test, p) == x + y;
    }
  }

  /** For a damping factor in [0, 1] every probability lies in [0, 1]. */
  lemma {:induction false} ProbabilitiesInRange(corpus: Corpus, page: Page, d: real, test: SinkTest)
    requires page in corpus && 0.0 <= d <= 1.0
    ensures var dist := Distribution(corpus, page, d, test);
      forall p :: p in corpus ==> 0.0 <= dist[p] <= 1.0
  {
    forall p | p in corpus {
      ProbabInRange(corpus, page, d, test, p);
    }
  }

  lemma {:induction false} ProbabInRange(corpus: Corpus, page: Page, d: real, test: SinkTest, p: Page)
    requires page in corpus && 0.0 <= d <= 1.0
    ensures 0.0 <= FindProbab(corpus, page, d, test, p) <= 1.0
  {
    var n := |corpus| as real;
    assert n >= 1.0;
    var u := 1.0 / n;
    assert 0.0 < u <= 1.0;
    if !IsSink(test, corpus[page]) {
      var linked := if p in corpus[page] then 1.0 / |corpus[page]| as real else 0.0;
      assert 0.0 <= linked <= 1.0;
      Between(d, u, linked);
      assert FindProbab(corpus, page, d, test, p) == (1.0 - d) * u + d * linked;
    }
  }

  /** Over exact reals, a page with links whose targets are all in the corpus
      gives a distribution that sums to 1. */
  lemma {:induction false} NonSinkSumsToOne(corpus: Corpus, order: seq<Page>, page: Page, d: real, test: SinkTest)
    requires IsOrderOf(corpus, order) && page in corpus
    requires corpus[page] != {} && corpus[page] <= corpus.Keys
    ensures Sum(order, Distribution(corpus, page, d, test)) == 1.0
  {
    NonSinkAlongOrder(corpus, order, page, d, test);
    OrderLength(corpus, order);
    LinksCounted(corpus, order, page);
    TwoLevelTotal(order, Distribution(corpus, page, d, test), corpus[page], |corpus|, |corpus[page]|, 1.0 - d, d);
  }

  /** The values of `NonSinkDistribution`, page by page along the order. */
  lemma {:induction false} NonSinkAlongOrder(corpus: Corpus, order: seq<Page>, page: Page, d: real, test: SinkTest)
    requires (forall i :: 0 <= i < |order| ==> order[i] in corpus) && page in corpus && corpus[page] != {}
    ensures TwoLevels(order, Distribution(corpus, page, d, test), corpus[page], |corpus|, |corpus[page]|, 1.0 - d, d)
  {
    forall i | 0 <= i < |order| {
      NonSinkProbab(corpus, page, d, test, order[i]);
    }
  }

  /** Every link target of `page` occurs once in the order. */
  lemma {:induction false} LinksCounted(corpus: Corpus, order: seq<Page>, page: Page)
    requires IsOrderOf(corpus, order) && page in corpus && corpus[page] <= corpus.Keys
    ensures CountIn(order, corpus[page]) == |corpus[page]|
  {
    DistinctCountIn(order, corpus[page]);
    assert corpus[page] * Elements(order) == corpus[page];
  }

  /** `m` gives a/n to every page of `order` and b/l more to those in `links`. */
  predicate TwoLevels(order: seq<Page>, m: map<Page, real>, links: set<Page>, n: nat, l: nat, a: real, b: real)
    requires n > 0 && l > 0
  {
    forall i :: 0 <= i < |order| ==>
      order[i] in m && m[order[i]] == a / n as real + (if order[i] in links then b / l as real else 0.0)
  }

  /** A map giving a/n to every page of `order`, n of them, and b/l more to
      the l of them in `links`, sums to a + b over `order`. */
  lemma {:induction false} TwoLevelTotal(order: seq<Page>, m: map<Page, real>, links: set<Page>, n: nat, l: nat, a: real, b: real)
    requires n > 0 && l > 0 && |order| == n && CountIn(order, links) == l
    requires TwoLevels(order, m, links, n, l, a, b)
    ensures Sum(order, m) == a + b
  {
    SumTwoLevels(order, m, links, a / n as real, b / l as real);
    CopiesOfShare(|order|, n, a);
    CopiesOfShare(CountIn(order, links), l, b);
  }

  /** As written, a page without links gets (1-d)/N for every page, so its
      distribution sums to 1-d instead of 1. */
  lemma {:induction false} SinkAsWritten(corpus: Corpus, order: seq<Page>, page: Page, d: real)
    requires IsOrderOf(corpus, order) && page in corpus && corpus[page] == {}
    ensures var dist, n := Distribution(corpus, page, d, AsWritten), |corpus| as real;
      forall p :: p in corpus ==> dist[p] == (1.0 - d) / n
    ensures Sum(order, Distribution(corpus, page, d, AsWritten)) == 1.0 - d
  {
    var dist := Distribution(corpus, page, d, AsWritten);
    forall p | p in corpus ensures dist[p] == (1.0 - d) / |corpus| as real {
      SinkProbabAsWritten(corpus, page, d, p);
    }
    OrderLength(corpus, order);
    UniformTotal(order, dist, |corpus|, 1.0 - d);
  }

  lemma {:induction false} SinkProbabAsWritten(corpus: Corpus, page: Page, d: real, p: Page)
    requires page in corpus && corpus[page] == {}
    ensures FindProbab(corpus, page, d, AsWritten, p) == (1.0 - d) / |corpus| as real
  {
    SinkGuardNeverHolds(corpus[page]);
    assert |corpus| > 0;
    MixWithZero(1.0 - d, |corpus|, d);
  }

  /** With the intended guard, a page without links gives the uniform distribution 1/N. */
  lemma {:induction false} SinkIntended(corpus: Corpus, order: seq<Page>, page: Page, d: real)
    requires IsOrderOf(corpus, order) && page in corpus && corpus[page] == {}
    ensures var dist, n := Distribution(corpus, page, d, Intended), |corpus| as real;
      forall p :: p in corpus ==> dist[p] == 1.0 / n
    ensures Sum(order, Distribution(corpus, page, d, Intended)) == 1.0
  {
    var dist := Distribution(corpus, page, d, Intended);
    OrderLength(corpus, order);
    UniformTotal(order, dist, |corpus|, 1.0);
  }

  /** A map giving a/n to each of the n pages of `order` sums to a over it. */
  lemma {:induction false} UniformTotal(order: seq<Page>, m: map<Page, real>, n: nat, a: real)
    requires n > 0 && |order| == n
    requires forall i :: 0 <= i < |order| ==> order[i] in m && m[order[i]] == a / n as real
    ensures Sum(order, m) == a
  {
    SumConstant(order, m, a / n as real);
    TimesShare(|order|, n, a);
  }

  /** With the intended guard every page of a corpus whose links stay inside it
      gets a distribution that sums to 1. */
  lemma {:induction false} IntendedSumsToOne(corpus: Corpus, order: seq<Page>, page: Page, d: real)
    requires IsOrderOf(corpus, order) && page in corpus && corpus[page] <= corpus.Keys
    ensures Sum(order, Distribution(corpus, page, d, Intended)) == 1.0
  {
    if corpus[page] == {} {
      SinkIntended(corpus, order, page, d);
    } else {
      NonSinkSumsToOne(corpus, order, page, d, Intended);
    }
  }

  /** As written, the distribution sums to 1 exactly when the page has links or
      the damping factor is 0. */
  lemma {:induction false} AsWrittenSumsToOneIff(corpus: Corpus, order: seq<Page>, page: Page, d: real)
    requires IsOrderOf(corpus, order) && page in corpus && corpus[page] <= corpus.Keys
    ensures Sum(order, Distribution(corpus, page, d, AsWritten)) == 1.0 <==> corpus[page] != {} || d == 0.0
  {
    if corpus[page] == {} {
      SinkAsWritten(corpus, order, page, d);
    } else {
      NonSinkSumsToOne(corpus, order, page, d, AsWritten);
    }
  }

  /** The sum never exceeds 1 when the damping factor is in [0, 1]. */
  lemma {:induction false} SumAtMostOne(corpus: Corpus, order: seq<Page>, page: Page, d: real, test: SinkTest)
    requires IsOrderOf(corpus, order) && page in corpus && corpus[page] <= corpus.Keys
    requires 0.0 <= d <= 1.0
    ensures Sum(order, Distribution(corpus, page, d, test)) <= 1.0
  {
    match test
    case AsWritten => AsWrittenSumsToOneIff(corpus, order, page, d);
      if corpus[page] == {} { SinkAsWritten(corpus, order, page, d); }
    case Intended => IntendedSumsToOne(corpus, order, page, d);
  }
}
