/** The link graph a corpus of pages forms, the link cleaning of `crawl` that
    produces it, and the counting and summing helpers the estimators share. */
module Graph {
  import opened RealArith

  /** A page is identified by its file name. */
  type Page = string

  /** Each page of the corpus mapped to the set of pages it links to. */
  type Corpus = map<Page, set<Page>>

  predicate Distinct(s: seq<Page>) {
    forall i, j :: 0 <= i < j < |s| ==> s[i] != s[j]
  }

  /** `order` lists every key of `corpus` exactly once: the iteration order of the dictionary. */
  predicate IsOrderOf(corpus: Corpus, order: seq<Page>) {
    && Distinct(order)
    && (forall i :: 0 <= i < |order| ==> order[i] in corpus)
    && (forall p :: p in corpus ==> p in order)
  }

  /** The graph invariants: no page links to itself and every link target is a page of the corpus. */
  predicate WellFormed(corpus: Corpus) {
    forall p :: p in corpus ==> p !in corpus[p] && corpus[p] <= corpus.Keys
  }

  // ---------------------------------------------------------------------------
  // Link cleaning (crawl)
  // ---------------------------------------------------------------------------

  /** The elements of a list as a set: `set(links)` for the links found in
      one file, and the pages of an order or of a walk. */
  function Elements(links: seq<Page>): (s: set<Page>)
    ensures forall l :: l in s <==> l in links
  {
    set l | l in links
  }

  /** Every file's links minus the file itself. */
  function RemoveSelfLinks(pages: Corpus): (r: Corpus)
    ensures r.Keys == pages.Keys
    ensures forall f :: f in r ==> f !in r[f] && r[f] <= pages[f]
    ensures forall f :: f in r ==> pages[f] - {f} <= r[f]
  {
    map f | f in pages :: pages[f] - {f}
  }

  /** Every file's links restricted to the files of the corpus. */
  function KeepCorpusLinks(pages: Corpus): (r: Corpus)
    ensures r.Keys == pages.Keys
    ensures forall f :: f in r ==> r[f] <= pages[f] && r[f] <= pages.Keys
    ensures forall f, l :: f in r && l in pages[f] && l in pages ==> l in r[f]
  {
    map f | f in pages :: set l | l in pages[f] && l in pages
  }

  /** The corpus `crawl` returns, from the links extracted from each file. */
  function CleanLinks(extracted: map<Page, seq<Page>>): (corpus: Corpus)
    ensures corpus.Keys == extracted.Keys
    ensures WellFormed(corpus)
    ensures forall f, l :: f in corpus ==>
      (l in corpus[f] <==> l in extracted[f] && l != f && l in extracted)
  {
    KeepCorpusLinks(RemoveSelfLinks(map f | f in extracted :: Elements(extracted[f])))
  }

  /** Cleaning changes nothing exactly when the graph invariants already hold. */
  lemma {:induction false} CleaningFixesExactlyWellFormed(c: Corpus)
    ensures KeepCorpusLinks(RemoveSelfLinks(c)) == c <==> WellFormed(c)
  {
    var r := KeepCorpusLinks(RemoveSelfLinks(c));
    if WellFormed(c) {
      forall f | f in c ensures r[f] == c[f] {
        assert RemoveSelfLinks(c)[f] == c[f];
        assert r[f] == c[f];
      }
      assert r == c;
    }
  }

  // ---------------------------------------------------------------------------
  // Counting
  // ---------------------------------------------------------------------------

  /** The number of times `p` occurs in `s`. */
  function Count(s: seq<Page>, p: Page): nat
  {
    if s == [] then 0 else Count(s[..|s| - 1], p) + (if s[|s| - 1] == p then 1 else 0)
  }

  lemma {:induction false} CountPositive(s: seq<Page>, p: Page)
    ensures Count(s, p) > 0 <==> p in s
    ensures Count(s, p) <= |s|
  {
    if s != [] {
      CountPositive(s[..|s| - 1], p);
      assert s == s[..|s| - 1] + [s[|s| - 1]];
    }
  }

  lemma {:induction false} CountConcat(a: seq<Page>, b: seq<Page>, p: Page)
    ensures Count(a + b, p) == Count(a, p) + Count(b, p)
  {
    if b != [] {
      assert (a + b)[..|a + b| - 1] == a + b[..|b| - 1];
      CountConcat(a, b[..|b| - 1], p);
    } else {
      assert a + b == a;
    }
  }

  /** In a list without repeats, a member occurs exactly once. */
  lemma {:induction false} DistinctCountOne(s: seq<Page>, p: Page)
    requires Distinct(s) && p in s
    ensures Count(s, p) == 1
  {
    var t := s[..|s| - 1];
    if s[|s| - 1] == p {
      assert p !in t;
      CountPositive(t, p);
    } else {
      assert p in t;
      DistinctCountOne(t, p);
    }
  }

  /** The sum, over the pages of `order`, of the number of times each occurs in `w`. */
  function CountTotal(order: seq<Page>, w: seq<Page>): nat
  {
    if order == [] then 0 else CountTotal(order[..|order| - 1], w) + Count(w, order[|order| - 1])
  }

  lemma {:induction false} CountTotalAppend(order: seq<Page>, w: seq<Page>, x: Page)
    ensures CountTotal(order, w + [x]) == CountTotal(order, w) + Count(order, x)
  {
    if order != [] {
      CountTotalAppend(order[..|order| - 1], w, x);
      assert (w + [x])[..|w + [x]| - 1] == w;
    }
  }

  /** When every element of `w` is a page of `order`, the counts over `order` add up to |w|. */
  lemma {:induction false} CountTotalIsLength(order: seq<Page>, w: seq<Page>)
    requires Distinct(order)
    requires forall x :: x in w ==> x in order
    ensures CountTotal(order, w) == |w|
  {
    if w == [] {
      CountTotalOfEmpty(order);
    } else {
      var v, x := w[..|w| - 1], w[|w| - 1];
      assert w == v + [x];
      CountTotalIsLength(order, v);
      CountTotalAppend(order, v, x);
      DistinctCountOne(order, x);
    }
  }

  lemma {:induction false} CountTotalOfEmpty(order: seq<Page>)
    ensures CountTotal(order, []) == 0
  {
    if order != [] {
      CountTotalOfEmpty(order[..|order| - 1]);
    }
  }

  /** The number of elements of `s` that lie in `a`. */
  function CountIn(s: seq<Page>, a: set<Page>): nat
  {
    if s == [] then 0 else CountIn(s[..|s| - 1], a) + (if s[|s| - 1] in a then 1 else 0)
  }

  /** For a list without repeats, that number is the size of `a` restricted to the list. */
  lemma {:induction false} DistinctCountIn(s: seq<Page>, a: set<Page>)
    requires Distinct(s)
    ensures CountIn(s, a) == |a * Elements(s)|
  {
    if s == [] {
      assert a * Elements(s) == {};
    } else {
      var t, x := s[..|s| - 1], s[|s| - 1];
      DistinctInit(s);
      DistinctCountIn(t, a);
      ElementsSnoc(s);
      var before := a * Elements(t);
      assert x !in before;
      if x in a {
        assert a * Elements(s) == before + {x};
      } else {
        assert a * Elements(s) == before;
      }
    }
  }

  /** Dropping the last element of a list without repeats leaves one without
      repeats that does not hold that element. */
  lemma {:induction false} DistinctInit(s: seq<Page>)
    requires Distinct(s) && s != []
    ensures Distinct(s[..|s| - 1]) && s[|s| - 1] !in s[..|s| - 1]
  {
  }

  lemma {:induction false} ElementsSnoc(s: seq<Page>)
    requires s != []
    ensures Elements(s) == Elements(s[..|s| - 1]) + {s[|s| - 1]}
  {
    assert s == s[..|s| - 1] + [s[|s| - 1]];
  }

  lemma {:induction false} DistinctLength(s: seq<Page>)
    requires Distinct(s)
    ensures |Elements(s)| == |s|
  {
    if s != [] {
      var t := s[..|s| - 1];
      DistinctInit(s);
      DistinctLength(t);
      ElementsSnoc(s);
    }
  }

  /** The iteration order is as long as the corpus: `len(corpus)` is |order|. */
  lemma {:induction false} OrderLength(corpus: Corpus, order: seq<Page>)
    requires IsOrderOf(corpus, order)
    ensures |order| == |corpus|
  {
    DistinctLength(order);
    assert Elements(order) == corpus.Keys;
    assert |corpus| == |corpus.Keys|;
  }

  // ---------------------------------------------------------------------------
  // Summing
  // ---------------------------------------------------------------------------

  /** The sum of `m` over the pages of `s`; a page that is not a key of `m` adds 0. */
  function Sum(s: seq<Page>, m: map<Page, real>): real
  {
    if s == [] then 0.0 else Sum(s[..|s| - 1], m) + (if s[|s| - 1] in m then m[s[|s| - 1]] else 0.0)
  }

  /** A map that gives `base` to every page and `bonus` more to the pages of `a`
      sums over `s` to |s| * base plus bonus for each element of `s` in `a`. */
  lemma {:induction false} SumTwoLevels(s: seq<Page>, m: map<Page, real>, a: set<Page>, base: real, bonus: real)
    requires forall i :: 0 <= i < |s| ==> s[i] in m && m[s[i]] == base + (if s[i] in a then bonus else 0.0)
    ensures Sum(s, m) == |s| as real * base + CountIn(s, a) as real * bonus
  {
    if s != [] {
      var t, x := s[..|s| - 1], s[|s| - 1];
      SumTwoLevels(t, m, a, base, bonus);
      assert x == s[|s| - 1] && x in m;
      assert Sum(s, m) == Sum(t, m) + m[x];
      assert CountIn(s, a) == if x in a then CountIn(t, a) + 1 else CountIn(t, a);
      TwoLevelStep(|t|, CountIn(t, a), base, bonus, x in a);
    }
  }

  /** A map that gives `c` to every page of `s` sums over `s` to |s| copies of c. */
  lemma {:induction false} SumConstant(s: seq<Page>, m: map<Page, real>, c: real)
    requires forall i :: 0 <= i < |s| ==> s[i] in m && m[s[i]] == c
    ensures Sum(s, m) == Times(|s|, c)
  {
    if s != [] {
      var t := s[..|s| - 1];
      SumConstant(t, m, c);
      TimesSucc(|t|, c);
    }
  }
}
