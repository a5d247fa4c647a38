/** The order in which documents are fetched and leave. */
module ReadOrder {
  import opened Seqs
  import opened Pager
  import opened ReadMachine
  import opened ReadInvariants
  import opened ReadEnumeration
  import opened ReadTheorems

  // ---------------------------------------------------------------- between rewinds

  /** Everything fetched from the n-th answer on. */
  function Since(s: State, n: nat): seq<int> {
    if n <= |s.log.pages| then Flat(s.log.pages[n..]) else []
  }

  /** Fetched ids ascend from the n-th answer on, and the cursor follows them. */
  ghost predicate Tracks(s: State, n: nat) {
    && n <= |s.log.pages|
    && Ascending(Since(s, n))
    && match s.reader
       case Sent(from) => Since(s, n) != [] ==> from == s.cursor == Frontier(Since(s, n))
       case Got(from, page) =>
         |s.log.pages| > n ==>
           (var before := Flat(s.log.pages[n..|s.log.pages| - 1]);
            && s.log.pages[|s.log.pages| - 1] == page
            && (before != [] ==> from == s.cursor == Frontier(before)))
       case _ => Since(s, n) != [] ==> s.cursor == Frontier(Since(s, n))
  }

  /** An answer that lies beyond what was fetched extends it in order. */
  lemma RunExtends(fetched: seq<int>, from: Cursor, db: seq<int>, page: seq<int>)
    requires Ascending(fetched) && NextRun(db, from, page) && (fetched != [] ==> from == Frontier(fetched))
    ensures Ascending(fetched + page)
  {
    if fetched == [] {
      assert fetched + page == page;
    } else {
      AscendingAppend(fetched, page);
    }
  }

  lemma PagesExtend(pages: seq<seq<int>>, page: seq<int>, n: nat)
    requires n <= |pages|
    ensures var longer := pages + [page];
            Flat(longer[n..]) == Flat(pages[n..]) + page && longer[n..|longer| - 1] == pages[n..]
  {
    var longer := pages + [page];
    assert longer[n..] == pages[n..] + [page];
    FlatAppend(pages[n..], page);
  }

  lemma SnapshotTracks(s: State, n: nat)
    requires s.cfg.skip == 0 && Safe(s) && Tracks(s, n) && ReaderEnabled(s, Snapshot)
    ensures Tracks(ReaderApply(s, Snapshot), n)
  {
    var page := Page(s.db, s.reader.from, 0, s.cfg.limit);
    PageWithoutSkip(s.db, s.reader.from, s.cfg.limit);
    RunExtends(Since(s, n), s.reader.from, s.db, page);
    GotTracks(s, page, n);
  }

  lemma GotTracks(s: State, page: seq<int>, n: nat)
    requires Tracks(s, n) && s.reader.Sent? && Ascending(Since(s, n) + page)
    ensures Tracks(s.(reader := Got(s.reader.from, page), log := s.log.(pages := s.log.pages + [page])), n)
  {
    PagesExtend(s.log.pages, page, n);
  }

  lemma StoreTracks(s: State, n: nat)
    requires Tracks(s, n) && ReaderEnabled(s, Store)
    ensures Tracks(ReaderApply(s, Store), n)
  {
    var pages, page := s.log.pages, s.reader.page;
    if |pages| > n {
      var before := Flat(pages[n..|pages| - 1]);
      assert pages[n..] == pages[n..|pages| - 1] + [page];
      FlatAppend(pages[n..|pages| - 1], page);
      assert Since(s, n) == before + page;
      if page == [] {
        assert before + page == before;
      } else {
        assert (before + page)[|before + page| - 1] == page[|page| - 1];
      }
    } else {
      assert pages[n..] == [];
    }
  }

  lemma SameTracks(s: State, t: State, n: nat)
    requires Tracks(s, n) && t.cursor == s.cursor && t.log.pages == s.log.pages
    requires t.reader == s.reader || (!s.reader.Got? && !s.reader.Sent? && !t.reader.Got? && !t.reader.Sent?)
    ensures Tracks(t, n)
  {
  }

  lemma PrepareTracks(s: State, n: nat)
    requires Tracks(s, n) && ReaderEnabled(s, Prepare)
    ensures Tracks(ReaderApply(s, Prepare), n)
  {
  }

  lemma TracksStep(s: State, l: Label, n: nat)
    requires s.cfg.skip == 0 && Safe(s) && Tracks(s, n) && Enabled(s, l) && l != I(Rewind)
    ensures Tracks(Apply(s, l), n)
  {
    match l {
      case Db(_) => SameTracks(s, Apply(s, l), n);
      case I(i) => IoFrame(s, i); SameTracks(s, Apply(s, l), n);
      case R(r) =>
        if r.Snapshot? { SnapshotTracks(s, n); }
        else if r.Store? { StoreTracks(s, n); }
        else if r.Prepare? { PrepareTracks(s, n); }
        else { ReaderFrame(s, r); SameTracks(s, Apply(s, l), n); }
    }
  }

  /** A step outside the query itself leaves cursor and answers alone. */
  lemma ReaderFrame(s: State, r: ReaderStep)
    requires ReaderEnabled(s, r) && !r.Snapshot? && !r.Store? && !r.Prepare?
    ensures var t := ReaderApply(s, r);
            && t.db == s.db && t.cfg == s.cfg && t.cursor == s.cursor && t.log.pages == s.log.pages
            && !s.reader.Got? && !s.reader.Sent? && !t.reader.Got? && !t.reader.Sent?
  {
  }

  lemma {:induction false} TracksAlong(s: State, run: seq<Label>, n: nat)
    requires s.cfg.skip == 0 && Invariant(s) && Tracks(s, n) && Valid(s, run) && I(Rewind) !in run
    ensures Tracks(Final(s, run), n)
    decreases |run|
  {
    if run != [] {
      assert run[0] in run;
      TracksStep(s, run[0], n);
      StepKeeps(s, run[0]);
      TracksAlong(Apply(s, run[0]), run[1..], n);
    }
  }

  /** With skip 0 the ids fetched between two rewinds strictly increase across all pages, wherever the stretch
      begins and whatever happens to the collection. */
  lemma FetchedIncrease(cfg: Config, s: State, run: seq<Label>)
    requires Proper(cfg) && cfg.skip == 0 && Reachable(cfg, s) && Valid(s, run) && I(Rewind) !in run
    ensures |s.log.pages| <= |Final(s, run).log.pages|
    ensures Ascending(Flat(Final(s, run).log.pages[|s.log.pages|..]))
  {
    ReachableInvariant(cfg, s);
    assert s.log.pages[|s.log.pages|..] == [];
    assert Tracks(s, |s.log.pages|);
    TracksAlong(s, run, |s.log.pages|);
  }

  // ---------------------------------------------------------------- the order of delivery

  lemma {:induction false} ReversedPagesAscend(pages: seq<seq<int>>)
    requires Ascending(Flat(pages))
    ensures Ascending(Unrolled(pages)) <==> forall p :: p in pages ==> |p| <= 1
    ensures (forall p :: p in pages ==> |p| <= 1) ==> Unrolled(pages) == Flat(pages)
    decreases |pages|
  {
    if pages != [] {
      var init, last := pages[..|pages| - 1], pages[|pages| - 1];
      assert pages == init + [last];
      PrefixAscends(Flat(init), last);
      ReversedPagesAscend(init);
      if forall p :: p in pages ==> |p| <= 1 {
        assert last in pages;
        assert Rev(last) == last;
      } else {
        if |last| > 1 { ReversalDescends(last); } else { assert exists p :: p in init && |p| > 1; }
        if Ascending(Unrolled(pages)) { PrefixAscends(Unrolled(init), Rev(last)); }
      }
    }
  }

  lemma ReversalDescends(s: seq<int>)
    requires Ascending(s) && |s| > 1
    ensures !Ascending(Rev(s))
  {
    assert Rev(s)[0] == s[|s| - 1] && Rev(s)[|s| - 1] == s[0];
  }

  lemma PrefixAscends(a: seq<int>, b: seq<int>)
    requires Ascending(a + b)
    ensures Ascending(a) && Ascending(b)
  {
    forall i, j | 0 <= i < j < |a| ensures a[i] < a[j] { assert (a + b)[i] < (a + b)[j]; }
    forall i, j | 0 <= i < j < |b| ensures b[i] < b[j] { assert (a + b)[|a| + i] < (a + b)[|a| + j]; }
  }

  /** On a run without rewinds documents leave in _id order exactly when no page held two documents. */
  lemma OrderKeptIff(cfg: Config, db: seq<int>, run: seq<Label>)
    requires Proper(cfg) && cfg.skip == 0 && Ascending(db) && Valid(Init(cfg, db), run) && I(Rewind) !in run
    ensures var s := Final(Init(cfg, db), run);
            Ascending(Stream(s)) <==> forall p :: p in s.log.pages ==> |p| <= 1
  {
    var s := Final(Init(cfg, db), run);
    Begins(cfg, db);
    FetchedIncrease(cfg, Init(cfg, db), run);
    assert s.log.pages[0..] == s.log.pages;
    RunKeeps(Init(cfg, db), run);
    ReversedPagesAscend(s.log.pages);
  }

  ghost predicate PagesFit(s: State) {
    forall p :: p in s.log.pages ==> |p| <= s.cfg.limit
  }

  lemma {:induction false} PagesFitAlong(s: State, run: seq<Label>)
    requires PagesFit(s) && Valid(s, run)
    ensures PagesFit(Final(s, run))
    decreases |run|
  {
    if run != [] {
      match run[0] {
        case Db(_) =>
        case R(r) => ReaderKeepsConfig(s, r); ReaderPages(s, r);
        case I(i) => IoFrame(s, i);
      }
      PagesFitAlong(Apply(s, run[0]), run[1..]);
    }
  }

  /** A first page of two documents is on its way newest first. */
  lemma PairReversed(cfg: Config)
    requires cfg.skip == 0 && cfg.limit >= 2
    ensures Valid(Init(cfg, [0, 1]), FirstQuery) && I(Rewind) !in FirstQuery
    ensures Stream(Final(Init(cfg, [0, 1]), FirstQuery)) == [1, 0]
  {
    var s := FirstAnswer(cfg, [0, 1]);
    var pair := [0, 1];
    assert pair[Min(0, |pair|)..Min(cfg.limit, |pair|)] == pair;
    assert s.log.popped == [] && s.chan.items == [] && InHand(s.reader) == pair;
    assert Rev(pair) == [1, 0];
  }

  /** Documents leave in _id order on every run without rewinds. */
  ghost predicate KeepsOrder(cfg: Config) {
    forall db, run :: Ascending(db) && Valid(Init(cfg, db), run) && I(Rewind) !in run
                      ==> Ascending(Stream(Final(Init(cfg, db), run)))
  }

  /** The tests expect the newest document last: that holds on every run without rewinds exactly for page size 1. */
  lemma OrderKeptByConfigIff(cfg: Config)
    requires Proper(cfg) && cfg.skip == 0
    ensures KeepsOrder(cfg) <==> cfg.limit == 1
  {
    if cfg.limit == 1 {
      forall db, run | Ascending(db) && Valid(Init(cfg, db), run) && I(Rewind) !in run
        ensures Ascending(Stream(Final(Init(cfg, db), run)))
      {
        PagesFitAlong(Init(cfg, db), run);
        RunKeeps(Init(cfg, db), run);
        OrderKeptIff(cfg, db, run);
      }
    } else {
      PairReversed(cfg);
      assert !Ascending([1, 0]) by { assert [1, 0][0] > [1, 0][1]; }
      assert Ascending([0, 1]);
    }
  }
}
