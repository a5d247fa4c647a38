/** Enumeration of a collection that changes while it is being paged through. */
module ReadEnumeration {
  import opened Seqs
  import opened Monitor
  import opened Pager
  import opened ReadMachine
  import opened ReadInvariants

  /** Everything fetched since the last query that started from scratch. */
  function Epoch(log: Log): seq<int> {
    if log.epochStart <= |log.pages| then Flat(log.pages[log.epochStart..]) else []
  }

  /** The cursor a reader has earned by fetching these documents. */
  function Frontier(fetched: seq<int>): Cursor {
    Advance(Start, fetched)
  }

  /** Every long-lived document up to the frontier has been fetched. */
  ghost predicate Covers(fetched: seq<int>, stable: set<int>) {
    forall x :: x in stable && !Beyond(x, Frontier(fetched)) ==> x in fetched
  }

  ghost predicate Enumerated(s: State) {
    var e := Epoch(s.log);
    && s.log.epochStart <= |s.log.pages|
    && Ascending(e)
    && s.log.stable <= Elems(s.db)
    && Covers(e, s.log.stable)
    && match s.reader
       case Sent(from) => from == Frontier(e) && (s.cursor.Start? || s.cursor == from)
       case Got(from, page) =>
         && Frontier(e) == Advance(from, page)
         && (s.cursor.Start? || s.cursor == from)
         && (page == [] ==> forall x :: x in s.log.stable ==> x in e)
       case _ => s.cursor.Start? || s.cursor == Frontier(e)
  }

  lemma AscendingAppend(a: seq<int>, b: seq<int>)
    requires Ascending(a) && Ascending(b)
    requires forall x :: x in b ==> Beyond(x, Frontier(a))
    ensures Ascending(a + b)
    ensures Frontier(a + b) == Advance(Frontier(a), b)
  {
    if b != [] {
      assert (a + b)[|a + b| - 1] == b[|b| - 1];
    } else {
      assert a + b == a;
    }
    forall i, j | 0 <= i < j < |a + b|
      ensures (a + b)[i] < (a + b)[j]
    {
      if i < |a| <= j { assert b[j - |a|] in b; }
    }
  }

  /** The collection answers with the next run of ids: nothing that stayed is passed over. */
  lemma CoversAppend(e: seq<int>, db: seq<int>, stable: set<int>, page: seq<int>)
    requires Ascending(e) && Covers(e, stable) && stable <= Elems(db)
    requires Ascending(page)
    requires forall x :: x in page ==> x in db && Beyond(x, Frontier(e))
    requires forall x :: x in db && Beyond(x, Frontier(e)) && !Beyond(x, Advance(Frontier(e), page)) ==> x in page
    ensures Covers(e + page, stable)
  {
    AscendingAppend(e, page);
  }

  lemma SnapshotEnumerates(s: State)
    requires s.cfg.skip == 0 && Safe(s) && Enumerated(s) && ReaderEnabled(s, Snapshot)
    ensures Enumerated(ReaderApply(s, Snapshot))
  {
    var t := ReaderApply(s, Snapshot);
    var e, page := Epoch(s.log), t.reader.page;
    assert t.log.pages[t.log.epochStart..] == s.log.pages[s.log.epochStart..] + [page];
    FlatAppend(s.log.pages[s.log.epochStart..], page);
    assert Epoch(t.log) == e + page;
    PageWithoutSkip(s.db, s.reader.from, s.cfg.limit);
    AscendingAppend(e, page);
    CoversAppend(e, s.db, s.log.stable, page);
  }

  lemma ReaderEnumerates(s: State, r: ReaderStep)
    requires s.cfg.skip == 0 && Safe(s) && Enumerated(s) && ReaderEnabled(s, r)
    ensures Enumerated(ReaderApply(s, r))
  {
    match r {
      case Snapshot => SnapshotEnumerates(s);
      case Prepare =>
        if s.cursor.Start? {
          assert Epoch(ReaderApply(s, r).log) == [];
        }
      case EnterPush =>
      case ResumePush =>
      case _ =>
    }
  }

  /** What the reader relies on. */
  ghost predicate SameView(s: State, t: State) {
    && t.reader == s.reader && t.db == s.db && t.cfg == s.cfg && t.cursor == s.cursor
    && t.log.pages == s.log.pages && t.log.epochStart == s.log.epochStart && t.log.stable == s.log.stable
  }

  lemma PopFrame(s: State, p: PopResult<int>)
    requires s.io.Popping?
    ensures SameView(s, AfterPop(s, p))
  {
  }

  /** The io thread touches the cursor only to clear it. */
  lemma IoFrame(s: State, i: IoStep)
    requires IoEnabled(s, i)
    ensures SameView(if i.Rewind? then s.(cursor := Start) else s, IoApply(s, i))
  {
    match i {
      case EnterPop => PopFrame(s, PopEnter(s.chan));
      case ResumePop => PopFrame(s, PopBody(s.chan));
      case _ =>
    }
  }

  lemma IoEnumerates(s: State, i: IoStep)
    requires Enumerated(s) && IoEnabled(s, i)
    ensures Enumerated(IoApply(s, i))
  {
    IoFrame(s, i);
    SameEnumeration(s, IoApply(s, i));
  }

  lemma SameEnumeration(s: State, t: State)
    requires Enumerated(s) && (SameView(s, t) || SameView(s.(cursor := Start), t))
    ensures Enumerated(t)
  {
  }

  /** Whatever the collection becomes, what stayed in it is still covered. */
  lemma DbEnumerates(s: State, db: seq<int>)
    requires Enumerated(s) && Enabled(s, Db(db))
    ensures Enumerated(Apply(s, Db(db)))
  {
    var t := Apply(s, Db(db));
    assert Epoch(t.log) == Epoch(s.log) && t.log.stable <= s.log.stable;
  }

  // ---------------------------------------------------------------- the end flag

  /** Every document that stayed in the collection since the pass began has been fetched in it. */
  ghost predicate Complete(log: Log) {
    forall x :: x in log.stable ==> x in Epoch(log)
  }

  /** The reader is between two queries and holds nothing to push. */
  predicate Resting(r: Reader) {
    r.Check? || r.Ask? || r.Sleeping? || r.Done?
  }

  /** While no query is under way, m_reach_end says that the pass is complete. */
  ghost predicate EndSound(s: State) {
    && (s.reader.Loop? || s.reader.Pushing? ==> !s.reachEnd)
    && (s.reader.Fetched? && s.reader.page == [] ==> Complete(s.log))
    && (s.reachEnd && Resting(s.reader) ==> Complete(s.log))
  }

  lemma ReaderKeepsEnd(s: State, r: ReaderStep)
    requires Enumerated(s) && EndSound(s) && ReaderEnabled(s, r)
    ensures EndSound(ReaderApply(s, r))
  {
    match r {
      case Prepare =>
      case Snapshot =>
      case EnterPush => ReaderKeepsEpoch(s, r);
      case ResumePush => ReaderKeepsEpoch(s, r);
      case _ => ReaderKeepsEpoch(s, r);
    }
  }

  lemma ReaderKeepsEpoch(s: State, r: ReaderStep)
    requires ReaderEnabled(s, r) && !r.Prepare? && !r.Snapshot?
    ensures Epoch(ReaderApply(s, r).log) == Epoch(s.log) && ReaderApply(s, r).log.stable == s.log.stable
  {
    assert ReaderApply(s, r).log.pages == s.log.pages && ReaderApply(s, r).log.epochStart == s.log.epochStart;
  }

  lemma DbKeepsEnd(s: State, db: seq<int>)
    requires EndSound(s) && Enabled(s, Db(db))
    ensures EndSound(Apply(s, Db(db)))
  {
    var t := Apply(s, Db(db));
    assert Epoch(t.log) == Epoch(s.log) && t.log.stable <= s.log.stable;
  }

  lemma IoKeepsEnd(s: State, i: IoStep)
    requires EndSound(s) && IoEnabled(s, i)
    ensures EndSound(IoApply(s, i))
    ensures IoApply(s, i).reachEnd == (s.reachEnd && !i.Rewind?)
  {
    IoFrame(s, i);
    EndFrame(s, i);
    assert Epoch(IoApply(s, i).log) == Epoch(s.log);
  }

  lemma EndFrame(s: State, i: IoStep)
    requires IoEnabled(s, i)
    ensures IoApply(s, i).reachEnd == (s.reachEnd && !i.Rewind?)
  {
  }
}
