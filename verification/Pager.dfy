/**
 The paginating query. A document is represented by its _id, the only part of
 it the broker inspects; the matching part of the collection at one instant is
 an ascending sequence of ids.
 */
module Pager {
  import opened Arith
  import opened Seqs

  /** m_last_doc_id: the empty string, or the id of the last document fetched. */
  datatype Cursor = Start | After(id: int)

  predicate Beyond(x: int, c: Cursor) {
    c.Start? || c.id < x
  }

  /** {_id: {$gt: last}} applied to the collection from index i on. */
  function SelectFrom(db: seq<int>, c: Cursor, i: nat): seq<int>
    decreases |db| - i
  {
    if i >= |db| then [] else (if Beyond(db[i], c) then [db[i]] else []) + SelectFrom(db, c, i + 1)
  }

  function Select(db: seq<int>, c: Cursor): seq<int> {
    SelectFrom(db, c, 0)
  }

  /** The answer of the database: condition, then skip, then limit. */
  function Page(db: seq<int>, c: Cursor, skip: nat, limit: nat): seq<int> {
    var m := Select(db, c);
    m[Min(skip, |m|)..Min(skip + limit, |m|)]
  }

  /** What query() leaves in m_last_doc_id. */
  function Advance(c: Cursor, page: seq<int>): Cursor {
    if page == [] then c else After(page[|page| - 1])
  }

  /** The number of leading documents the cursor has passed. */
  function PositionFrom(db: seq<int>, c: Cursor, i: nat): (k: nat)
    requires i <= |db|
    ensures i <= k <= |db|
    ensures forall j :: i <= j < k ==> !Beyond(db[j], c)
    ensures k < |db| ==> Beyond(db[k], c)
    decreases |db| - i
  {
    if i == |db| || Beyond(db[i], c) then i else PositionFrom(db, c, i + 1)
  }

  function Position(db: seq<int>, c: Cursor): (k: nat)
    ensures k <= |db|
    ensures forall j :: 0 <= j < k ==> !Beyond(db[j], c)
    ensures k < |db| ==> Beyond(db[k], c)
  {
    PositionFrom(db, c, 0)
  }

  lemma {:induction false} SelectSkips(db: seq<int>, c: Cursor, i: nat, k: nat)
    requires i <= k <= |db| && forall j :: i <= j < k ==> !Beyond(db[j], c)
    ensures SelectFrom(db, c, i) == SelectFrom(db, c, k)
    decreases k - i
  {
    if i < k { SelectSkips(db, c, i + 1, k); }
  }

  lemma {:induction false} SelectTakes(db: seq<int>, c: Cursor, k: nat)
    requires k <= |db| && forall j :: k <= j < |db| ==> Beyond(db[j], c)
    ensures SelectFrom(db, c, k) == db[k..]
    decreases |db| - k
  {
    if k < |db| {
      SelectTakes(db, c, k + 1);
      assert db[k..] == [db[k]] + db[k + 1..];
    }
  }

  lemma BeyondIsUpward(db: seq<int>, c: Cursor)
    requires Ascending(db)
    ensures forall j :: 0 <= j < |db| ==> (Beyond(db[j], c) <==> Position(db, c) <= j)
  {
  }

  /** In an ascending collection the selection is a suffix. */
  lemma SelectIsSuffix(db: seq<int>, c: Cursor)
    requires Ascending(db)
    ensures Select(db, c) == db[Position(db, c)..]
  {
    BeyondIsUpward(db, c);
    SelectSkips(db, c, 0, Position(db, c));
    SelectTakes(db, c, Position(db, c));
  }

  /** The page as a slice of the collection. */
  lemma PageIsSlice(db: seq<int>, c: Cursor, skip: nat, limit: nat)
    requires Ascending(db)
    ensures var k := Position(db, c);
            Page(db, c, skip, limit) == db[Min(k + skip, |db|)..Min(k + skip + limit, |db|)]
  {
    SelectIsSuffix(db, c);
    var k, m := Position(db, c), Select(db, c);
    var lo, hi := Min(skip, |m|), Min(skip + limit, |m|);
    assert db[k..][lo..hi] == db[k + lo..k + hi];
  }

  /** p is the run of smallest ids beyond the cursor: ascending, gap-free, and empty only at the end. */
  ghost predicate NextRun(db: seq<int>, c: Cursor, p: seq<int>) {
    && Ascending(p)
    && (forall x :: x in p ==> x in db && Beyond(x, c))
    && (forall x :: x in db && Beyond(x, c) && !Beyond(x, Advance(c, p)) ==> x in p)
    && (p == [] ==> forall x :: x in db ==> !Beyond(x, c))
  }

  /** With skip 0 a page is the next run of the collection. */
  lemma PageWithoutSkip(db: seq<int>, c: Cursor, limit: nat)
    requires Ascending(db) && limit > 0
    ensures NextRun(db, c, Page(db, c, 0, limit))
  {
    var k := Position(db, c);
    var hi := Min(k + limit, |db|);
    assert Page(db, c, 0, limit) == db[k..hi] by { PageIsSlice(db, c, 0, limit); }
    SliceIsRun(db, c, k, hi) by { BeyondIsUpward(db, c); }
  }

  lemma SliceIsRun(db: seq<int>, c: Cursor, k: nat, hi: nat)
    requires Ascending(db) && k <= hi <= |db| && (k == hi ==> hi == |db|)
    requires forall i :: 0 <= i < |db| ==> (Beyond(db[i], c) <==> k <= i)
    ensures NextRun(db, c, db[k..hi])
  {
    var p := db[k..hi];
    forall x | x in db && Beyond(x, c) && !Beyond(x, Advance(c, p))
      ensures x in p
    {
      var i :| 0 <= i < |db| && db[i] == x;
      if k < hi && i < hi {
        assert p[i - k] == db[i];
      }
    }
  }

  // ---------------------------------------------------------------- closed form on a fixed collection

  function CursorAt(s: seq<int>, skip: nat, limit: nat, k: nat): Cursor {
    if k == 0 then Start
    else
      var c := CursorAt(s, skip, limit, k - 1);
      Advance(c, Page(s, c, skip, limit))
  }

  /** The answer to the k-th query when nothing changes the collection. */
  function PageAt(s: seq<int>, skip: nat, limit: nat, k: nat): seq<int> {
    Page(s, CursorAt(s, skip, limit, k), skip, limit)
  }

  lemma PositionAfter(s: seq<int>, i: nat)
    requires Ascending(s) && i < |s|
    ensures Position(s, After(s[i])) == i + 1
  {
    BeyondIsUpward(s, After(s[i]));
    var k := Position(s, After(s[i]));
    assert !Beyond(s[i], After(s[i]));
    if i + 1 < |s| { assert Beyond(s[i + 1], After(s[i])); }
  }

  /** One query moves the cursor a whole window, unless it returned nothing. */
  lemma PositionNext(s: seq<int>, c: Cursor, skip: nat, limit: nat)
    requires Ascending(s) && limit > 0
    ensures Position(s, Advance(c, Page(s, c, skip, limit))) ==
            if Position(s, c) + skip >= |s| then Position(s, c) else Min(Position(s, c) + skip + limit, |s|)
  {
    PageIsSlice(s, c, skip, limit);
    var p, page := Position(s, c), Page(s, c, skip, limit);
    if p + skip < |s| {
      var hi := Min(p + skip + limit, |s|);
      assert page == s[p + skip..hi];
      assert page[|page| - 1] == s[hi - 1];
      PositionAfter(s, hi - 1);
    }
  }

  /** k windows of w documents. */
  function Windows(k: nat, w: nat): nat {
    if k == 0 then 0 else Windows(k - 1, w) + w
  }

  lemma {:induction false} WindowsIsProduct(k: nat, w: nat)
    ensures Windows(k, w) == k * w
  {
    if k > 0 {
      WindowsIsProduct(k - 1, w);
      TimesSucc(k - 1, w);
    }
  }

  /** After k queries the cursor stands at k windows, or has stuck where at most skip documents remain. */
  lemma {:induction false} PositionAt(s: seq<int>, skip: nat, limit: nat, k: nat)
    requires Ascending(s) && limit > 0
    ensures var p, at := Position(s, CursorAt(s, skip, limit, k)), Windows(k, skip + limit);
            p == Min(|s|, at) || (p + skip >= |s| && p <= at)
  {
    if k == 0 {
      assert Position(s, Start) == 0;
    } else {
      PositionAt(s, skip, limit, k - 1);
      PositionNext(s, CursorAt(s, skip, limit, k - 1), skip, limit);
    }
  }

  lemma PageInWindow(s: seq<int>, skip: nat, limit: nat, k: nat)
    requires Ascending(s) && limit > 0
    ensures var at := Windows(k, skip + limit);
            PageAt(s, skip, limit, k) == s[Min(|s|, at + skip)..Min(|s|, at + skip + limit)]
  {
    PositionAt(s, skip, limit, k);
    PageIsSlice(s, CursorAt(s, skip, limit, k), skip, limit);
  }

  /** The k-th page on a fixed collection. */
  lemma PageClosedForm(s: seq<int>, skip: nat, limit: nat, k: nat)
    requires Ascending(s) && limit > 0
    ensures k * (skip + limit) >= 0
    ensures PageAt(s, skip, limit, k)
         == s[Min(|s|, k * (skip + limit) + skip)..Min(|s|, (k + 1) * (skip + limit))]
  {
    PageInWindow(s, skip, limit, k);
    WindowsIsProduct(k, skip + limit);
    WindowsIsProduct(k + 1, skip + limit);
  }

  /** Because skip is applied on every page, a document is ever fetched exactly when its index falls outside the
      skipped head of its window. */
  lemma FetchedIff(s: seq<int>, skip: nat, limit: nat, i: nat)
    requires Ascending(s) && limit > 0 && i < |s|
    ensures (exists k: nat :: s[i] in PageAt(s, skip, limit, k)) <==> i % (skip + limit) >= skip
  {
    var w := skip + limit;
    if i % w >= skip {
      WindowsIsProduct(i / w, w);
      assert i == Windows(i / w, w) + i % w;
      InPageIff(s, skip, limit, i, i / w);
    }
    forall k: nat | s[i] in PageAt(s, skip, limit, k)
      ensures i % w >= skip
    {
      InPageIff(s, skip, limit, i, k);
      WindowsIsProduct(k, w);
      DivisionIsUnique(i, w, k, i - Windows(k, w));
    }
  }

  lemma InPageIff(s: seq<int>, skip: nat, limit: nat, i: nat, k: nat)
    requires Ascending(s) && limit > 0 && i < |s|
    ensures s[i] in PageAt(s, skip, limit, k)
       <==> Windows(k, skip + limit) + skip <= i < Windows(k, skip + limit) + skip + limit
  {
    var at := Windows(k, skip + limit);
    PageInWindow(s, skip, limit, k);
    InSliceIff(s, Min(|s|, at + skip), Min(|s|, at + skip + limit), i);
  }

  lemma InSliceIff(s: seq<int>, lo: nat, hi: nat, i: nat)
    requires Ascending(s) && lo <= hi <= |s| && i < |s|
    ensures s[i] in s[lo..hi] <==> lo <= i < hi
  {
    if lo <= i < hi { assert s[lo..hi][i - lo] == s[i]; }
  }

  lemma DivisionIsUnique(i: nat, w: nat, k: nat, r: nat)
    requires w > 0 && r < w && i == k * w + r
    ensures i % w == r
  {
    assert i == (i / w) * w + i % w;
    RemainderIsUnique(w, k, r, i / w, i % w);
  }

  lemma RemainderIsUnique(w: nat, k: nat, r: nat, q: nat, m: nat)
    requires r < w && m < w && k * w + r == q * w + m
    ensures r == m
  {
    if k > q { TimesMonotone(q + 1, k, w); TimesSucc(q, w); }
    if k < q { TimesMonotone(k + 1, q, w); TimesSucc(k, w); }
  }

  function PagesUpTo(s: seq<int>, skip: nat, limit: nat, k: nat): seq<seq<int>> {
    if k == 0 then [] else PagesUpTo(s, skip, limit, k - 1) + [PageAt(s, skip, limit, k - 1)]
  }

  /** With skip 0 the pages fetched so far are a prefix of the collection. */
  lemma {:induction false} PagesConcatenate(s: seq<int>, limit: nat, k: nat)
    requires Ascending(s) && limit > 0
    ensures Flat(PagesUpTo(s, 0, limit, k)) == s[..Min(|s|, Windows(k, limit))]
  {
    if k > 0 {
      PagesConcatenate(s, limit, k - 1);
      FlatAppend(PagesUpTo(s, 0, limit, k - 1), PageAt(s, 0, limit, k - 1));
      PageAppends(s, limit, k - 1);
    }
  }

  lemma PageAppends(s: seq<int>, limit: nat, k: nat)
    requires Ascending(s) && limit > 0
    ensures s[..Min(|s|, Windows(k, limit))] + PageAt(s, 0, limit, k) == s[..Min(|s|, Windows(k, limit) + limit)]
  {
    var at := Windows(k, limit);
    PageInWindow(s, 0, limit, k);
    SlicesJoin(s, Min(|s|, at), Min(|s|, at + limit));
  }

  lemma SlicesJoin(s: seq<int>, a: nat, b: nat)
    requires a <= b <= |s|
    ensures s[..a] + s[a..b] == s[..b]
  {
  }

  lemma CeilingDivides(n: nat, limit: nat, k: nat)
    requires limit > 0
    ensures k * limit < n <==> k < (n + limit - 1) / limit
  {
    var c := (n + limit - 1) / limit;
    assert n + limit - 1 == c * limit + (n + limit - 1) % limit;
    if k < c { TimesMonotone(k + 1, c, limit); TimesSucc(k, limit); } else { TimesMonotone(c, k, limit); }
  }

  /** Exactly ceil(|S|/limit) queries return documents, they come first, and together they are S. */
  lemma WholeCollection(s: seq<int>, limit: nat)
    requires Ascending(s) && limit > 0
    ensures var n := (|s| + limit - 1) / limit;
            && Flat(PagesUpTo(s, 0, limit, n)) == s
            && forall k: nat :: PageAt(s, 0, limit, k) != [] <==> k < n
  {
    var n := (|s| + limit - 1) / limit;
    PagesConcatenate(s, limit, n);
    WindowsIsProduct(n, limit);
    CeilingDivides(|s|, limit, n);
    forall k: nat
      ensures PageAt(s, 0, limit, k) != [] <==> k < n
    {
      PageInWindow(s, 0, limit, k);
      WindowsIsProduct(k, limit);
      CeilingDivides(|s|, limit, k);
    }
  }
}
