/** Sequence vocabulary shared by the queue, the pager and the pipelines. */
module Seqs {

  datatype Option<+T> = None | Some(value: T)

  function Min(a: int, b: int): (m: int)
    ensures m <= a && m <= b && (m == a || m == b)
  {
    if a <= b then a else b
  }

  /** The sequence read back to front: the order in which a vector is emptied with back()/pop_back(). */
  function Rev<T>(s: seq<T>): (r: seq<T>)
    ensures |r| == |s|
    ensures forall i :: 0 <= i < |s| ==> r[i] == s[|s| - 1 - i]
  {
    seq(|s|, i requires 0 <= i < |s| => s[|s| - 1 - i])
  }

  lemma RevConcat<T>(a: seq<T>, b: seq<T>)
    ensures Rev(a + b) == Rev(b) + Rev(a)
  {
  }

  /** The pages laid end to end, each page reversed. */
  function Unrolled<T>(pages: seq<seq<T>>): seq<T> {
    if pages == [] then [] else Unrolled(pages[..|pages| - 1]) + Rev(pages[|pages| - 1])
  }

  lemma UnrolledAppend<T>(pages: seq<seq<T>>, page: seq<T>)
    ensures Unrolled(pages + [page]) == Unrolled(pages) + Rev(page)
  {
    assert (pages + [page])[..|pages|] == pages;
  }

  /** The pages laid end to end as they were fetched. */
  function Flat<T>(pages: seq<seq<T>>): seq<T> {
    if pages == [] then [] else Flat(pages[..|pages| - 1]) + pages[|pages| - 1]
  }

  lemma FlatAppend<T>(pages: seq<seq<T>>, page: seq<T>)
    ensures Flat(pages + [page]) == Flat(pages) + page
  {
    assert (pages + [page])[..|pages|] == pages;
  }

  predicate Ascending(s: seq<int>) {
    forall i, j :: 0 <= i < j < |s| ==> s[i] < s[j]
  }

  function Elems(s: seq<int>): set<int> {
    set x | x in s
  }
}
