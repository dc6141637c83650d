/** Iterating over search results page by page. The search itself is a fixed, ordered list of
    document keys; it may fail for some pages, and a key may have no document. */
module Paging {
  import opened Options

  datatype Document = Document(key: string, title: string)

  datatype Error = SearchFailed | NotFound

  const BATCH_SIZE: nat := 10

  /** One page of the results, and how many results there are in all. */
  datatype Page = Page(hits: seq<string>, total: nat)

  datatype Index = Index(results: seq<string>, docs: map<string, Document>, failing: set<nat>) {
    /** The page that starts at `from`. */
    function Search(from: nat): (r: Option<Page>)
      ensures r.Some? <==> from !in failing
      ensures r.Some? ==> r.value == PageAt(from)
    {
      if from in failing then None else Some(PageAt(from))
    }

    function PageAt(from: nat): (p: Page)
      ensures p.total == |results| && |p.hits| <= BATCH_SIZE
      ensures |p.hits| == (if from + BATCH_SIZE <= |results| then BATCH_SIZE
                            else if from <= |results| then |results| - from else 0)
      ensures forall k :: 0 <= k < |p.hits| ==> p.hits[k] == results[from + k]
    {
      var lo := if from <= |results| then from else |results|;
      var hi := if from + BATCH_SIZE <= |results| then from + BATCH_SIZE else |results|;
      Page(results[lo..hi], |results|)
    }
  }

  lemma TenMore(x: nat, i: nat)
    requires x % 10 == 0 && i <= 10
    ensures (x + i) % 10 == 0 <==> i == 0 || i == 10
  {
  }

  lemma NextMultiple(x: nat)
    requires x % 10 == 0
    ensures (x + BATCH_SIZE) % 10 == 0
  {
  }

  class Iterator {
    var idx: Option<Index>
    var from: nat                // the offset in the search request
    var cumIdx: nat              // the position in the result list
    var rsIdx: nat               // the position in the current page
    var rs: Option<Page>
    var latchedDoc: Option<Document>
    var lastErr: Option<Error>

    /** What is iterated over. */
    ghost const source: Index
    ghost const start: nat

    /** The position is that of the page plus that in the page, which is the current one. */
    ghost predicate Valid()
      reads this
    {
      && (rs.Some? ==> rs.value.total == |source.results|)
      && (rs == None ==> lastErr != None)
      && (idx == None && rs.Some? ==> cumIdx == |source.results|)
      && (idx.Some? && lastErr == None ==>
            && idx.value == source && rs == Some(source.PageAt(from))
            && cumIdx == from + rsIdx && rsIdx <= |rs.value.hits|
            && start <= from && (from - start) % 10 == 0 && (rsIdx == 0 ==> from == start))
    }

    /** The page has been used up and the next one has to be fetched: every ten results. */
    ghost predicate AtPageEnd()
      reads this
    {
      start < cumIdx && (cumIdx - start) % 10 == 0
    }

    /** The results from an offset on, given that the first page could be fetched. */
    constructor (index: Index, offset: nat)
      requires offset !in index.failing
      ensures Valid() && source == index && idx == Some(index) && cumIdx == offset && lastErr == None
      ensures start == offset
    {
      source := index;
      start := offset;
      idx := Some(index);
      from := offset;
      cumIdx := offset;
      rsIdx := 0;
      rs := index.Search(offset);
      latchedDoc := None;
      lastErr := None;
    }

    method Close()
      requires Valid()
      modifies this
      ensures Valid() && idx == None && (rs.Some? ==> cumIdx == |source.results|)
      ensures rs == old(rs) && lastErr == old(lastErr)
    {
      idx := None;
      if rs != None {
        cumIdx := rs.value.total;
      }
    }

    /** Whether there is nothing left to iterate over. */
    ghost predicate Finished()
      reads this
    {
      idx == None || lastErr != None || |source.results| <= cumIdx
    }

    lemma PageEndIff()
      requires Valid() && !Finished()
      ensures AtPageEnd() <==> rs.Some? && |rs.value.hits| <= rsIdx
    {
      TenMore(from - start, rsIdx);
    }

    /** Loads the next document; false, with nothing changed, when finished, and false with an error
        when the next page or the document cannot be had. */
    method Next() returns (more: bool)
      requires Valid()
      modifies this
      ensures Valid() && idx == old(idx)
      ensures old(Finished()) ==>
                !more && cumIdx == old(cumIdx) && lastErr == old(lastErr) && latchedDoc == old(latchedDoc)
      ensures !old(Finished()) ==>
                && (more <==> lastErr == None)
                && (lastErr == None ==>
                      && source.results[old(cumIdx)] in source.docs
                      && latchedDoc == Some(source.docs[source.results[old(cumIdx)]])
                      && cumIdx == old(cumIdx) + 1)
                && (lastErr == None || lastErr == Some(SearchFailed) || lastErr == Some(NotFound))
                && (lastErr == Some(SearchFailed) <==> old(AtPageEnd()) && old(cumIdx) in source.failing)
                && (lastErr == Some(NotFound) ==> source.results[old(cumIdx)] !in source.docs)
    {
      hide AtPageEnd;
      if lastErr != None || rs == None || cumIdx >= rs.value.total {
        return false;
      }
      PageEndIff();
      if rsIdx >= |rs.value.hits| {
        NextMultiple(from - start);
        from := from + BATCH_SIZE;
        rs := idx.value.Search(from);
        if rs == None {
          lastErr := Some(SearchFailed);
          return false;
        }
        rsIdx := 0;
      }
      var nextID := rs.value.hits[rsIdx];
      if nextID !in idx.value.docs {
        latchedDoc, lastErr := None, Some(NotFound);
        return false;
      }
      latchedDoc := Some(idx.value.docs[nextID]);
      cumIdx := cumIdx + 1;
      rsIdx := rsIdx + 1;
      return true;
    }

    function Error(): Option<Error>
      reads this
    {
      lastErr
    }

    function TotalCount(): nat
      reads this
    {
      if rs == None then 0 else rs.value.total
    }
  }

  /** The results from an offset on; an error if the first page cannot be had. */
  method Search(index: Index, offset: nat) returns (it: Iterator?, err: Option<Error>)
    ensures offset in index.failing <==> err == Some(SearchFailed)
    ensures err == None || err == Some(SearchFailed)
    ensures it == null <==> err != None
    ensures it != null ==>
              && fresh(it) && it.Valid() && it.source == index && it.idx == Some(index)
              && it.cumIdx == it.start == offset && it.lastErr == None
  {
    if index.Search(offset) == None {
      return null, Some(SearchFailed);
    }
    it := new Iterator(index, offset);
    err := None;
  }

  /** Every page and every document can be had. */
  ghost predicate Reliable(index: Index) {
    index.failing == {} && forall k :: 0 <= k < |index.results| ==> index.results[k] in index.docs
  }

  /** The documents from position `i` on, in order. */
  ghost function DocumentsFrom(index: Index, i: nat): (docs: seq<Document>)
    requires Reliable(index)
    decreases |index.results| - i
  {
    if |index.results| <= i then [] else [index.docs[index.results[i]]] + DocumentsFrom(index, i + 1)
  }

  lemma DocumentsStep(index: Index, i: nat)
    requires Reliable(index)
    ensures |index.results| <= i ==> DocumentsFrom(index, i) == []
    ensures i < |index.results| ==> index.results[i] in index.docs
    ensures i < |index.results| ==>
              DocumentsFrom(index, i) == [index.docs[index.results[i]]] + DocumentsFrom(index, i + 1)
  {
  }

  method NextReliable(it: Iterator, index: Index) returns (more: bool)
    requires Reliable(index) && it.Valid() && it.source == index && it.idx == Some(index) && it.lastErr == None
    modifies it
    ensures it.Valid() && it.idx == Some(index) && it.lastErr == None
    ensures more <==> old(it.cumIdx) < |index.results|
    ensures more ==> it.cumIdx == old(it.cumIdx) + 1
    ensures more ==>
              && index.results[old(it.cumIdx)] in index.docs
              && it.latchedDoc == Some(index.docs[index.results[old(it.cumIdx)]])
    ensures !more ==> it.cumIdx == old(it.cumIdx)
  {
    hide Index.Search, Index.PageAt, Iterator.Valid;
    assert it.cumIdx < |index.results| ==> index.results[it.cumIdx] in index.docs;
    more := it.Next();
  }

  /** Whatever the offset, going through all pages gives the documents of the result list from there
      on, in order and each once, if every page and every document can be had. */
  method Drain(index: Index, offset: nat) returns (docs: seq<Document>, total: nat)
    requires Reliable(index)
    ensures docs == DocumentsFrom(index, offset) && total == |index.results|
  {
    hide Index.PageAt, Index.Search, DocumentsFrom;
    var it, err := Search(index, offset);
    docs := [];
    ghost var i := offset;
    DocumentsStep(index, i);
    var more := NextReliable(it, index);
    while more
      invariant fresh(it) && it.Valid() && it.source == index && it.idx == Some(index) && it.lastErr == None
      invariant more <==> i < |index.results|
      invariant more ==> it.cumIdx == i + 1 && it.latchedDoc == Some(index.docs[index.results[i]])
      invariant docs + DocumentsFrom(index, i) == DocumentsFrom(index, offset)
      decreases |index.results| - i
    {
      DocumentsStep(index, i);
      Regroup(docs, it.latchedDoc.value, DocumentsFrom(index, i + 1));
      docs := docs + [it.latchedDoc.value];
      i := i + 1;
      more := NextReliable(it, index);
    }
    DocumentsStep(index, i);
    total := it.TotalCount();
  }

  lemma Regroup<T>(a: seq<T>, x: T, b: seq<T>)
    ensures a + ([x] + b) == (a + [x]) + b
  {
  }

  lemma {:induction false} DocumentsAt(index: Index, i: nat, k: nat)
    requires Reliable(index)
    ensures |DocumentsFrom(index, i)| == if i <= |index.results| then |index.results| - i else 0
    ensures k < |DocumentsFrom(index, i)| ==> DocumentsFrom(index, i)[k] == index.docs[index.results[i + k]]
    decreases |index.results| - i
  {
    if i < |index.results| {
      DocumentsAt(index, i + 1, if 0 < k then k - 1 else 0);
    }
  }
}
