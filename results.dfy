/** A snapshot of a search's matches, with the documents and URLs they name
    resolved on first access and cached. */
module Results {
  import opened Wrappers
  import opened Engine

  /** The present values of `xs`, in order; the `None` entries are dropped
      (Swift's `flatMap { $0 }` over optionals). */
  function Compact<T>(xs: seq<Option<T>>): (r: seq<T>)
    ensures |r| <= |xs|
  {
    if xs == [] then []
    else (if xs[0].Some? then [xs[0].value] else []) + Compact(xs[1..])
  }

  /** Compacting distributes over concatenation: the order of what is kept is
      the order of the input. */
  lemma {:induction false} CompactAppend<T>(a: seq<Option<T>>, b: seq<Option<T>>)
    ensures Compact(a + b) == Compact(a) + Compact(b)
  {
    if a == [] {
      assert a + b == b;
    } else {
      assert (a + b)[0] == a[0];
      assert (a + b)[1..] == a[1..] + b;
      CompactAppend(a[1..], b);
    }
  }

  /** A value is kept exactly when it is present somewhere in the input. */
  lemma {:induction false} CompactMember<T>(xs: seq<Option<T>>, x: T)
    ensures x in Compact(xs) <==> Some(x) in xs
  {
    if xs != [] {
      CompactMember(xs[1..], x);
      assert xs == [xs[0]] + xs[1..];
    }
  }

  /** Nothing is lost exactly when every entry is present. */
  lemma {:induction false} CompactFull<T>(xs: seq<Option<T>>)
    ensures |Compact(xs)| == |xs| <==> forall i :: 0 <= i < |xs| ==> xs[i].Some?
  {
    if xs != [] {
      CompactFull(xs[1..]);
      assert forall i :: 1 <= i < |xs| ==> xs[i] == xs[1..][i - 1];
    }
  }

  /** When every entry is present, compacting is unwrapping, entry by entry. */
  lemma {:induction false} CompactAllPresent<T>(xs: seq<Option<T>>)
    requires forall i :: 0 <= i < |xs| ==> xs[i].Some?
    ensures |Compact(xs)| == |xs|
    ensures forall i :: 0 <= i < |xs| ==> Compact(xs)[i] == xs[i].value
  {
    if xs != [] {
      CompactAllPresent(xs[1..]);
    }
  }

  /** The result set handed to progress and completion handlers. */
  class SearchResults {
    const index: Index
    var documentIDs: seq<DocumentID>
    const scores: seq<Score>

    var cachedDocuments: Option<seq<Document>>
    var cachedURLs: Option<seq<Url>>

    /** How often each resolver has been asked, for the compute-once property. */
    ghost var documentResolutions: nat
    ghost var urlResolutions: nat

    /** A cache, once filled, holds the resolution of the identifiers, and each
        resolver has been asked exactly as often as its cache is filled. */
    ghost predicate Valid()
      reads this
    {
      (cachedDocuments.Some? ==> cachedDocuments.value == Compact(index.DocumentsWithIDs(documentIDs))) &&
      (cachedURLs.Some? ==> cachedURLs.value == Compact(index.URLsWithIDs(documentIDs))) &&
      documentResolutions == (if cachedDocuments.Some? then 1 else 0) &&
      urlResolutions == (if cachedURLs.Some? then 1 else 0)
    }

    constructor (index: Index, documentIDs: seq<DocumentID>, scores: seq<Score>)
      ensures Valid()
      ensures this.index == index && this.documentIDs == documentIDs && this.scores == scores
      ensures cachedDocuments == None && cachedURLs == None
      ensures documentResolutions == 0 && urlResolutions == 0
    {
      this.index := index;
      this.documentIDs := documentIDs;
      this.scores := scores;
      cachedDocuments := None;
      cachedURLs := None;
      documentResolutions := 0;
      urlResolutions := 0;
    }

    /** The resolved documents: on first access the resolver's output with the
        unresolved identifiers dropped; later accesses return the cached list
        without asking the resolver again. */
    method Documents() returns (docs: seq<Document>)
      requires Valid()
      modifies this`cachedDocuments, this`documentResolutions
      ensures Valid()
      ensures docs == Compact(index.DocumentsWithIDs(documentIDs))
      ensures |docs| <= |documentIDs|
      ensures |docs| == |documentIDs| <==> forall i :: 0 <= i < |documentIDs| ==> index.documentOf(documentIDs[i]).Some?
      ensures cachedDocuments == Some(docs) && documentResolutions == 1
      ensures old(cachedDocuments).Some? ==> docs == old(cachedDocuments).value && documentResolutions == old(documentResolutions)
    {
      if cachedDocuments == None {
        cachedDocuments := Some(Compact(index.DocumentsWithIDs(documentIDs)));
        documentResolutions := documentResolutions + 1;
      }
      docs := cachedDocuments.value;
      CompactFull(index.DocumentsWithIDs(documentIDs));
    }

    /** The resolved URLs, with the same compute-once behaviour as Documents. */
    method URLs() returns (urls: seq<Url>)
      requires Valid()
      modifies this`cachedURLs, this`urlResolutions
      ensures Valid()
      ensures urls == Compact(index.URLsWithIDs(documentIDs))
      ensures |urls| <= |documentIDs|
      ensures |urls| == |documentIDs| <==> forall i :: 0 <= i < |documentIDs| ==> index.urlOf(documentIDs[i]).Some?
      ensures cachedURLs == Some(urls) && urlResolutions == 1
      ensures old(cachedURLs).Some? ==> urls == old(cachedURLs).value && urlResolutions == old(urlResolutions)
    {
      if cachedURLs == None {
        cachedURLs := Some(Compact(index.URLsWithIDs(documentIDs)));
        urlResolutions := urlResolutions + 1;
      }
      urls := cachedURLs.value;
      CompactFull(index.URLsWithIDs(documentIDs));
    }
  }
}
