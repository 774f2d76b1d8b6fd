/** The text-indexing engine as the search layer sees it.

    Storage, tokenising and scoring belong to the engine and are not modelled.
    What remains is its interface: an index resolves document identifiers to
    documents and URLs, and a running search hands out its matches in batches.
    Both are oracles fixed when the index is built. */
module Engine {
  import opened Wrappers

  /** Engine-assigned identifier of a document within one index. */
  type DocumentID = int

  /** A relevance score. Scores are carried next to identifiers and never computed with. */
  type Score = real

  type Url = string

  /** An engine document handle; identity is the handle. */
  datatype Document = Document(handle: nat)

  /** The options a search is created with; they are passed through to the engine. */
  datatype SearchOptions = Default | NoRelevanceScores | SpaceMeansOR | FindSimilar

  /** One answer the engine holds for a running search: the matches of that
      batch and whether more remain after it. */
  datatype Batch = Batch(ids: seq<DocumentID>, scores: seq<Score>, more: bool)

  /** What one call to fetch matches reports: the "more remain" flag, the two
      buffers of length `limit`, and how many leading entries of them are filled. */
  datatype Matches = Matches(more: bool, documentIDs: seq<DocumentID>, scores: seq<Score>, found: nat)

  function Min(a: nat, b: nat): nat { if a <= b then a else b }

  /** `n` copies of the value the caller's buffers are initialised with. */
  function Zeros<T>(n: nat, zero: T): (r: seq<T>)
    ensures |r| == n && forall i :: 0 <= i < n ==> r[i] == zero
  {
    seq(n, _ => zero)
  }

  /** What the engine passes on from its next answer to a fetch of at most
      `limit` matches: the answer's flag and as many of its matches as fit,
      identifiers and scores in step. An exhausted search passes on nothing
      and reports no more results. */
  function Trim(pending: seq<Batch>, limit: nat): (t: Batch)
    ensures |t.ids| == |t.scores| <= limit
    ensures pending == [] ==> t == Batch([], [], false)
  {
    if pending == [] then Batch([], [], false)
    else
      var b := pending[0];
      var found := Min(Min(|b.ids|, |b.scores|), limit);
      Batch(b.ids[..found], b.scores[..found], b.more)
  }

  /** The next answer is passed on as a prefix of itself, and whole when it
      fits the buffers. */
  lemma TrimPrefix(pending: seq<Batch>, limit: nat)
    requires pending != []
    ensures var t, b := Trim(pending, limit), pending[0];
      t.more == b.more && t.ids <= b.ids && t.scores <= b.scores &&
      (|b.ids| == |b.scores| <= limit ==> t.ids == b.ids && t.scores == b.scores)
  {
  }

  /** The engine's reply to one fetch of at most `limit` matches when `pending`
      are the answers it still holds: the trimmed answer fills the front of
      both buffers, the rest keeps the buffers' initial zero. */
  function Answer(pending: seq<Batch>, limit: nat): (m: Matches)
    ensures |m.documentIDs| == limit && |m.scores| == limit && m.found <= limit
    ensures var t := Trim(pending, limit);
      m.more == t.more && m.documentIDs[..m.found] == t.ids && m.scores[..m.found] == t.scores
    ensures forall i :: m.found <= i < limit ==> m.documentIDs[i] == 0 && m.scores[i] == 0.0
  {
    var t := Trim(pending, limit);
    var found := |t.ids|;
    var ids, scores := t.ids + Zeros(limit - found, 0), t.scores + Zeros(limit - found, 0.0);
    assert ids[..found] == t.ids && scores[..found] == t.scores;
    Matches(t.more, ids, scores, found)
  }

  /** The answers left after one fetch. */
  function Rest(pending: seq<Batch>): (r: seq<Batch>)
    ensures pending != [] ==> |r| == |pending| - 1
  {
    if pending == [] then [] else pending[1..]
  }

  /** An index handle, shared by every searcher and result set made from it.
      The resolvers and the query answers are oracles for the engine. */
  class Index {
    const documentOf: DocumentID -> Option<Document>
    const urlOf: DocumentID -> Option<Url>
    const matchesFor: (string, SearchOptions) -> seq<Batch>

    constructor (documentOf: DocumentID -> Option<Document>,
                 urlOf: DocumentID -> Option<Url>,
                 matchesFor: (string, SearchOptions) -> seq<Batch>)
      ensures this.documentOf == documentOf && this.urlOf == urlOf && this.matchesFor == matchesFor
    {
      this.documentOf := documentOf;
      this.urlOf := urlOf;
      this.matchesFor := matchesFor;
    }

    /** One entry per identifier, in input order; `None` where the engine
        cannot resolve the identifier. */
    function DocumentsWithIDs(ids: seq<DocumentID>): (r: seq<Option<Document>>)
      ensures |r| == |ids|
      ensures forall i :: 0 <= i < |ids| ==> r[i] == documentOf(ids[i])
    {
      seq(|ids|, i requires 0 <= i < |ids| => documentOf(ids[i]))
    }

    /** As DocumentsWithIDs, for the documents' URLs. */
    function URLsWithIDs(ids: seq<DocumentID>): (r: seq<Option<Url>>)
      ensures |r| == |ids|
      ensures forall i :: 0 <= i < |ids| ==> r[i] == urlOf(ids[i])
    {
      seq(|ids|, i requires 0 <= i < |ids| => urlOf(ids[i]))
    }
  }

  /** A search running in the engine: the answers it has not handed out yet. */
  class SearchHandle {
    var pending: seq<Batch>

    /** Creating a search against `index` for `terms`. */
    constructor (index: Index, terms: string, options: SearchOptions)
      ensures pending == index.matchesFor(terms, options)
    {
      pending := index.matchesFor(terms, options);
    }

    /** Fetching up to `limit` further matches. */
    method FindMatches(limit: nat) returns (more: bool, documentIDs: seq<DocumentID>, scores: seq<Score>, found: nat)
      modifies this
      ensures Matches(more, documentIDs, scores, found) == Answer(old(pending), limit)
      ensures pending == Rest(old(pending))
    {
      var m := Answer(pending, limit);
      more, documentIDs, scores, found := m.more, m.documentIDs, m.scores, m.found;
      pending := Rest(pending);
    }
  }
}
