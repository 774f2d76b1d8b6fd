/** The searcher: hands out search IDs, keeps the table of running search
    operations, and cancels them by ID. */
module Search {
  import opened Wrappers
  import opened Engine
  import opened Results
  import opened Operation

  type SearchID = int

  /** Cancelling `id` in a table of cancel flags: an absent ID changes nothing. */
  function CancelOne(flags: map<SearchID, bool>, id: SearchID): (r: map<SearchID, bool>)
    ensures r.Keys == flags.Keys
    ensures forall j :: j in r ==> r[j] == (flags[j] || j == id)
  {
    if id in flags then flags[id := true] else flags
  }

  /** Every registered operation cancelled. */
  function CancelEvery(flags: map<SearchID, bool>): (r: map<SearchID, bool>)
    ensures r.Keys == flags.Keys
    ensures forall j :: j in r ==> r[j]
  {
    map j | j in flags :: true
  }

  /** Cancelling twice is cancelling once. */
  lemma CancelOneIdempotent(flags: map<SearchID, bool>, id: SearchID)
    ensures CancelOne(CancelOne(flags, id), id) == CancelOne(flags, id)
  {
  }

  /** Cancels commute, so the order in which the keys are visited does not matter. */
  lemma CancelOneCommutes(flags: map<SearchID, bool>, a: SearchID, b: SearchID)
    ensures CancelOne(CancelOne(flags, a), b) == CancelOne(CancelOne(flags, b), a)
  {
  }

  /** Cancelling each registered ID, in any order, cancels every operation. */
  lemma {:induction false} CancelEachIsCancelEvery(flags: map<SearchID, bool>, order: seq<SearchID>)
    requires forall j :: j in flags ==> j in order
    ensures CancelInOrder(flags, order) == CancelEvery(flags)
  {
    CancelInOrderCovers(flags, order);
    var a, b := CancelInOrder(flags, order), CancelEvery(flags);
    assert a.Keys == b.Keys;
    assert forall j :: j in a ==> a[j] == b[j];
  }

  /** Cancelling the IDs of `order` one after the other. */
  function CancelInOrder(flags: map<SearchID, bool>, order: seq<SearchID>): (r: map<SearchID, bool>)
  {
    if order == [] then flags else CancelInOrder(CancelOne(flags, order[0]), order[1..])
  }

  lemma {:induction false} CancelInOrderCovers(flags: map<SearchID, bool>, order: seq<SearchID>)
    ensures CancelInOrder(flags, order).Keys == flags.Keys
    ensures forall j :: j in flags ==> CancelInOrder(flags, order)[j] == (flags[j] || j in order)
  {
    if order != [] {
      CancelInOrderCovers(CancelOne(flags, order[0]), order[1..]);
    }
  }

  /** A witness for `:|`: under the verifier's contradictory-assumptions
      check, `var k :| k in keys` needs the existence of a key stated as
      a fact of its own, and the fact is proved by refuting the case in
      which no key exists. */
  lemma HasMember(ids: set<SearchID>)
    requires ids != {}
    ensures exists id :: id in ids
  {
    if forall id :: id !in ids {
      assert false;
    }
  }

  class Searcher {
    const index: Index
    const options: SearchOptions
    var nextSearchID: int
    var searches: map<SearchID, SearchOperation>
    /** Every ID handed out so far. */
    ghost var issued: set<SearchID>
    /** The operation each `startSearch` created, under its ID: the pair
        its completion block captures. */
    ghost var started: map<SearchID, SearchOperation>

    /** The IDs handed out are 1 up to the counter, each with the operation
        started under it; every registered ID is one of them, still mapped
        to that operation, and no operation is registered under two IDs. */
    ghost predicate Valid()
      reads this
    {
      0 <= nextSearchID &&
      (forall id :: id in issued <==> 1 <= id <= nextSearchID) &&
      (forall id :: id in searches ==> 1 <= id <= nextSearchID) &&
      started.Keys == issued &&
      (forall id :: id in searches ==> id in started && searches[id] == started[id]) &&
      (forall i, j :: i in searches && j in searches && i != j ==> searches[i] != searches[j])
    }

    /** The cancel flag of each registered operation. */
    ghost function CancelFlags(): map<SearchID, bool>
      reads this, searches.Values
    {
      map id | id in searches :: searches[id].shouldCancel
    }

    constructor (index: Index, options: SearchOptions)
      ensures Valid()
      ensures this.index == index && this.options == options
      ensures nextSearchID == 0 && searches == map[] && issued == {} && started == map[]
    {
      issued := {};
      started := map[];
      this.index := index;
      this.options := options;
      nextSearchID := 0;
      searches := map[];
    }

    /** Starting a search: the next ID, a fresh operation for it registered
        under that ID, and every earlier entry left as it was. */
    method StartSearch(terms: string, hasProgressHandler: bool, hasCompletionHandler: bool) returns (id: SearchID)
      requires Valid()
      modifies this`nextSearchID, this`searches, this`issued, this`started
      ensures Valid()
      ensures id == old(nextSearchID) + 1 && nextSearchID == id
      ensures id !in old(issued) && issued == old(issued) + {id}
      ensures forall j :: j in old(searches) ==> j < id
      ensures id !in old(searches) && id in searches
      ensures searches == old(searches)[id := searches[id]]
      ensures started == old(started)[id := searches[id]]
      ensures var op := searches[id];
        fresh(op) && fresh(op.search) &&
        op.search.pending == index.matchesFor(terms, options) &&
        op.results == [] && op.resultScores == [] && !op.shouldCancel && op.progressLog == [] &&
        op.hasProgressBlock == hasProgressHandler && op.hasCompletionHandler == hasCompletionHandler
    {
      var search := new SearchHandle(index, terms, options);
      nextSearchID := nextSearchID + 1;
      id := nextSearchID;
      issued := issued + {id};

      var op := new SearchOperation(search);
      op.hasProgressBlock := hasProgressHandler;
      op.hasCompletionHandler := hasCompletionHandler;

      searches := searches[id := op];
      started := started[id := op];
    }

    /** The completion block of the operation `op` started under `id`: the
        caller's handler, if any, receives the final results, and the entry
        is removed either way. */
    method Complete(id: SearchID, op: SearchOperation) returns (delivered: Option<SearchResults>)
      requires Valid()
      requires id in started && op == started[id]
      modifies this`searches
      ensures Valid()
      ensures searches == old(searches) - {id}
      ensures delivered.Some? <==> op.hasCompletionHandler
      ensures delivered.Some? ==>
        var r := delivered.value;
        fresh(r) && r.Valid() && r.index == index &&
        r.documentIDs == op.results && r.scores == op.resultScores &&
        r.cachedDocuments == None && r.cachedURLs == None
    {
      delivered := None;
      if op.hasCompletionHandler {
        var r := new SearchResults(index, op.results, op.resultScores);
        delivered := Some(r);
      }
      searches := searches - {id};
    }

    /** Cancelling `id`: the flag of the operation registered under it is
        set; an ID that is absent changes nothing. */
    method CancelSearch(id: SearchID)
      requires Valid()
      modifies (if id in searches then {searches[id]} else {})`shouldCancel
      ensures Valid()
      ensures searches == old(searches) && nextSearchID == old(nextSearchID)
      ensures forall j :: j in searches ==> searches[j].shouldCancel == (old(searches[j].shouldCancel) || j == id)
      ensures CancelFlags() == CancelOne(old(CancelFlags()), id)
    {
      if id in searches {
        var op := searches[id];
        op.shouldCancel := true;
      }
    }

    /** Cancelling every registered search; the table keeps its keys. */
    method CancelAllSearches()
      requires Valid()
      modifies searches.Values`shouldCancel
      ensures Valid()
      ensures searches == old(searches) && nextSearchID == old(nextSearchID)
      ensures forall j :: j in searches ==> searches[j].shouldCancel
      ensures CancelFlags() == CancelEvery(old(CancelFlags()))
    {
      var keys := searches.Keys;
      while keys != {}
        invariant keys <= searches.Keys
        invariant searches == old(searches) && nextSearchID == old(nextSearchID)
        invariant forall j :: j in searches ==> searches[j].shouldCancel == (old(searches[j].shouldCancel) || j !in keys)
        decreases keys
      {
        HasMember(keys);
        var k :| k in keys;
        CancelSearch(k);
        keys := keys - {k};
      }
    }
  }

  /** The repository's search test starts four searches (its terms are
      "hackers", "first", "elephant*" and "zcxjvnalskjdnf") one after another
      on a fresh searcher: they get the IDs 1, 2, 3, 4 and all four are
      registered. */
  method StartFourSearches(terms: seq<string>) returns (ids: seq<SearchID>, registered: set<SearchID>)
    requires |terms| == 4
    ensures ids == [1, 2, 3, 4]
    ensures registered == {1, 2, 3, 4}
  {
    var index := new Index(_ => None, _ => None, (_, _) => []);
    var searcher := new Searcher(index, Default);
    var a := searcher.StartSearch(terms[0], false, true);
    var b := searcher.StartSearch(terms[1], false, true);
    var c := searcher.StartSearch(terms[2], false, true);
    var d := searcher.StartSearch(terms[3], false, true);
    ids := [a, b, c, d];
    registered := searcher.searches.Keys;
  }

  /** A query the engine has no answers for: the operation makes one call,
      the completion handler still receives a result set, an empty one
      that resolves to no documents, and the search leaves the table. */
  method UnmatchedSearch(terms: string) returns (delivered: Option<SearchResults>, documents: seq<Document>, registered: set<SearchID>)
    ensures delivered.Some? && delivered.value.documentIDs == [] && delivered.value.scores == []
    ensures documents == []
    ensures registered == {}
  {
    var index := new Index(_ => None, _ => None, (_, _) => []);
    var searcher := new Searcher(index, Default);
    var id := searcher.StartSearch(terms, false, true);
    var op := searcher.searches[id];
    ghost var calls := op.Run({});
    assert Reply([], 0).more == false;
    assert calls == 1 && op.results == [] && op.resultScores == [];
    delivered := searcher.Complete(id, op);
    documents := delivered.value.Documents();
    registered := searcher.searches.Keys;
  }
}
