/** One search session: the batch loop that polls the engine, accumulates the
    matches and reports each snapshot to the progress block. */
module Operation {
  import opened Engine

  /** The number of matches asked for per call. */
  const Limit: nat := 20

  /** The accumulated identifiers and scores at one point of a session. */
  datatype Snapshot = Snapshot(documentIDs: seq<DocumentID>, scores: seq<Score>)

  /** The answers the engine still holds before call `k` of a search that
      started with the answers `s`. */
  function Remaining(s: seq<Batch>, k: nat): seq<Batch>
  {
    if k <= |s| then s[k..] else []
  }

  lemma RemainingStep(s: seq<Batch>, k: nat)
    ensures Remaining(s, k + 1) == Rest(Remaining(s, k))
  {
  }

  /** What the engine passes on in call `k`. */
  function Reply(s: seq<Batch>, k: nat): (t: Batch)
    ensures |t.ids| == |t.scores| <= Limit
  {
    Trim(Remaining(s, k), Limit)
  }

  /** Number of calls the loop makes from call `k` on, once it is at the head
      of an iteration with results outstanding and no cancel seen: it stops
      after a call that reports no more results, or during which a cancel
      (one of `cancels`) lands. */
  function Rounds(s: seq<Batch>, cancels: set<nat>, k: nat): (n: nat)
    ensures 1 <= n
    decreases |s| - k
  {
    var m := Reply(s, k);
    if m.more && k !in cancels then 1 + Rounds(s, cancels, k + 1) else 1
  }

  /** The loop makes at most one call per answer the engine holds, plus the
      call that finds the search exhausted. */
  lemma {:induction false} RoundsBound(s: seq<Batch>, cancels: set<nat>, k: nat)
    requires k <= |s|
    ensures Rounds(s, cancels, k) <= |s| - k + 1
    decreases |s| - k
  {
    if Reply(s, k).more && k !in cancels {
      RoundsBound(s, cancels, k + 1);
    }
  }

  /** Number of calls a whole run makes: none when the flag is set before the
      first iteration. */
  function Calls(s: seq<Batch>, cancelledAtStart: bool, cancels: set<nat>): nat
  {
    if cancelledAtStart then 0 else Rounds(s, cancels, 0)
  }

  /** What the first `n` calls contribute: the filled prefix of each reply's
      buffers, in call order. */
  function Gathered(s: seq<Batch>, n: nat): Snapshot
  {
    if n == 0 then Snapshot([], [])
    else
      var g := Gathered(s, n - 1);
      var m := Reply(s, n - 1);
      Snapshot(g.documentIDs + m.ids, g.scores + m.scores)
  }

  function Extend(base: Snapshot, g: Snapshot): Snapshot
  {
    Snapshot(base.documentIDs + g.documentIDs, base.scores + g.scores)
  }

  /** The snapshots the progress block receives over the first `n` calls, one
      per call, starting from the accumulators `base`. */
  function Progress(base: Snapshot, s: seq<Batch>, n: nat): (p: seq<Snapshot>)
    ensures |p| == n
  {
    if n == 0 then [] else Progress(base, s, n - 1) + [Extend(base, Gathered(s, n))]
  }

  /** The snapshot after call `i` is the base followed by what the first
      `i + 1` calls gathered. */
  lemma {:induction false} ProgressAt(base: Snapshot, s: seq<Batch>, n: nat, i: nat)
    requires i < n
    ensures Progress(base, s, n)[i] == Extend(base, Gathered(s, i + 1))
  {
    if i < n - 1 {
      ProgressAt(base, s, n - 1, i);
    }
  }

  /** Some cancel landed during one of the first `n` calls. */
  predicate CancelLanded(cancels: set<nat>, n: nat)
  {
    exists j :: 0 <= j < n && j in cancels
  }

  lemma CancelLandedStep(cancels: set<nat>, n: nat)
    ensures CancelLanded(cancels, n + 1) == (CancelLanded(cancels, n) || n in cancels)
  {
    if n in cancels {
      assert 0 <= n < n + 1 && n in cancels;
    }
  }

  /** The loop's variables at the head of iteration `k` of a run that began
      with the answers `s`, the accumulators `base`, the progress log `log0`
      and the flag `c0`; `hp` says whether a progress block is installed. */
  ghost predicate AtHead(s: seq<Batch>, cancels: set<nat>, c0: bool, base: Snapshot, log0: seq<Snapshot>, hp: bool,
                         k: nat, pending: seq<Batch>, acc: Snapshot, log: seq<Snapshot>, cancel: bool, more: bool)
  {
    pending == Remaining(s, k) &&
    acc == Extend(base, Gathered(s, k)) &&
    log == log0 + (if hp then Progress(base, s, k) else []) &&
    cancel == (c0 || CancelLanded(cancels, k)) &&
    (more && !cancel ==> !c0 && Calls(s, c0, cancels) == k + Rounds(s, cancels, k)) &&
    (!(more && !cancel) ==> k == Calls(s, c0, cancels))
  }

  /** One iteration of the loop, given the engine's reply `m`, keeps AtHead:
      the primed values are the loop's variables after the iteration. */
  lemma HeadStep(s: seq<Batch>, cancels: set<nat>, c0: bool, base: Snapshot, log0: seq<Snapshot>, hp: bool,
                 k: nat, pending: seq<Batch>, acc: Snapshot, log: seq<Snapshot>, cancel: bool, more: bool, m: Matches,
                 pending': seq<Batch>, acc': Snapshot, log': seq<Snapshot>, cancel': bool)
    requires AtHead(s, cancels, c0, base, log0, hp, k, pending, acc, log, cancel, more) && more && !cancel
    requires m == Answer(pending, Limit) && pending' == Rest(pending)
    requires acc' == Snapshot(acc.documentIDs + m.documentIDs[..m.found], acc.scores + m.scores[..m.found])
    requires log' == log + (if hp then [acc'] else []) && cancel' == (k in cancels)
    ensures AtHead(s, cancels, c0, base, log0, hp, k + 1, pending', acc', log', cancel', m.more)
  {
    var r := Reply(s, k);
    var g := Gathered(s, k);
    assert m.more == r.more && m.documentIDs[..m.found] == r.ids && m.scores[..m.found] == r.scores;
    assert Gathered(s, k + 1) == Snapshot(g.documentIDs + r.ids, g.scores + r.scores);
    assert acc.documentIDs + r.ids == base.documentIDs + (g.documentIDs + r.ids);
    assert acc.scores + r.scores == base.scores + (g.scores + r.scores);
    CallsStep(s, cancels, k, Calls(s, c0, cancels));
    RemainingStep(s, k);
  }

  /** AtHead holds before the first iteration. */
  lemma HeadStart(s: seq<Batch>, cancels: set<nat>, c0: bool, base: Snapshot, log0: seq<Snapshot>, hp: bool)
    ensures AtHead(s, cancels, c0, base, log0, hp, 0, s, base, log0, c0, true)
  {
    assert Remaining(s, 0) == s;
    assert Extend(base, Gathered(s, 0)) == base;
  }

  /** What AtHead says once the loop has stopped. */
  lemma HeadExit(s: seq<Batch>, cancels: set<nat>, c0: bool, base: Snapshot, log0: seq<Snapshot>, hp: bool,
                 k: nat, pending: seq<Batch>, acc: Snapshot, log: seq<Snapshot>, cancel: bool, more: bool)
    requires AtHead(s, cancels, c0, base, log0, hp, k, pending, acc, log, cancel, more) && !(more && !cancel)
    ensures k == Calls(s, c0, cancels) && pending == Remaining(s, k)
    ensures acc.documentIDs == base.documentIDs + Gathered(s, k).documentIDs
    ensures acc.scores == base.scores + Gathered(s, k).scores
    ensures log == log0 + (if hp then Progress(base, s, k) else [])
    ensures cancel == (c0 || CancelLanded(cancels, k))
    ensures |acc.documentIDs| - |base.documentIDs| == |acc.scores| - |base.scores| <= k * Limit
    ensures c0 ==> k == 0 && acc == base && log == log0
    ensures !c0 ==> 1 <= k <= |s| + 1
  {
    GatheredAligned(s, k);
    if !c0 {
      RoundsBound(s, cancels, 0);
    }
  }

  /** The loop's count of calls, carried over one more call made from the
      head of an iteration at which no cancel had been seen. */
  lemma CallsStep(s: seq<Batch>, cancels: set<nat>, k: nat, total: nat)
    requires !CancelLanded(cancels, k) && total == k + Rounds(s, cancels, k)
    ensures CancelLanded(cancels, k + 1) == (k in cancels)
    ensures Reply(s, k).more && !CancelLanded(cancels, k + 1) ==> total == k + 1 + Rounds(s, cancels, k + 1)
    ensures !(Reply(s, k).more && !CancelLanded(cancels, k + 1)) ==> total == k + 1
  {
    CancelLandedStep(cancels, k);
  }

  /** Both accumulators grow in step, by at most one buffer per call. */
  lemma {:induction false} GatheredAligned(s: seq<Batch>, n: nat)
    ensures |Gathered(s, n).documentIDs| == |Gathered(s, n).scores| <= n * Limit
  {
    if n > 0 {
      GatheredAligned(s, n - 1);
    }
  }

  /** A later call only appends: the matches after `i` calls are a prefix of
      those after `j >= i` calls, for identifiers and scores alike. */
  lemma {:induction false} GatheredGrows(s: seq<Batch>, i: nat, j: nat)
    requires i <= j
    ensures Gathered(s, i).documentIDs <= Gathered(s, j).documentIDs
    ensures Gathered(s, i).scores <= Gathered(s, j).scores
  {
    if i < j {
      GatheredGrows(s, i, j - 1);
    }
  }

  /** Each progress snapshot is a prefix of every later one and of the final
      accumulators, so the match counts reported never decrease. */
  lemma ProgressChain(base: Snapshot, s: seq<Batch>, n: nat, i: nat, j: nat)
    requires i <= j < n
    ensures var p := Progress(base, s, n);
      p[i].documentIDs <= p[j].documentIDs && p[i].scores <= p[j].scores &&
      |p[i].documentIDs| <= |p[j].documentIDs| &&
      p[j].documentIDs <= Extend(base, Gathered(s, n)).documentIDs &&
      p[j].scores <= Extend(base, Gathered(s, n)).scores
  {
    ProgressAt(base, s, n, i);
    ProgressAt(base, s, n, j);
    GatheredGrows(s, i + 1, j + 1);
    GatheredGrows(s, j + 1, n);
  }

  /** A batch with no matches and more to come yields a snapshot equal to the
      previous one: the counts reported are non-decreasing, not increasing. */
  lemma EmptyBatchRepeatsSnapshot()
    ensures var s := [Batch([7], [1.0], true), Batch([], [], true), Batch([], [], false)];
      Rounds(s, {}, 0) == 3 &&
      Progress(Snapshot([], []), s, 3)[0] == Progress(Snapshot([], []), s, 3)[1]
  {
    var s := [Batch([7], [1.0], true), Batch([], [], true), Batch([], [], false)];
    assert Remaining(s, 0) == s;
    assert Remaining(s, 1) == s[1..];
    assert Remaining(s, 2) == s[2..];
    assert Gathered(s, 1).documentIDs == [7];
    assert Gathered(s, 2) == Gathered(s, 1);
  }

  /** The loop's exit: every call before the last saw more results and no
      cancel, and the last either saw no more results or had a cancel land. */
  lemma {:induction false} RoundsShape(s: seq<Batch>, cancels: set<nat>, k: nat)
    ensures var n := Rounds(s, cancels, k);
      (forall j :: k <= j < k + n - 1 ==> Reply(s, j).more && j !in cancels) &&
      (!Reply(s, k + n - 1).more || k + n - 1 in cancels)
    decreases |s| - k
  {
    var m := Reply(s, k);
    if m.more && k !in cancels {
      RoundsShape(s, cancels, k + 1);
    }
  }

  /** The converse: a count with that shape is the number of calls made. */
  lemma {:induction false} RoundsUnique(s: seq<Batch>, cancels: set<nat>, k: nat, n: nat)
    requires 1 <= n
    requires forall j :: k <= j < k + n - 1 ==> Reply(s, j).more && j !in cancels
    requires !Reply(s, k + n - 1).more || k + n - 1 in cancels
    ensures Rounds(s, cancels, k) == n
    decreases n
  {
    if n > 1 {
      assert Reply(s, k).more && k !in cancels;
      RoundsUnique(s, cancels, k + 1, n - 1);
    }
  }

  /** A cancel landing during call `j` stops the loop after that call at the
      latest: cancelling costs at most the batch in flight. */
  lemma {:induction false} CancelBoundsRounds(s: seq<Batch>, cancels: set<nat>, k: nat, j: nat)
    requires k <= j && j in cancels
    ensures Rounds(s, cancels, k) <= j - k + 1
    decreases j - k
  {
    var m := Reply(s, k);
    if m.more && k !in cancels {
      CancelBoundsRounds(s, cancels, k + 1, j);
    }
  }

  /** One search operation: its engine search, its accumulators, the cancel
      flag, whether a progress block was installed and whether the caller
      supplied a completion handler. `progressLog` records the snapshots the
      progress block has received. */
  class SearchOperation {
    const search: SearchHandle
    var results: seq<DocumentID>
    var resultScores: seq<Score>
    var shouldCancel: bool
    var hasProgressBlock: bool
    var hasCompletionHandler: bool
    ghost var progressLog: seq<Snapshot>

    constructor (search: SearchHandle)
      ensures this.search == search
      ensures results == [] && resultScores == [] && !shouldCancel
      ensures !hasProgressBlock && !hasCompletionHandler && progressLog == []
    {
      this.search := search;
      results, resultScores := [], [];
      shouldCancel := false;
      hasProgressBlock, hasCompletionHandler := false, false;
      progressLog := [];
    }

    /** The body of the operation. `cancels` are the numbers of the engine
        calls during which a cancel of this operation arrives from outside the
        loop (another thread, or the progress handler itself); the loop only
        sees the flag at the head of an iteration. `calls` is the number of
        engine calls made. */
    method Run(cancels: set<nat>) returns (ghost calls: nat)
      modifies this`results, this`resultScores, this`shouldCancel, this`progressLog, search
      ensures calls == Calls(old(search.pending), old(shouldCancel), cancels)
      ensures var g := Gathered(old(search.pending), calls);
        results == old(results) + g.documentIDs && resultScores == old(resultScores) + g.scores
      ensures progressLog == old(progressLog) +
        (if hasProgressBlock then Progress(Snapshot(old(results), old(resultScores)), old(search.pending), calls) else [])
      ensures shouldCancel == (old(shouldCancel) || CancelLanded(cancels, calls))
      ensures search.pending == Remaining(old(search.pending), calls)
      ensures |results| - |old(results)| == |resultScores| - |old(resultScores)| <= calls * Limit
      ensures old(shouldCancel) ==>
        calls == 0 && results == old(results) && resultScores == old(resultScores) && progressLog == old(progressLog)
      ensures !old(shouldCancel) ==> 1 <= calls <= |old(search.pending)| + 1
    {
      ghost var s, base, log0 := search.pending, Snapshot(results, resultScores), progressLog;
      ghost var cancelledAtStart, hp := shouldCancel, hasProgressBlock;
      var moreResults := true;
      var k: nat := 0;
      HeadStart(s, cancels, cancelledAtStart, base, log0, hp);
      while moreResults && !shouldCancel
        invariant AtHead(s, cancels, cancelledAtStart, base, log0, hp,
                         k, search.pending, Snapshot(results, resultScores), progressLog, shouldCancel, moreResults)
        decreases |search.pending|, if moreResults then 1 else 0
      {
        ghost var pending, acc, log, cancel, more := search.pending, Snapshot(results, resultScores), progressLog, shouldCancel, moreResults;
        var found: nat;
        var documentIDs: seq<DocumentID>;
        var scores: seq<Score>;
        moreResults, documentIDs, scores, found := search.FindMatches(Limit);

        // a cancel arriving while this call is in flight
        if k in cancels {
          shouldCancel := true;
        }

        // keep the filled prefix of each buffer
        results := results + documentIDs[..found];
        resultScores := resultScores + scores[..found];

        if hasProgressBlock {
          progressLog := progressLog + [Snapshot(results, resultScores)];
        }
        HeadStep(s, cancels, cancelledAtStart, base, log0, hp, k, pending, acc, log, cancel, more,
                 Matches(moreResults, documentIDs, scores, found),
                 search.pending, Snapshot(results, resultScores), progressLog, shouldCancel);
        k := k + 1;
      }
      calls := k;
      HeadExit(s, cancels, cancelledAtStart, base, log0, hp,
               k, search.pending, Snapshot(results, resultScores), progressLog, shouldCancel, moreResults);
    }
  }
}
