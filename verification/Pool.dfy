/** The bounded worker pool: a few loops that share one counter over a list of items. */
module Pool {
  datatype Worker = Busy(item: nat) | Returned | Threw

  /** `next` is the shared counter; what the work came to is history. */
  datatype Pool = Pool(size: nat, next: nat, workers: seq<Worker>, finished: set<nat>, failed: set<nat>)

  function Min(a: nat, b: nat): nat { if a < b then a else b }

  /** Each worker runs to its first await as it is made, so the first items are taken in order. */
  function Start(size: nat, limit: nat): Pool {
    var n := Min(limit, size);
    Pool(size, n, seq(n, (k: nat) => Busy(k)), {}, {})
  }

  /** The work of worker `k` settles: the worker takes the next item, returns, or ends with the rejection. */
  function Settle(p: Pool, k: nat, ok: bool): Pool
    requires k < |p.workers| && p.workers[k].Busy?
  {
    var item := p.workers[k].item;
    if !ok then p.(workers := p.workers[k := Threw], failed := p.failed + {item})
    else if p.next < p.size then
      p.(workers := p.workers[k := Busy(p.next)], next := p.next + 1, finished := p.finished + {item})
    else p.(workers := p.workers[k := Returned], finished := p.finished + {item})
  }

  datatype Event = Event(worker: nat, ok: bool)

  predicate Enabled(p: Pool, e: Event) { e.worker < |p.workers| && p.workers[e.worker].Busy? }

  predicate Possible(p: Pool, run: seq<Event>)
    decreases |run|
  {
    run != [] ==> Enabled(p, run[0]) && Possible(Settle(p, run[0].worker, run[0].ok), run[1..])
  }

  function After(p: Pool, run: seq<Event>): Pool
    requires Possible(p, run)
    decreases |run|
  {
    if run == [] then p else After(Settle(p, run[0].worker, run[0].ok), run[1..])
  }

  predicate BusyWith(p: Pool, k: nat, i: nat) { k < |p.workers| && p.workers[k] == Busy(i) }

  ghost predicate Held(p: Pool, i: nat) { exists k: nat :: BusyWith(p, k, i) }

  /** Every item taken so far is in exactly one place, and a worker returns only when none is left to take. */
  ghost predicate Inv(p: Pool) {
    && p.next <= p.size && p.finished !! p.failed
    && (forall i :: i in p.finished + p.failed ==> i < p.next)
    && (forall k: nat, i: nat :: BusyWith(p, k, i) ==> i < p.next && i !in p.finished + p.failed)
    && (forall j: nat, k: nat, i: nat :: BusyWith(p, j, i) && BusyWith(p, k, i) ==> j == k)
    && (forall i: nat :: i < p.next && i !in p.finished + p.failed ==> Held(p, i))
    && (forall k :: 0 <= k < |p.workers| && p.workers[k].Returned? ==> p.next == p.size)
    && (p.failed != {} ==> Threw in p.workers)
  }

  lemma StartInv(size: nat, limit: nat)
    ensures Inv(Start(size, limit))
  {
    var p := Start(size, limit);
    forall i: nat | i < p.next ensures Held(p, i) {
      assert BusyWith(p, i, i);
    }
  }

  lemma SettleKeepsInv(p: Pool, k: nat, ok: bool)
    requires Inv(p) && k < |p.workers| && p.workers[k].Busy?
    ensures Inv(Settle(p, k, ok)) && |Settle(p, k, ok).workers| == |p.workers|
  {
    var q, item := Settle(p, k, ok), p.workers[k].item;
    assert BusyWith(p, k, item);
    forall j: nat, i: nat | BusyWith(q, j, i) ensures i < q.next && i !in q.finished + q.failed {
      if j != k { assert BusyWith(p, j, i); }
    }
    forall i: nat, j: nat, j2: nat | BusyWith(q, j, i) && BusyWith(q, j2, i) ensures j == j2 {
      if j != k { assert BusyWith(p, j, i); }
      if j2 != k { assert BusyWith(p, j2, i); }
    }
    forall i: nat | i < q.next && i !in q.finished + q.failed ensures Held(q, i) {
      if i < p.next {
        assert Held(p, i);
        var j: nat :| BusyWith(p, j, i);
        assert BusyWith(q, j, i);
      } else {
        assert BusyWith(q, k, i);
      }
    }
    if !ok { assert q.workers[k] == Threw; }
    if Threw in p.workers {
      var j :| 0 <= j < |p.workers| && p.workers[j] == Threw;
      assert q.workers[j] == Threw;
    }
  }

  lemma {:induction false} RunKeepsInv(p: Pool, run: seq<Event>)
    requires Inv(p) && Possible(p, run)
    ensures Inv(After(p, run)) && |After(p, run).workers| == |p.workers| && After(p, run).size == p.size
    decreases |run|
  {
    if run != [] {
      SettleKeepsInv(p, run[0].worker, run[0].ok);
      RunKeepsInv(Settle(p, run[0].worker, run[0].ok), run[1..]);
    }
  }

  /** The items whose work came to `ok` in the run. */
  function Came(p: Pool, run: seq<Event>, ok: bool): set<nat>
    requires Possible(p, run)
    decreases |run|
  {
    if run == [] then {}
    else
      (if run[0].ok == ok then {p.workers[run[0].worker].item} else {})
      + Came(Settle(p, run[0].worker, run[0].ok), run[1..], ok)
  }

  lemma NotYetDone(p: Pool, k: nat)
    requires Inv(p) && k < |p.workers| && p.workers[k].Busy?
    ensures p.workers[k].item !in p.finished && p.workers[k].item !in p.failed
  {
    assert BusyWith(p, k, p.workers[k].item);
  }

  lemma SettleRecords(p: Pool, k: nat, ok: bool)
    requires k < |p.workers| && p.workers[k].Busy?
    ensures var q, item := Settle(p, k, ok), p.workers[k].item;
            && q.finished == p.finished + (if ok then {item} else {}) && q.failed == p.failed + (if ok then {} else {item})
  {
  }

  /** What was done before, and what came of the run. */
  lemma {:induction false} HistoryIsWhatCame(p: Pool, run: seq<Event>)
    requires Possible(p, run)
    ensures After(p, run).finished == p.finished + Came(p, run, true)
    ensures After(p, run).failed == p.failed + Came(p, run, false)
    decreases |run|
  {
    if run != [] {
      SettleRecords(p, run[0].worker, run[0].ok);
      HistoryIsWhatCame(Settle(p, run[0].worker, run[0].ok), run[1..]);
      hide Settle;
    }
  }

  /** Each settled work is another item's, so no run is longer than the list. */
  lemma {:induction false} EachTimeAnother(p: Pool, run: seq<Event>)
    requires Inv(p) && Possible(p, run)
    ensures |After(p, run).finished| + |After(p, run).failed| == |p.finished| + |p.failed| + |run|
    decreases |run|
  {
    if run != [] {
      var k, ok := run[0].worker, run[0].ok;
      NotYetDone(p, k);
      SettleRecords(p, k, ok);
      SettleKeepsInv(p, k, ok);
      hide Inv, Settle;
      EachTimeAnother(Settle(p, k, ok), run[1..]);
    }
  }

  predicate AtRest(p: Pool) { forall k :: 0 <= k < |p.workers| ==> !p.workers[k].Busy? }

  /**
   * No more items are under way than the limit allows. Once nothing is, every item has been worked exactly once,
   * unless every worker was lost to a rejection; with no rejection, every item is finished.
   */
  lemma EveryItemOnce(size: nat, limit: nat, run: seq<Event>)
    requires limit > 0 && Possible(Start(size, limit), run)
    ensures var p := After(Start(size, limit), run);
            && |p.workers| <= limit && p.finished !! p.failed
            && (AtRest(p) ==>
                  && (Returned in p.workers || size == 0 ==> forall i :: 0 <= i < size <==> i in p.finished + p.failed)
                  && (Threw !in p.workers ==> forall i :: 0 <= i < size <==> i in p.finished))
  {
    StartInv(size, limit);
    RunKeepsInv(Start(size, limit), run);
    var p := After(Start(size, limit), run);
    if Threw !in p.workers { assert p.failed == {} && p.finished + p.failed == p.finished; }
    if AtRest(p) && Threw !in p.workers && size > 0 {
      assert p.workers[0] in p.workers;
      assert p.workers[0].Returned?;
    }
    if AtRest(p) {
      forall i: nat | i < p.next ensures i in p.finished + p.failed {
        assert !Held(p, i);
      }
    }
  }
}
