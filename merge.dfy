/**
 * The fan-in of the text search phase (`_overall_search`). One worker per
 * search idea drains that idea's generator into a shared FIFO queue and
 * then puts exactly one `None` sentinel; a single consumer forwards every
 * non-sentinel item and counts sentinels until it has seen one per worker,
 * then emits the completion message.
 *
 * The scheduler is abstract: `Interleave(ws, sched)` is the queue that
 * results when the workers' put sequences `ws` are interleaved by the
 * schedule `sched` (the index of the worker whose next put lands in the
 * queue, step by step). The lemmas hold for every schedule.
 */
module Merge {
  import opened Wrappers

  /** The message emitted after the last sentinel. */
  const SearchCompleteMessage := "検索を完了しました！今からリポートを作成いたします。"

  /** Number of sentinels in a stretch of the queue. */
  function CountNone<T>(q: seq<Option<T>>): nat {
    if q == [] then 0 else (if q[0].None? then 1 else 0) + CountNone(q[1..])
  }

  /** The non-sentinel items of a stretch of the queue, unwrapped, in order. */
  function Payloads<T>(q: seq<Option<T>>): seq<T> {
    if q == [] then [] else (if q[0].Some? then [q[0].value] else []) + Payloads(q[1..])
  }

  lemma {:induction false} CountNoneAppend<T>(a: seq<Option<T>>, b: seq<Option<T>>)
    ensures CountNone(a + b) == CountNone(a) + CountNone(b)
  {
    if a == [] {
      assert a + b == b;
    } else {
      assert (a + b)[1..] == a[1..] + b;
      CountNoneAppend(a[1..], b);
    }
  }

  lemma {:induction false} PayloadsAppend<T>(a: seq<Option<T>>, b: seq<Option<T>>)
    ensures Payloads(a + b) == Payloads(a) + Payloads(b)
  {
    if a == [] {
      assert a + b == b;
    } else {
      var head := if a[0].Some? then [a[0].value] else [];
      assert (a + b)[0] == a[0] && (a + b)[1..] == a[1..] + b;
      assert Payloads(a + b) == head + Payloads(a[1..] + b);
      PayloadsAppend(a[1..], b);
      assert Payloads(a) == head + Payloads(a[1..]);
    }
  }

  /** The payloads are exactly the non-sentinel entries: every other entry is a sentinel. */
  lemma {:induction false} PayloadsFilter<T>(q: seq<Option<T>>)
    ensures |Payloads(q)| + CountNone(q) == |q|
    ensures forall x :: x in Payloads(q) <==> Some(x) in q
  {
    if q != [] {
      PayloadsFilter(q[1..]);
      assert q == [q[0]] + q[1..];
    }
  }

  lemma PayloadsSingle<T>(x: Option<T>)
    ensures Payloads([x]) == if x.Some? then [x.value] else []
    ensures CountNone([x]) == if x.None? then 1 else 0
  {
    assert [x][1..] == [];
  }

  /** The items of a generator as the worker puts them on the queue. */
  function Tagged<T>(items: seq<T>): (q: seq<Option<T>>)
    ensures |q| == |items|
  {
    seq(|items|, i requires 0 <= i < |items| => Some(items[i]))
  }

  /** Everything one worker puts on the queue: its items, then one sentinel. */
  function WorkerQueue<T>(items: seq<T>): seq<Option<T>> {
    Tagged(items) + [None]
  }

  lemma {:induction false} TaggedShape<T>(items: seq<T>)
    ensures CountNone(Tagged(items)) == 0
    ensures Payloads(Tagged(items)) == items
  {
    if items != [] {
      assert Tagged(items)[1..] == Tagged(items[1..]);
      TaggedShape(items[1..]);
      assert [items[0]] + items[1..] == items;
    }
  }

  /** A worker's puts hold exactly one sentinel, after all of its items. */
  lemma WorkerQueueShape<T>(items: seq<T>)
    ensures CountNone(WorkerQueue(items)) == 1
    ensures WorkerQueue(items)[|WorkerQueue(items)| - 1] == None
    ensures Payloads(WorkerQueue(items)) == items
  {
    TaggedShape(items);
    CountNoneAppend(Tagged(items), [None]);
    PayloadsAppend(Tagged(items), [None]);
  }

  /**
   * How a wrapped generator ends: after `yielded` items, either normally or
   * by raising. The wrapper logs the exception and does not re-raise it.
   */
  datatype GeneratorRun<T> = GeneratorRun(yielded: seq<T>, raised: bool)

  /**
   * `consume_generator`: put every item the generator yields, then, in the
   * `finally` clause, one sentinel, whichever way the generator ended.
   */
  method ConsumeGenerator<T>(run: GeneratorRun<T>) returns (puts: seq<Option<T>>)
    ensures puts == WorkerQueue(run.yielded)
  {
    puts := [];
    for k := 0 to |run.yielded|
      invariant puts == Tagged(run.yielded[..k])
    {
      puts := puts + [Some(run.yielded[k])];
    }
    assert run.yielded[..|run.yielded|] == run.yielded;
    puts := puts + [None];
  }

  /**
   * The queue produced when the workers' put sequences `ws` are merged by
   * the schedule `sched`; `None` when the schedule names a worker with
   * nothing left to put, or stops before every worker is drained.
   */
  function Interleave<T>(ws: seq<seq<T>>, sched: seq<nat>): Option<seq<T>>
    decreases |sched|
  {
    if sched == [] then
      if forall i | 0 <= i < |ws| :: ws[i] == [] then Some([]) else None
    else
      var i := sched[0];
      if i < |ws| && ws[i] != [] then
        match Interleave(ws[i := ws[i][1..]], sched[1..])
        case Some(rest) => Some([ws[i][0]] + rest)
        case None => None
      else None
  }

  /** The put sequences of one worker per generator. */
  function WorkerQueues<T>(items: seq<seq<T>>): (ws: seq<seq<Option<T>>>)
    ensures |ws| == |items|
  {
    seq(|items|, i requires 0 <= i < |items| => WorkerQueue(items[i]))
  }

  /** The non-sentinel items of each put sequence. */
  function AllPayloads<T>(ws: seq<seq<Option<T>>>): (ps: seq<seq<T>>)
    ensures |ps| == |ws|
  {
    seq(|ws|, i requires 0 <= i < |ws| => Payloads(ws[i]))
  }

  /** Total number of sentinels over all put sequences. */
  function SumNone<T>(ws: seq<seq<Option<T>>>): nat {
    if ws == [] then 0 else CountNone(ws[0]) + SumNone(ws[1..])
  }

  lemma {:induction false} SumNoneUpdate<T>(ws: seq<seq<Option<T>>>, i: nat, w: seq<Option<T>>)
    requires i < |ws|
    ensures SumNone(ws[i := w]) + CountNone(ws[i]) == SumNone(ws) + CountNone(w)
  {
    if i == 0 {
      assert ws[i := w][1..] == ws[1..];
    } else {
      assert ws[i := w][1..] == ws[1..][i - 1 := w];
      SumNoneUpdate(ws[1..], i - 1, w);
    }
  }

  lemma {:induction false} SumNoneOfEmpties<T>(ws: seq<seq<Option<T>>>)
    requires forall i | 0 <= i < |ws| :: ws[i] == []
    ensures SumNone(ws) == 0
  {
    if ws != [] {
      SumNoneOfEmpties(ws[1..]);
    }
  }

  lemma {:induction false} SumNoneOfWorkers<T>(items: seq<seq<T>>)
    ensures SumNone(WorkerQueues(items)) == |items|
  {
    if items != [] {
      assert WorkerQueues(items)[1..] == WorkerQueues(items[1..]);
      SumNoneOfWorkers(items[1..]);
      WorkerQueueShape(items[0]);
    }
  }

  lemma AllPayloadsOfWorkers<T>(items: seq<seq<T>>)
    ensures AllPayloads(WorkerQueues(items)) == items
  {
    forall i | 0 <= i < |items| ensures AllPayloads(WorkerQueues(items))[i] == items[i] {
      WorkerQueueShape(items[i]);
    }
  }

  /** The merged queue holds exactly the sentinels of all workers. */
  lemma {:induction false} InterleaveCountsSentinels<T>(ws: seq<seq<Option<T>>>, sched: seq<nat>, q: seq<Option<T>>)
    requires Interleave(ws, sched) == Some(q)
    ensures CountNone(q) == SumNone(ws)
    decreases |sched|
  {
    if sched == [] {
      SumNoneOfEmpties(ws);
    } else {
      var i := sched[0];
      var ws' := ws[i := ws[i][1..]];
      var rest := Interleave(ws', sched[1..]).value;
      InterleaveCountsSentinels(ws', sched[1..], rest);
      SumNoneUpdate(ws, i, ws[i][1..]);
      assert q[1..] == rest;
    }
  }

  lemma InterleaveOfNothing<T>(ws: seq<seq<T>>, sched: seq<nat>, q: seq<T>)
    requires Interleave(ws, sched) == Some(q)
    requires q == []
    ensures forall i | 0 <= i < |ws| :: ws[i] == []
  {
  }

  /** When every non-empty put sequence ends in `x`, so does the merged queue. */
  lemma {:induction false} InterleaveLast<T>(ws: seq<seq<T>>, sched: seq<nat>, q: seq<T>, x: T)
    requires Interleave(ws, sched) == Some(q)
    requires q != []
    requires forall i | 0 <= i < |ws| && ws[i] != [] :: ws[i][|ws[i]| - 1] == x
    ensures q[|q| - 1] == x
    decreases |sched|
  {
    var i := sched[0];
    var ws' := ws[i := ws[i][1..]];
    var rest := Interleave(ws', sched[1..]).value;
    if rest == [] {
      InterleaveOfNothing(ws', sched[1..], rest);
      assert ws'[i] == [];
    } else {
      forall j | 0 <= j < |ws'| && ws'[j] != [] ensures ws'[j][|ws'[j]| - 1] == x {
        if j == i {
          assert ws'[j][|ws'[j]| - 1] == ws[i][|ws[i]| - 1];
        }
      }
      InterleaveLast(ws', sched[1..], rest, x);
    }
  }

  /** The schedule of the payload puts alone, sentinel puts left out. */
  function PayloadSchedule<T>(ws: seq<seq<Option<T>>>, sched: seq<nat>): seq<nat>
    decreases |sched|
  {
    if sched == [] then []
    else
      var i := sched[0];
      if i < |ws| && ws[i] != [] then
        (if ws[i][0].Some? then [i] else []) + PayloadSchedule(ws[i := ws[i][1..]], sched[1..])
      else []
  }

  /** Taking the head off one put sequence takes the head off its payloads, if it is one. */
  lemma PayloadsAfterPut<T>(ws: seq<seq<Option<T>>>, i: nat)
    requires i < |ws| && ws[i] != []
    ensures ws[i][0].None? ==> AllPayloads(ws[i := ws[i][1..]]) == AllPayloads(ws)
    ensures ws[i][0].Some? ==>
      && AllPayloads(ws)[i] != []
      && AllPayloads(ws)[i][0] == ws[i][0].value
      && AllPayloads(ws[i := ws[i][1..]]) == AllPayloads(ws)[i := AllPayloads(ws)[i][1..]]
  {
    var ps := AllPayloads(ws);
    var ps' := AllPayloads(ws[i := ws[i][1..]]);
    assert ps[i] == (if ws[i][0].Some? then [ws[i][0].value] else []) + Payloads(ws[i][1..]);
    assert ps'[i] == Payloads(ws[i][1..]);
    assert forall j | 0 <= j < |ws| && j != i :: ps'[j] == ps[j];
    if ws[i][0].None? {
      assert ps'[i] == ps[i];
      assert forall j | 0 <= j < |ws| :: ps'[j] == ps[j];
    }
  }

  /**
   * Dropping the sentinels from the merged queue gives an interleaving of
   * the workers' payloads: each worker's items keep their order.
   */
  lemma {:induction false} InterleavePayloads<T>(ws: seq<seq<Option<T>>>, sched: seq<nat>, q: seq<Option<T>>)
    requires Interleave(ws, sched) == Some(q)
    ensures Interleave(AllPayloads(ws), PayloadSchedule(ws, sched)) == Some(Payloads(q))
    decreases |sched|
  {
    var ps := AllPayloads(ws);
    if sched == [] {
      assert forall j | 0 <= j < |ps| :: ps[j] == Payloads(ws[j]);
    } else {
      var i := sched[0];
      var ws' := ws[i := ws[i][1..]];
      var rest := Interleave(ws', sched[1..]).value;
      var s := PayloadSchedule(ws', sched[1..]);
      InterleavePayloads(ws', sched[1..], rest);
      assert q == [ws[i][0]] + rest;
      assert Payloads(q) == (if ws[i][0].Some? then [ws[i][0].value] else []) + Payloads(rest);
      PayloadsAfterPut(ws, i);
      if ws[i][0].Some? {
        assert PayloadSchedule(ws, sched) == [i] + s;
        assert ([i] + s)[0] == i && ([i] + s)[1..] == s;
        var ps' := AllPayloads(ws');
        assert ps' == ps[i := ps[i][1..]];
        assert i < |ps| && ps[i] != [];
        assert Interleave(ps', s) == Some(Payloads(rest));
        assert Interleave(ps, [i] + s) == Some([ps[i][0]] + Payloads(rest));
        assert [ps[i][0]] + Payloads(rest) == Payloads(q);
      } else {
        assert PayloadSchedule(ws, sched) == s;
        assert Payloads(q) == Payloads(rest);
      }
    }
  }

  /**
   * A consumer that stops right after the `n`-th sentinel of a queue which
   * holds exactly `n` sentinels and ends in one has consumed the whole queue.
   */
  lemma ConsumerDrainsQueue<T>(q: seq<Option<T>>, n: nat, taken: nat)
    requires CountNone(q) == n
    requires n > 0 ==> q != [] && q[|q| - 1] == None
    requires n == 0 ==> q == []
    requires taken <= |q| && CountNone(q[..taken]) == n
    requires n == 0 ==> taken == 0
    requires n > 0 ==> 0 < taken && q[taken - 1] == None
    ensures taken == |q|
  {
    if taken < |q| {
      assert q == q[..taken] + q[taken..];
      CountNoneAppend(q[..taken], q[taken..]);
      var tail := q[taken..];
      assert tail[|tail| - 1] == None;
      TailSentinel(tail);
    }
  }

  lemma {:induction false} TailSentinel<T>(q: seq<Option<T>>)
    requires q != [] && q[|q| - 1] == None
    ensures CountNone(q) > 0
  {
    if q[0].Some? {
      TailSentinel(q[1..]);
    }
  }

  /**
   * The merge loop of `_overall_search`: take items from the queue, count
   * each sentinel and forward every other item unchanged, until `tasks`
   * sentinels have been seen; then emit the completion message. With no
   * tasks nothing is taken from the queue.
   */
  method OverallSearch(queue: seq<Option<string>>, tasks: nat) returns (out: seq<string>, taken: nat)
    requires tasks <= CountNone(queue)
    ensures taken <= |queue|
    ensures CountNone(queue[..taken]) == tasks
    ensures tasks == 0 ==> taken == 0
    ensures tasks > 0 ==> 0 < taken && queue[taken - 1] == None
    ensures out == Payloads(queue[..taken]) + [SearchCompleteMessage]
  {
    assert queue[..|queue|] == queue;
    var finished := 0;
    taken := 0;
    out := [];
    while finished < tasks
      invariant finished <= tasks
      invariant taken <= |queue|
      invariant tasks == 0 ==> taken == 0
      invariant CountNone(queue[..taken]) == finished
      invariant out == Payloads(queue[..taken])
      invariant finished == tasks && tasks > 0 ==> 0 < taken && queue[taken - 1] == None
      decreases |queue| - taken
    {
      var item := queue[taken];
      assert queue[..taken + 1] == queue[..taken] + [item];
      CountNoneAppend(queue[..taken], [item]);
      PayloadsAppend(queue[..taken], [item]);
      taken := taken + 1;
      if item.None? {
        finished := finished + 1;
      } else {
        out := out + [item.value];
      }
    }
    out := out + [SearchCompleteMessage];
  }

  /**
   * For any schedule of one worker per generator: the queue holds one
   * sentinel per worker, the merge loop it feeds consumes all of it, and
   * what the loop forwards is an interleaving of the generators' items in
   * which each generator's items keep their order.
   */
  lemma MergeOfWorkers(items: seq<seq<string>>, sched: seq<nat>, q: seq<Option<string>>, taken: nat)
    requires Interleave(WorkerQueues(items), sched) == Some(q)
    requires taken <= |q| && CountNone(q[..taken]) == |items|
    requires |items| == 0 ==> taken == 0
    requires |items| > 0 ==> 0 < taken && q[taken - 1] == None
    ensures CountNone(q) == |items|
    ensures taken == |q|
    ensures Interleave(items, PayloadSchedule(WorkerQueues(items), sched)) == Some(Payloads(q[..taken]))
  {
    var ws := WorkerQueues(items);
    InterleaveCountsSentinels(ws, sched, q);
    SumNoneOfWorkers(items);
    if |items| > 0 {
      forall i | 0 <= i < |ws| && ws[i] != [] ensures ws[i][|ws[i]| - 1] == None {
        WorkerQueueShape(items[i]);
      }
      InterleaveLast(ws, sched, q, None);
    }
    ConsumerDrainsQueue(q, |items|, taken);
    assert q[..taken] == q;
    InterleavePayloads(ws, sched, q);
    AllPayloadsOfWorkers(items);
  }

  // ---------------------------------------------------------------------
  // The in-order schedule: each worker runs to completion in launch order
  // ---------------------------------------------------------------------

  /** The concatenation of the sequences, in order. */
  function Flatten<T>(xs: seq<seq<T>>): seq<T> {
    if xs == [] then [] else xs[0] + Flatten(xs[1..])
  }

  lemma {:induction false} FlattenSnoc<T>(xs: seq<seq<T>>, x: seq<T>)
    ensures Flatten(xs + [x]) == Flatten(xs) + x
  {
    if xs == [] {
      assert ([] + [x])[1..] == [];
    } else {
      assert (xs + [x])[1..] == xs[1..] + [x];
      FlattenSnoc(xs[1..], x);
    }
  }

  function Repeat(i: nat, n: nat): (r: seq<nat>)
    ensures |r| == n && forall k | 0 <= k < n :: r[k] == i
  {
    if n == 0 then [] else [i] + Repeat(i, n - 1)
  }

  /** `lens[0]` turns of worker `offset`, then `lens[1]` turns of the next one, and so on. */
  function InOrder(lens: seq<nat>, offset: nat): seq<nat> {
    if lens == [] then [] else Repeat(offset, lens[0]) + InOrder(lens[1..], offset + 1)
  }

  /** The schedule in which every worker puts all it has before the next one starts. */
  function SequentialSchedule<T>(ws: seq<seq<T>>): seq<nat> {
    InOrder(seq(|ws|, i requires 0 <= i < |ws| => |ws[i]|), 0)
  }

  /** Draining worker `j` first puts all of its sequence at the front of the queue. */
  lemma {:induction false} DrainWorker<T>(ws: seq<seq<T>>, j: nat, rest: seq<nat>)
    requires j < |ws|
    ensures Interleave(ws, Repeat(j, |ws[j]|) + rest) ==
      match Interleave(ws[j := []], rest)
      case Some(r) => Some(ws[j] + r)
      case None => None
    decreases |ws[j]|
  {
    if ws[j] == [] {
      assert ws[j := []] == ws;
      assert Repeat(j, 0) + rest == rest;
      match Interleave(ws, rest)
      case Some(r) => assert ws[j] + r == r;
      case None =>
    } else {
      var sched := Repeat(j, |ws[j]|) + rest;
      var ws' := ws[j := ws[j][1..]];
      assert sched[0] == j;
      assert sched[1..] == Repeat(j, |ws'[j]|) + rest;
      DrainWorker(ws', j, rest);
      assert ws'[j := []] == ws[j := []];
      match Interleave(ws[j := []], rest)
      case Some(r) =>
        assert Interleave(ws', sched[1..]) == Some(ws[j][1..] + r);
        assert [ws[j][0]] + (ws[j][1..] + r) == ws[j] + r;
      case None =>
        assert Interleave(ws', sched[1..]) == None;
    }
  }

  lemma {:induction false} InOrderInterleaves<T>(ws: seq<seq<T>>, lens: seq<nat>, from: nat)
    requires from + |lens| == |ws|
    requires forall i | 0 <= i < from :: ws[i] == []
    requires forall k | 0 <= k < |lens| :: lens[k] == |ws[from + k]|
    ensures Interleave(ws, InOrder(lens, from)) == Some(Flatten(ws[from..]))
    decreases |lens|
  {
    if lens == [] {
      assert ws[from..] == [];
    } else {
      var ws' := ws[from := []];
      InOrderInterleaves(ws', lens[1..], from + 1);
      DrainWorker(ws, from, InOrder(lens[1..], from + 1));
      assert ws'[from + 1..] == ws[from..][1..];
    }
  }

  /** Running the workers one after another is one of the interleavings. */
  lemma SequentialMerge<T>(ws: seq<seq<T>>)
    ensures Interleave(ws, SequentialSchedule(ws)) == Some(Flatten(ws))
  {
    InOrderInterleaves(ws, seq(|ws|, i requires 0 <= i < |ws| => |ws[i]|), 0);
    assert ws[0..] == ws;
  }

  /** The payloads of the in-order queue are the workers' items, worker after worker. */
  lemma {:induction false} PayloadsOfInOrderQueue<T>(items: seq<seq<T>>)
    ensures Payloads(Flatten(WorkerQueues(items))) == Flatten(items)
  {
    if items != [] {
      PayloadsOfInOrderQueue(items[1..]);
      assert WorkerQueues(items)[1..] == WorkerQueues(items[1..]);
      PayloadsAppend(WorkerQueue(items[0]), Flatten(WorkerQueues(items[1..])));
      WorkerQueueShape(items[0]);
    }
  }

  /** The in-order queue holds one sentinel per worker. */
  lemma InOrderQueueSentinels<T>(items: seq<seq<T>>)
    ensures CountNone(Flatten(WorkerQueues(items))) == |items|
  {
    var ws := WorkerQueues(items);
    SequentialMerge(ws);
    InterleaveCountsSentinels(ws, SequentialSchedule(ws), Flatten(ws));
    SumNoneOfWorkers(items);
  }

  /**
   * Fed the in-order queue, the merge loop consumes all of it and forwards
   * the workers' items, worker after worker.
   */
  lemma InOrderQueueConsumed(items: seq<seq<string>>, taken: nat)
    requires taken <= |Flatten(WorkerQueues(items))|
    requires CountNone(Flatten(WorkerQueues(items))[..taken]) == |items|
    requires |items| == 0 ==> taken == 0
    requires |items| > 0 ==> 0 < taken && Flatten(WorkerQueues(items))[taken - 1] == None
    ensures taken == |Flatten(WorkerQueues(items))|
    ensures Payloads(Flatten(WorkerQueues(items))[..taken]) == Flatten(items)
  {
    var ws := WorkerQueues(items);
    var q := Flatten(ws);
    SequentialMerge(ws);
    MergeOfWorkers(items, SequentialSchedule(ws), q, taken);
    assert q[..taken] == q;
    PayloadsOfInOrderQueue(items);
  }
}
