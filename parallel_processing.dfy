/** The CPU-bound workload of module3/parallel_processing.py and the
    hand-rolled process pool `individual_processes`.

    `process_number` computes a factorial with a loop; `non_concurrent` maps
    it over a list. `individual_processes` puts every input, tagged with its
    index, on an input queue, then one `(-1, -1)` sentinel per worker; each
    `worker` takes items until it meets a sentinel and puts
    `(index, process_number(number))` on an output queue; the main process
    takes one result per input from the output queue and stores it at its
    index.

    Queues are FIFO channels; the operating system's scheduling becomes two
    explicit choices: which worker performs each `get` on the input queue
    (a schedule), and in which order the results reach the main process (an
    arrival order, any permutation). */
module ParallelProcessing {
  import opened Outcomes

  // ---------------------------------------------------------------------
  // The workload

  /** n! for n >= 1, and 1 for every n <= 0. */
  function Factorial(n: int): (f: nat)
    ensures f >= 1
  {
    if n <= 0 then 1 else n * Factorial(n - 1)
  }

  /** `process_number(n)`: the product 1 * 2 * ... * n, built up in a loop
      over `range(1, n + 1)`, which is empty when n <= 0. */
  method ProcessNumber(n: int) returns (f: int)
    ensures f == Factorial(n)
    ensures n <= 0 ==> f == 1
    ensures n >= 1 ==> f == n * Factorial(n - 1)
  {
    f := 1;
    var i := 1;
    while i <= n
      invariant 1 <= i <= (if n < 1 then 1 else n + 1)
      invariant f == Factorial(i - 1)
    {
      f := f * i;
      i := i + 1;
    }
  }

  /** `non_concurrent(data)`: `process_number` of every element, in order. */
  function NonConcurrent(data: seq<int>): (r: seq<int>)
    ensures |r| == |data|
    ensures forall i :: 0 <= i < |data| ==> r[i] == Factorial(data[i])
  {
    if data == [] then [] else [Factorial(data[0])] + NonConcurrent(data[1..])
  }

  /** A value `random.randint(0, 1000)` can return. */
  type Draw = x: int | 0 <= x <= 1000

  /** `generate_data(n)`: `draw(i)` stands for the i-th value the random
      number generator returns. */
  function GenerateData(n: int, draw: nat -> Draw): (data: seq<int>)
    ensures |data| == (if n < 0 then 0 else n)
    ensures forall i :: 0 <= i < |data| ==> 0 <= data[i] <= 1000
  {
    seq(if n < 0 then 0 else n, (i: int) requires 0 <= i => draw(i) as int)
  }

  // ---------------------------------------------------------------------
  // Queues and the worker

  /** The pair `(index, number)` on the input queue, or `(index, result)` on
      the output queue. */
  datatype Pair = Pair(index: int, value: int)

  /** The pair that tells a worker to stop. */
  const Sentinel := Pair(-1, -1)

  /** A `multiprocessing.Queue`, first in, first out. */
  class Channel {
    var items: seq<Pair>

    constructor ()
      ensures items == []
    {
      items := [];
    }

    method Put(p: Pair)
      modifies this
      ensures items == old(items) + [p]
    {
      items := items + [p];
    }

    /** `get()` blocks until an item is there; the model asks for one. */
    method Get() returns (p: Pair)
      requires items != []
      modifies this
      ensures p == old(items)[0] && items == old(items)[1..]
    {
      p := items[0];
      items := items[1..];
    }
  }

  /** Whether a worker stops on `p`: only its index is looked at. */
  predicate Stops(p: Pair)
  {
    p.index == -1
  }

  /** The position of the first stopping pair in `q`. */
  function FirstStop(q: seq<Pair>): (k: nat)
    requires exists j :: 0 <= j < |q| && Stops(q[j])
    ensures k < |q| && Stops(q[k])
    ensures forall j :: 0 <= j < k ==> !Stops(q[j])
  {
    if Stops(q[0]) then 0
    else
      assert exists j :: 0 <= j < |q[1..]| && Stops(q[1..][j]) by {
        var j :| 0 <= j < |q| && Stops(q[j]);
        assert q[1..][j - 1] == q[j];
      }
      1 + FirstStop(q[1..])
  }

  /** What a worker puts on the output queue for the pairs it processes. */
  function Processed(q: seq<Pair>): (out: seq<Pair>)
    ensures |out| == |q|
    ensures forall j :: 0 <= j < |q| ==> out[j] == Pair(q[j].index, Factorial(q[j].value))
  {
    if q == [] then [] else [Pair(q[0].index, Factorial(q[0].value))] + Processed(q[1..])
  }

  /** Processing one more pair appends its result. */
  lemma ProcessedSnoc(q: seq<Pair>, k: nat)
    requires k < |q|
    ensures Processed(q[..k + 1]) == Processed(q[..k]) + [Pair(q[k].index, Factorial(q[k].value))]
  {
    assert q[..k + 1] == q[..k] + [q[k]];
  }

  /** `worker(input_queue, output_queue)`: processes the pairs ahead of the
      first sentinel, consumes that sentinel and stops. */
  method Worker(input: Channel, output: Channel)
    requires input != output
    requires exists j :: 0 <= j < |input.items| && Stops(input.items[j])
    modifies input, output
    ensures var s := FirstStop(old(input.items));
      && input.items == old(input.items)[s + 1..]
      && output.items == old(output.items) + Processed(old(input.items)[..s])
  {
    ghost var q := input.items;
    ghost var s := FirstStop(q);
    ghost var k := 0;
    while true
      invariant 0 <= k <= s
      invariant input.items == q[k..]
      invariant output.items == old(output.items) + Processed(q[..k])
      decreases |input.items|
    {
      var p := input.Get();
      if p.index == -1 {
        assert k == s;
        break;
      }
      assert k < s;
      var result := ProcessNumber(p.value);
      output.Put(Pair(p.index, result));
      ProcessedSnoc(q, k);
      k := k + 1;
    }
  }

  // ---------------------------------------------------------------------
  // The input queue of `individual_processes`

  /** The input queue once `individual_processes` has filled it: every input
      tagged with its index, then one sentinel per worker. */
  function Feed(data: seq<int>, workers: nat): (q: seq<Pair>)
    ensures |q| == |data| + workers
  {
    Enumerate(data, 0) + Sentinels(workers)
  }

  /** `enumerate(data)` with indices counted from `from`. */
  function Enumerate(data: seq<int>, from: int): (q: seq<Pair>)
    ensures |q| == |data|
    ensures forall i :: 0 <= i < |data| ==> q[i] == Pair(from + i, data[i])
  {
    if data == [] then [] else [Pair(from, data[0])] + Enumerate(data[1..], from + 1)
  }

  /** `n` copies of the sentinel. */
  function Sentinels(n: nat): (q: seq<Pair>)
    ensures |q| == n
    ensures forall i :: 0 <= i < n ==> q[i] == Sentinel
  {
    if n == 0 then [] else [Sentinel] + Sentinels(n - 1)
  }

  /** Every real item comes before every sentinel, real items never stop a
      worker, and there are exactly `workers` sentinels. */
  lemma FeedShape(data: seq<int>, workers: nat)
    ensures var q := Feed(data, workers);
      && (forall i :: 0 <= i < |data| ==> q[i] == Pair(i, data[i]) && !Stops(q[i]))
      && (forall i :: |data| <= i < |q| ==> q[i] == Sentinel && Stops(q[i]))
  {
  }

  /** The integers `a .. b - 1`. */
  ghost function Interval(a: int, b: int): (r: set<int>)
    ensures forall j :: j in r <==> a <= j < b
    ensures a <= b ==> |r| == b - a
    decreases b - a
  {
    if a >= b then {} else {a} + Interval(a + 1, b)
  }

  /** `schedule[j]` is the worker that performed the j-th `get` on the input
      queue (which, the queue being FIFO, returned `q[j]`); a worker performs
      no `get` after it has received a sentinel. */
  ghost predicate Obeys(q: seq<Pair>, schedule: seq<int>, workers: nat)
  {
    && |schedule| <= |q|
    && (forall j :: 0 <= j < |schedule| ==> 0 <= schedule[j] < workers)
    && (forall j, j' :: 0 <= j < j' < |schedule| && schedule[j] == schedule[j'] ==> !Stops(q[j]))
  }

  /** The positions of the sentinels taken under `schedule`. */
  ghost function StopsTaken(q: seq<Pair>, schedule: seq<int>): set<int>
    requires |schedule| <= |q|
  {
    set j | 0 <= j < |schedule| && Stops(q[j])
  }

  /** The values `s` takes at the positions in `p`. */
  ghost function Image(p: set<int>, s: seq<int>): set<int>
    requires forall j :: j in p ==> 0 <= j < |s|
  {
    set j | j in p :: s[j]
  }

  /** The workers that have received a sentinel, and so have finished. */
  ghost function Stopped(q: seq<Pair>, schedule: seq<int>): set<int>
    requires |schedule| <= |q|
  {
    Image(StopsTaken(q, schedule), schedule)
  }

  lemma SubsetCard<T>(a: set<T>, b: set<T>)
    requires a <= b
    ensures |a| <= |b|
  {
    assert b == a + (b - a);
    assert a * (b - a) == {};
  }

  lemma Pick<T>(p: set<T>) returns (x: T)
    requires p != {}
    ensures x in p
  {
    x :| x in p;
  }

  /** A set of positions has at least as many members as its image. */
  lemma {:induction false} ImageCard(p: set<int>, s: seq<int>)
    requires forall j :: j in p ==> 0 <= j < |s|
    ensures |Image(p, s)| <= |p|
    decreases p
  {
    if p == {} {
      assert Image(p, s) == {};
    } else {
      var x := Pick(p);
      ImageCard(p - {x}, s);
      SubsetCard(Image(p, s), Image(p - {x}, s) + {s[x]});
    }
  }

  /** No worker takes two sentinels: a worker that got a sentinel stops. */
  lemma OneStopPerWorker(q: seq<Pair>, schedule: seq<int>, workers: nat)
    requires Obeys(q, schedule, workers)
    ensures forall j, j' ::
      (j in StopsTaken(q, schedule) && j' in StopsTaken(q, schedule) && schedule[j] == schedule[j']) ==> j == j'
  {
  }

  /** The counting argument, for any queue whose first `n` items are real
      and whose remaining `workers` items are sentinels. */
  lemma DrainCount(q: seq<Pair>, n: nat, workers: nat, schedule: seq<int>)
    requires workers >= 1
    requires |q| == n + workers
    requires forall j :: 0 <= j < n ==> !Stops(q[j])
    requires Obeys(q, schedule, workers)
    requires Interval(0, workers) <= Stopped(q, schedule)
    ensures |schedule| == |q|
    ensures |StopsTaken(q, schedule)| == workers
    ensures Stopped(q, schedule) == Interval(0, workers)
  {
    var taken := StopsTaken(q, schedule);
    var stopped := Stopped(q, schedule);
    ImageCard(taken, schedule);
    SubsetCard(Interval(0, workers), stopped);
    assert taken <= Interval(n, |schedule|);
    SubsetCard(taken, Interval(n, |schedule|));
    assert stopped <= Interval(0, workers);
  }

  /** Whatever the interleaving of the workers' `get` calls: once all of
      them (at least one) have stopped, the whole input queue has been
      taken, so every real item was handed out exactly once (at its own
      position, the queue being FIFO) and every worker consumed exactly one
      sentinel. */
  lemma AnyScheduleDrainsFeed(data: seq<int>, workers: nat, schedule: seq<int>)
    requires workers >= 1
    requires Obeys(Feed(data, workers), schedule, workers)
    requires Interval(0, workers) <= Stopped(Feed(data, workers), schedule)
    ensures |schedule| == |data| + workers
    ensures |StopsTaken(Feed(data, workers), schedule)| == workers
    ensures Stopped(Feed(data, workers), schedule) == Interval(0, workers)
    ensures forall j, j' ::
      (j in StopsTaken(Feed(data, workers), schedule) && j' in StopsTaken(Feed(data, workers), schedule)
       && schedule[j] == schedule[j']) ==> j == j'
  {
    FeedShape(data, workers);
    DrainCount(Feed(data, workers), |data|, workers, schedule);
    OneStopPerWorker(Feed(data, workers), schedule, workers);
  }

  /** A subset as large as its superset is the whole of it. */
  lemma SubsetSameCard<T>(a: set<T>, b: set<T>)
    requires a <= b && |a| == |b|
    ensures a == b
  {
    assert b == a + (b - a);
    assert a * (b - a) == {};
  }

  /** A set of positions on which `s` is one-to-one has as many members as
      its image. */
  lemma {:induction false} InjectiveImageCard(p: set<int>, s: seq<int>)
    requires forall j :: j in p ==> 0 <= j < |s|
    requires forall j, j' :: j in p && j' in p && s[j] == s[j'] ==> j == j'
    ensures |Image(p, s)| == |p|
    decreases p
  {
    if p == {} {
      assert Image(p, s) == {};
    } else {
      var x := Pick(p);
      InjectiveImageCard(p - {x}, s);
      assert Image(p, s) == Image(p - {x}, s) + {s[x]};
      assert s[x] !in Image(p - {x}, s);
    }
  }

  /** The converse of `DrainCount`: a schedule that has taken the whole of a
      queue ending in one sentinel per worker has stopped every worker. */
  lemma AllTakenStopsAll(q: seq<Pair>, n: nat, workers: nat, schedule: seq<int>)
    requires |q| == n + workers
    requires forall j :: n <= j < |q| ==> Stops(q[j])
    requires Obeys(q, schedule, workers)
    requires |schedule| == |q|
    ensures Stopped(q, schedule) == Interval(0, workers)
  {
    var taken := StopsTaken(q, schedule);
    var stopped := Stopped(q, schedule);
    assert Interval(n, |q|) <= taken;
    SubsetCard(Interval(n, |q|), taken);
    OneStopPerWorker(q, schedule, workers);
    InjectiveImageCard(taken, schedule);
    assert stopped <= Interval(0, workers);
    SubsetCard(stopped, Interval(0, workers));
    SubsetSameCard(stopped, Interval(0, workers));
  }

  /** Whatever the interleaving, once the workers have taken the whole queue
      `individual_processes` filled, every worker has received its sentinel
      and stopped, so every `join` returns. */
  lemma FullScheduleStopsAll(data: seq<int>, workers: nat, schedule: seq<int>)
    requires Obeys(Feed(data, workers), schedule, workers)
    requires |schedule| == |data| + workers
    ensures Stopped(Feed(data, workers), schedule) == Interval(0, workers)
  {
    FeedShape(data, workers);
    AllTakenStopsAll(Feed(data, workers), |data|, workers, schedule);
  }

  /** With at least one worker, all workers have stopped exactly when the
      whole fed queue has been taken. */
  lemma DrainedIffAllStopped(data: seq<int>, workers: nat, schedule: seq<int>)
    requires workers >= 1
    requires Obeys(Feed(data, workers), schedule, workers)
    ensures Stopped(Feed(data, workers), schedule) == Interval(0, workers)
        <==> |schedule| == |data| + workers
  {
    if |schedule| == |data| + workers {
      FullScheduleStopsAll(data, workers, schedule);
    }
    if Stopped(Feed(data, workers), schedule) == Interval(0, workers) {
      AnyScheduleDrainsFeed(data, workers, schedule);
    }
  }

  // ---------------------------------------------------------------------
  // `individual_processes`

  /** `order` lists every index in `0 .. n - 1`: `order[k]` is the index of
      the k-th result the main process takes from the output queue. */
  ghost predicate IsArrivalOrder(order: seq<nat>, n: nat)
  {
    && |order| == n
    && (forall k :: 0 <= k < n ==> order[k] < n)
    && (forall i :: 0 <= i < n ==> i in order)
  }

  /** The two `put` loops of `individual_processes`: every input with its
      index, then one sentinel per worker. */
  method FeedInput(input: Channel, data: seq<int>, workers: nat)
    modifies input
    ensures input.items == old(input.items) + Feed(data, workers)
  {
    var i := 0;
    while i < |data|
      invariant 0 <= i <= |data|
      invariant input.items == old(input.items) + Enumerate(data[..i], 0)
    {
      input.Put(Pair(i, data[i]));
      assert data[..i + 1] == data[..i] + [data[i]];
      EnumerateAppend(data[..i], [data[i]], 0);
      i := i + 1;
    }
    assert data[..|data|] == data;
    var w := 0;
    while w < workers
      invariant 0 <= w <= workers
      invariant input.items == old(input.items) + Enumerate(data, 0) + Sentinels(w)
    {
      input.Put(Sentinel);
      SentinelsAppend(w);
      w := w + 1;
    }
  }

  /** The worker processes, started and joined; here they run one after
      another: the first takes every real item and one sentinel, each later
      one takes one sentinel. */
  method RunWorkers(input: Channel, output: Channel, data: seq<int>, workers: nat)
    requires workers >= 1 && input != output
    requires input.items == Feed(data, workers) && output.items == []
    modifies input, output
    ensures input.items == [] && output.items == Processed(Enumerate(data, 0))
  {
    FeedSplits(data, workers);
    Worker(input, output);
    var w := 1;
    while w < workers
      invariant 1 <= w <= workers
      invariant input.items == Sentinels(workers - w)
      invariant output.items == Processed(Enumerate(data, 0))
    {
      SentinelsSplit(workers - w);
      Worker(input, output);
      w := w + 1;
    }
  }

  /** The first worker to run takes every real item and one sentinel. */
  lemma FeedSplits(data: seq<int>, workers: nat)
    requires workers >= 1
    ensures var q := Feed(data, workers);
      && Stops(q[|data|])
      && FirstStop(q) == |data|
      && q[..|data|] == Enumerate(data, 0)
      && q[|data| + 1..] == Sentinels(workers - 1)
  {
    FeedShape(data, workers);
    var q := Feed(data, workers);
    assert Stops(q[|data|]);
  }

  /** Every later worker takes one sentinel and nothing else. */
  lemma SentinelsSplit(n: nat)
    requires n >= 1
    ensures Stops(Sentinels(n)[0])
    ensures FirstStop(Sentinels(n)) == 0
    ensures Sentinels(n)[1..] == Sentinels(n - 1)
  {
  }

  /** The `results` loop of `individual_processes`: `results` starts as one
      `None` per input, and each result taken from the output queue (the
      `order[k]`-th one produced at step k) is stored at its index. Whatever
      the arrival order, every slot ends up filled with the value produced
      for its index. */
  method Collect(produced: seq<Pair>, order: seq<nat>) returns (results: seq<Option<int>>)
    requires IsArrivalOrder(order, |produced|)
    requires forall j :: 0 <= j < |produced| ==> produced[j].index == j
    ensures |results| == |produced|
    ensures forall i :: 0 <= i < |produced| ==> results[i] == Some(produced[i].value)
  {
    var slots := new Option<int>[|produced|](_ => None);
    var k := 0;
    while k < |produced|
      invariant 0 <= k <= |produced|
      invariant forall j :: 0 <= j < |produced| ==>
        slots[j] == if j in order[..k] then Some(produced[j].value) else None
    {
      var p := produced[order[k]];
      slots[p.index] := Some(p.value);
      assert order[..k + 1] == order[..k] + [order[k]];
      k := k + 1;
    }
    assert order[..|produced|] == order;
    results := slots[..];
  }

  /** `individual_processes(data)` with `workers` worker processes (the CPU
      count), whose results reach the main process in the arbitrary order
      `order`: whatever that order, the reassembled list is
      `non_concurrent(data)` with no `None` left. */
  method IndividualProcesses(data: seq<int>, workers: nat, order: seq<nat>) returns (results: seq<Option<int>>)
    requires workers >= 1
    requires IsArrivalOrder(order, |data|)
    ensures |results| == |data|
    ensures forall i :: 0 <= i < |data| ==> results[i] == Some(NonConcurrent(data)[i])
  {
    var input := new Channel();
    var output := new Channel();
    FeedInput(input, data, workers);
    RunWorkers(input, output, data, workers);
    var produced := output.items;
    results := Collect(produced, order);
  }

  /** Indices keep counting across a split of the input. */
  lemma {:induction false} EnumerateAppend(a: seq<int>, b: seq<int>, from: int)
    ensures Enumerate(a + b, from) == Enumerate(a, from) + Enumerate(b, from + |a|)
  {
  }

  /** One more sentinel at the end. */
  lemma {:induction false} SentinelsAppend(n: nat)
    ensures Sentinels(n) + [Sentinel] == Sentinels(n + 1)
  {
  }
}
