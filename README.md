# Verified model of the decorator, singleton and process-pool exercises

This project models four Python exercises in Dafny and proves what they
promise.

- `lru_cache.dfy` (module `LruCache`) models `lru_cache` in
  `module1/cache_decorator.py`, a memoising decorator.
  - Each decorated function gets an `OrderedDict` from call key to result.
  - The key is `(args, frozenset(kwargs.items()))`.
  - A hit returns the stored result and moves the key to the most-recent end.
  - A miss first evicts the least recently used entry when the dictionary
    already holds `maxsize` entries. It then calls the function and stores
    its result as the newest entry.
  - The wrapper is the class `LruWrapper`, with the dictionary kept as a map
    (`entries`) plus a key order (`order`, least recently used first).
  - Its `Call` method is proved to perform exactly one step of the value-level
    specification `Step`, and every property is proved about `Step`.
  - The wrapped callable is a function of the call key and of how many times
    it ran before. A mock with a `side_effect` list is such a function, so the
    script at the end of the file is replayed and its asserted results and
    call count are proved.
  - As written, a `maxsize` of zero or less makes every call raise `KeyError`
    from `popitem` on the empty dictionary. The model keeps that behaviour.
- `parallel_processing.dfy` (module `ParallelProcessing`) models the CPU-bound
  workload of `module3/parallel_processing.py` and its hand-rolled process pool.
  - `process_number` is a factorial loop; `non_concurrent` maps it over a list.
  - The `worker` loop stops at the first `(-1, -1)` sentinel.
  - In `individual_processes`, the inputs are tagged with their index,
    followed by one sentinel per worker, and the results are put back at their
    index.
  - Queues are FIFO channels.
  - The reassembled list is proved equal to `non_concurrent(data)` for every
    arrival order of results.
  - Separate lemmas cover every interleaving of the workers' `get` calls:
    all workers have stopped exactly when the whole queue has been taken,
    and then each worker took exactly one sentinel.
- `singleton.dfy` (module `Singleton`) models the two singletons of
  `module1/singleton.py`.
  - The metaclass keeps one instance per class in a shared table.
  - `SingletonNew` keeps its instance in a class attribute.
- `access_control.dfy` (module `AccessControl`) models `access_control(roles)`
  of `module1/access_decorator.py`. The decorator forwards a call only when
  the current role is one of `roles`, and raises `PermissionError` otherwise.
- `outcomes.dfy` (module `Outcomes`) holds the shared vocabulary: an option
  type, the exceptions the code raises, and the outcome of a Python call
  (a returned value or a raised exception).

## Model

| member | source | states |
|---|---|---|
| `LruCache.MakeKey` | module1/cache_decorator.py:14 | the key holds the positional arguments in order and exactly the keyword pairs of the call, as a set |
| `LruCache.KeyIgnoresKeywordOrder` | module1/cache_decorator.py:14 | the same positional arguments with the same keyword arguments, written in any order, give the same key |
| `LruCache.SameKeyIff` | module1/cache_decorator.py:14 | two calls share a key if and only if their positional arguments are equal and their keyword pairs form the same set |
| `LruCache.MoveToEnd` | module1/cache_decorator.py:17 | `move_to_end(k)` leaves `k` as the last key and neither gains nor loses a key |
| `LruCache.MoveToEndSpec` | module1/cache_decorator.py:17 | `move_to_end(k)` makes `k` the last key, keeps the key set, keeps the other keys in their relative order, and keeps the order duplicate-free |
| `LruCache.MoveToEndOfNewest` | module1/cache_decorator.py:17 | moving the newest key to the end leaves the order unchanged |
| `LruCache.EntriesMatchOrder` | module1/cache_decorator.py:19 | in a well-formed cache, `len(cache)` equals the number of keys in the recency order |
| `LruCache.PopOldest` | module1/cache_decorator.py:20 | `popitem(last=False)` removes exactly the oldest key, keeps every other entry's value, drops the head of the order, and does not count as a call |
| `LruCache.PopOldestSpec` | module1/cache_decorator.py:20 | `popitem(last=False)` removes exactly the oldest key from both the dictionary and the order, and shortens the order by one |
| `LruCache.Step` | module1/cache_decorator.py:13-23 | one call of `wrapper` as a value: a hit returns the stored value and keeps the entries without calling `func`; `func` runs at most once, and only on a miss, where its outcome is the result; a returned value is left cached under the key; no other key is ever added |
| `LruCache.StepKeepsWellFormed` | module1/cache_decorator.py:13-23 | every call keeps the invariant: each key is listed once, the order lists exactly the dictionary's keys, and the size stays within `maxsize` |
| `LruCache.SizeWithinMaxsize` | module1/cache_decorator.py:19-22 | a well-formed cache holds at most `maxsize` entries, and none when `maxsize <= 0` |
| `LruCache.HitSpec` | module1/cache_decorator.py:15-17 | a hit returns the stored value, does not call the function, keeps every entry, and makes the key the most recent while the other keys keep their relative order |
| `LruCache.MissSpec` | module1/cache_decorator.py:18-22 | a miss that does not fail calls the function exactly once and returns its outcome; a returned value is stored as the newest entry, and a raised exception stores nothing |
| `LruCache.EvictionSpec` | module1/cache_decorator.py:19-22 | a miss on a full cache with `maxsize >= 1` evicts exactly the least recently used key, even when the function then raises; other entries keep their values, and the new order is the old order minus its head plus the new key |
| `LruCache.NoEvictionBelowMaxsize` | module1/cache_decorator.py:18-22 | a call on a cache below `maxsize` keeps every existing entry and its value; on a miss the new order is the old one plus the key when a value was returned, and a raising call leaves the entries unchanged |
| `LruCache.UnboundedNeverEvicts` | module1/cache_decorator.py:19 | with `maxsize=None` no entry is ever dropped |
| `LruCache.NonPositiveMaxsizeFails` | module1/cache_decorator.py:19-20 | with `maxsize <= 0` every call raises `KeyError`, does not call the function, and leaves the cache unchanged |
| `LruCache.LruWrapper.constructor` | module1/cache_decorator.py:9-10 | each decorated function starts with an empty dictionary and no calls |
| `LruCache.LruWrapper.Call` | module1/cache_decorator.py:13-23 | the in-place update keeps the invariant and produces exactly the new cache and result of `Step` |
| `LruCache.LruWrapper.Hit` | module1/cache_decorator.py:15-17 | the hit branch, updated in place, equals `Step` on a present key |
| `LruCache.LruWrapper.Miss` | module1/cache_decorator.py:18-22 | the miss branch, updated in place, equals `Step` on an absent key, including the `KeyError` from `popitem` on an empty dictionary |
| `LruCache.Mock` | module1/cache_decorator.py:58-59 | the mock's n-th call returns the n-th side effect and raises `StopIteration` once they are used up |
| `LruCache.MockTraceFirstCalls` | module1/cache_decorator.py:58-65 | with `maxsize=2` and side effects 1, 2, 3, 4: (1, 2) misses and then hits with 1, and (3, 4) misses and then hits with 2 |
| `LruCache.MockTraceFifthCall` | module1/cache_decorator.py:66 | (5, 6) on the full cache evicts (1, 2) and returns 3 |
| `LruCache.MockTraceSixthCall` | module1/cache_decorator.py:67 | the repeated (5, 6) is a hit returning 3 that leaves the cache unchanged |
| `LruCache.MockTraceSeventhCall` | module1/cache_decorator.py:68 | (1, 2), evicted earlier, misses again, evicts (3, 4) and returns 4 |
| `LruCache.MockTrace` | module1/cache_decorator.py:58-69 | the seven calls return 1, 1, 2, 2, 3, 3, 4, the mock is called four times, and (1, 2) was evicted |
| `ParallelProcessing.Factorial` | module3/parallel_processing.py:15-19 | the reference product 1 * ... * n is at least 1 |
| `ParallelProcessing.ProcessNumber` | module3/parallel_processing.py:15-19 | the loop computes n! for n >= 1 and 1 for n <= 0, since `range(1, n + 1)` is then empty |
| `ParallelProcessing.NonConcurrent` | module3/parallel_processing.py:75-76 | the result has the input's length and holds `process_number` of each element at its position |
| `ParallelProcessing.GenerateData` | module3/parallel_processing.py:11-12 | the list has `n` elements (none when `n < 0`), each between 0 and 1000 |
| `ParallelProcessing.Channel.constructor` | module3/parallel_processing.py:47-48 | a new queue is empty |
| `ParallelProcessing.Channel.Put` | module3/parallel_processing.py:59 | `put` appends at the tail |
| `ParallelProcessing.Channel.Get` | module3/parallel_processing.py:39 | `get` removes and returns the head |
| `ParallelProcessing.FirstStop` | module3/parallel_processing.py:38-41 | the position where a worker stops holds a pair with index -1, and no earlier pair has index -1 |
| `ParallelProcessing.Processed` | module3/parallel_processing.py:42-43 | each processed pair keeps its index and carries the factorial of its number |
| `ParallelProcessing.Worker` | module3/parallel_processing.py:34-43 | a worker consumes its queue up to and including the first sentinel, and appends `(index, process_number(number))` for exactly the pairs before it, in order |
| `ParallelProcessing.Feed` | module3/parallel_processing.py:58-62 | the filled input queue has one item per input plus one per worker |
| `ParallelProcessing.Enumerate` | module3/parallel_processing.py:58-59 | the i-th put pair is `(i, data[i])` |
| `ParallelProcessing.Sentinels` | module3/parallel_processing.py:61-62 | every pair of the second loop is `(-1, -1)` |
| `ParallelProcessing.FeedShape` | module3/parallel_processing.py:58-62 | real items come first, with their own index, and never stop a worker; the last `workers` items are sentinels |
| `ParallelProcessing.OneStopPerWorker` | module3/parallel_processing.py:38-41 | under any schedule, no worker takes two sentinels |
| `ParallelProcessing.DrainCount` | module3/parallel_processing.py:50-62 | for a queue of real items followed by one sentinel per worker: once every worker has stopped, every item was taken, exactly `workers` sentinels were taken, and the stopped workers are exactly all of them |
| `ParallelProcessing.AnyScheduleDrainsFeed` | module3/parallel_processing.py:50-62 | for the queue `individual_processes` fills and any interleaving of `get`s: once all workers have stopped, the queue is drained and each worker took exactly one sentinel |
| `ParallelProcessing.AllTakenStopsAll` | module3/parallel_processing.py:38-41 | for a queue ending in one sentinel per worker: once a schedule has taken the whole queue, every worker has stopped |
| `ParallelProcessing.FullScheduleStopsAll` | module3/parallel_processing.py:58-70 | for the queue `individual_processes` fills and any interleaving of `get`s: once the whole queue is taken, every worker has received its sentinel and stopped, so every `join` returns |
| `ParallelProcessing.DrainedIffAllStopped` | module3/parallel_processing.py:58-70 | with at least one worker and any interleaving, all workers have stopped if and only if the whole fed queue has been taken |
| `ParallelProcessing.FeedInput` | module3/parallel_processing.py:58-62 | the two `put` loops append exactly the indexed inputs and then the sentinels |
| `ParallelProcessing.RunWorkers` | module3/parallel_processing.py:50-56 | running the workers drains the input queue and leaves every input's `(index, result)` pair on the output queue |
| `ParallelProcessing.Collect` | module3/parallel_processing.py:64-67 | for any arrival order, each result slot ends up holding the value produced for its own index, with no `None` left |
| `ParallelProcessing.IndividualProcesses` | module3/parallel_processing.py:46-72 | for at least one worker and any arrival order, the result equals `non_concurrent(data)` element by element |
| `Singleton.Instance.constructor` | module1/singleton.py:9 | an instance keeps the arguments it was built from |
| `Singleton.SingletonMeta.constructor` | module1/singleton.py:5 | the shared `_instances` table starts empty |
| `Singleton.SingletonMeta.Call` | module1/singleton.py:7-10 | the first call for a class builds a fresh instance from its arguments and records it under that class alone; later calls return the recorded instance, ignore their arguments, and change nothing; distinct classes never share an instance |
| `Singleton.SameClassTwice` | module1/singleton.py:5-10 | two calls for one class return the same object, built from the first call's arguments; a call for another class in between gets a different object; both classes end up in the one table |
| `Singleton.SingletonNew.constructor` | module1/singleton.py:14 | `_instance` starts as `None` |
| `Singleton.SingletonNew.New` | module1/singleton.py:16-19 | an instance is created only when none is stored, and a stored one is returned whatever the arguments; a first call with arguments raises `TypeError` from `object.__new__` and stores nothing |
| `Singleton.NewIsIdempotent` | module1/singleton.py:16-19 | once a call has returned an instance, the next call returns the same one |
| `AccessControl.Wrapper` | module1/access_decorator.py:11-15 | the wrapped function is invoked if and only if the current role is in `roles`; then its result is returned unchanged, otherwise `PermissionError` is raised |
| `AccessControl.OnlyMembershipMatters` | module1/access_decorator.py:12 | role lists with the same members give the same outcome, whatever their order or repetitions |
| `AccessControl.EmptyRolesDeny` | module1/access_decorator.py:12-15 | an empty role list always raises `PermissionError` without invoking the function |
| `AccessControl.DefaultRoleAdmin` | module1/access_decorator.py:5-15 | with the default role `"admin"`, a list naming `"admin"` forwards the call and any other list raises `PermissionError` |

## Left out

- `module3/async_http.py` is not part of this model. It makes HTTP requests with timeouts, fans out tasks with `asyncio.gather`, and writes files.
- `thread_pool`, `process_pool`, `measure_time` and `main` in `module3/parallel_processing.py` are not modelled. They hand the work to library executors, read the wall clock, and print a pandas table and `results.json`. Their results are `non_concurrent(data)` by the libraries' own contracts.
- `module6/currency_proxy.py` and `module1/created_at_meta.py` are not part of this model. They are an HTTP gateway and a timestamping metaclass.
- `module1/singleton.py:22` imports a module that is not part of this model.
- The `sum`, `sum_many` and `multiply` examples at `module1/cache_decorator.py:33-56` are not modelled. They only call the decorator on arithmetic.
- Cache keys are compared by plain equality. Python's hashing quirks are not modelled, such as `1 == 1.0 == True` colliding as keys. Exception chaining of the `KeyError` raised inside the `except` block is not modelled either.
- The wrapped function is a pure function of the key and of its own call count. A wrapped function that calls the same decorated function again (re-entrancy) is not modelled.
- `GenerateData`: the random draws are a parameter `draw`, so the model states only the length and the range of the list.
- `ParallelProcessing.Channel.Get`: a blocking `get` on an empty queue is a precondition here, so a worker that would wait forever is not modelled.
- `ParallelProcessing.RunWorkers`: the workers run one after another, which is one particular schedule. Every other schedule of the input queue is covered by `AnyScheduleDrainsFeed`, and every arrival order of the output queue by `Collect`. True parallelism and `join` are not modelled.
- `ParallelProcessing.IndividualProcesses`: the worker count is a parameter of at least one, standing for `multiprocessing.cpu_count()`.
- `Singleton.SingletonMeta.Call`: the class's own constructor is modelled as always succeeding and storing its arguments. Exceptions raised by a user `__init__` are not modelled.
- `Singleton.SingletonNew.New`: a stored instance is taken to be truthy, since the class defines neither `__bool__` nor `__len__`. A subclass inheriting the parent's `_instance` is not modelled.
