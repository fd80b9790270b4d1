# GeneratorPool and the event-name guard of parallel-process, in Dafny

This project models two parts of graze/parallel-process, a PHP library that runs many
sub-processes under a concurrency cap.

- **GeneratorPool** is a decorator around a `Pool` or `PriorityPool`. It keeps a FIFO queue of
  producer closures. Its `run` loop takes each producer in turn and invokes it once. Every item
  the producer yields goes to the decorated pool. The next item is pulled only after
  `poll()` has returned `false`. For a bounded `PriorityPool`, that means fewer waiting runs
  than `maxSimultaneous`. Once the queue is empty, `run` starts a plain pool, polls until
  nothing runs, and reports success.
- **EventDispatcherTrait** gives a component `addListener` and `dispatch`. Both first check the
  event name against the component's fixed allow-list. The dispatcher behind them is created
  lazily.

Files:

- `errors.dfy`: the exceptions as an `Error` value, and the `Option`, `Result` and `Outcome` types.
- `events.dfy`: the allow-list check `AssertEventName` and the registry update `WithListener`.
  It also holds `EventEmitter`, the trait's state: the fixed names and the lazily created
  dispatcher. `Dispatcher` stands for the Symfony dispatcher; it holds the listener map and the
  events handed to it.
- `pool.dfy`: the decorated pool, given only the interface that GeneratorPool relies on.
  `isPriority` is the capability flag that stands for `instanceof PriorityPool`.
  `maxSimultaneous` is `None` for `NO_MAX`. Runs are `Waiting`, `Running` or `Done`. The three
  partitions are counts over this single sequence. The external work is the environment: a
  `Work` says how many further poll cycles it stays in progress once started, and whether it
  then succeeds. `Outstanding` is the total remaining work. Every poll that returns `true`
  lowers it, so every spin loop in `run` terminates.
- `generator_pool.dfy`: the `GeneratorPool` class. Its queue is a `seq` field of producers. A
  producer is the finite sequence of items its closure yields when it is invoked.
  `Flatten` gives everything the queue would yield, in order. `Admitted` gives what the
  decorated pool records when those items are fed in order: the items up to the first one it
  rejects.

The PHP constructor throws when the decorated pool has already started. In the model this is
the static method `New`, which returns an error in that case. `run` calls `this.start()` and
`start` calls `run`; the model keeps this mutual recursion. The `decreases` clauses use the
capability flag, because `run` only calls `start` on a plain pool and `start` only calls `run`
on a priority pool. The inner loop body is `Feed`, the loop over one producer's items is
`DrainProducer`, one turn of the outer loop is `DrainNext`, and the whole outer loop is
`DrainQueue`.

Two consequences of the code are worth stating:

- `count()` counts only the producers still in the queue. The producer being drained was
  dequeued before it was invoked, so it is not counted.
- After each item, `run` waits until `poll()` returns `false`. For a bounded PriorityPool that
  means there is room below the cap. For a `NO_MAX` PriorityPool it means every run has finished
  before the next item is pulled (`Feed` proves `Settled()` there). If a plain pool has not been
  started before `run`, its poll returns `false` at once during the drain, so all its items are
  added before `run` starts it. If it was already started, by `start()` on the generator pool or
  directly, each item starts when it is added and finishes before the next one is pulled. `run`
  then ends with `AlreadyStarted` after the drain.

## Model

| member | source | states |
|---|---|---|
| `Generators.GeneratorPool.New` | src/GeneratorPool.php:47-59 | Fails with `PoolAlreadyStarted` exactly when the decorated pool has started. Otherwise it returns a fresh generator pool around that pool, whose queue is `[generator]` if one was given and empty if not. |
| `Generators.GeneratorPool.constructor` | src/GeneratorPool.php:53-58 | Requires a pool that has not started. Stores the decorated pool, and the queue is exactly the optional producer. |
| `Generators.GeneratorPool.Add` | src/GeneratorPool.php:68-78 | A closure goes to the back of the queue, `this` is returned, and the decorated pool is unchanged. Any other item leaves the queue unchanged and is forwarded with its tags. A run returns the decorated pool, and the decorated runs grow by exactly that run: running if the pool is a started plain pool, waiting otherwise. An unsupported item returns `InvalidArgument` and leaves the decorated pool unchanged. |
| `Generators.GeneratorPool.Count` | src/GeneratorPool.php:175-178 | Equals the number of producers still queued, not the number of items they yield. |
| `Generators.GeneratorPool.Poll` | src/GeneratorPool.php:97-108 | On a bounded PriorityPool with fewer waiting runs than its cap, it returns `false` and leaves the decorated pool unchanged. Otherwise the decorated pool takes one poll cycle and its running-or-not answer is returned; a PriorityPool polled this way is marked started, and a plain pool's started flag is unchanged. Outstanding work never grows, and a `true` comes with strictly less of it. A `false` means there is room below the cap or the decorated pool is quiet. |
| `Generators.GeneratorPool.Feed` | src/GeneratorPool.php:120-123 | The item is added untagged, then the loop polls until `poll()` is `false`. After that: room below the cap or a quiet pool; for a bounded pool, fewer waiting runs than the cap; for a `NO_MAX` PriorityPool, every run has finished. A rejected item gives `InvalidArgument` and leaves the pool unchanged. |
| `Generators.GeneratorPool.DrainProducer` | src/GeneratorPool.php:119-124 | Feeds one producer's items in yield order. It passes exactly when every item is runnable. The entries grow by exactly `Admitted(generator)`, which stops at the first rejected item. |
| `Generators.GeneratorPool.DrainNext` | src/GeneratorPool.php:118-119 | Dequeues the front producer, so the queue becomes its tail. The producer is invoked once and drained. |
| `Generators.GeneratorPool.DrainQueue` | src/GeneratorPool.php:118-125 | Producers are drained in FIFO order. The entries grow by `Admitted(Flatten(queue))`, so each item is added exactly once, in order. On success the queue is empty. On a rejected item the queue holds exactly the producers after the first one that is not all runnable. |
| `Generators.GeneratorPool.Run` | src/GeneratorPool.php:114-138 | Adds every yielded item once, in FIFO and yield order. Only a plain pool is started explicitly, and only after draining; it fails with `AlreadyStarted` if it had already started. On success the queue is empty and the pool has started with every run finished. The result equals `isSuccessful()`, which holds exactly when every run's work succeeded. A rejected item aborts with `InvalidArgument`. |
| `Generators.GeneratorPool.Start` | src/GeneratorPool.php:83-92 | For a PriorityPool, runs the whole `run` loop and returns `this`. On success the pool is then successful exactly when every run's work succeeded. Otherwise it delegates to the decorated `start`: the queue is kept, and the result is the decorated pool, or `AlreadyStarted` if it had started, in which case the pool stays started with its runs unchanged. |
| `Generators.GeneratorPool.GetAll` | src/GeneratorPool.php:143-146 | Returns the decorated pool's runs. Every run is in exactly one of the waiting, running and finished views, so the three sizes add up to the total. |
| `Generators.GeneratorPool.GetWaiting` | src/GeneratorPool.php:151-154 | Returns the decorated pool's waiting runs, in insertion order. |
| `Generators.GeneratorPool.GetRunning` | src/GeneratorPool.php:159-162 | Returns the decorated pool's running runs, in insertion order. |
| `Generators.GeneratorPool.GetFinished` | src/GeneratorPool.php:167-170 | Returns the decorated pool's finished runs, in insertion order. |
| `Generators.GeneratorPool.AddListener` | src/GeneratorPool.php:185-188 | Delegates to the decorated pool. Succeeds, returning the decorated pool, exactly for a listed name. Otherwise `InvalidArgument` and the registry is unchanged. |
| `Generators.GeneratorPool.HasStarted` | src/GeneratorPool.php:193-196 | Equals the decorated pool's started flag. |
| `Generators.GeneratorPool.IsSuccessful` | src/GeneratorPool.php:201-204 | Equals the decorated `isSuccessful()`, and is never true before the pool has started. |
| `Generators.GeneratorPool.GetExceptions` | src/GeneratorPool.php:209-212 | Returns the decorated pool's failed runs, in insertion order. |
| `Generators.GeneratorPool.IsRunning` | src/GeneratorPool.php:217-220 | Equals the decorated `isRunning()`. A running pool has started, holds at least one run, and is not successful. |
| `Generators.GeneratorPool.GetTags` | src/GeneratorPool.php:225-228 | Returns the decorated pool's tags. |
| `Generators.FlattenConcat` | src/GeneratorPool.php:118 | Draining queue `a` and then queue `b` yields everything `a` yields, followed by everything `b` yields. |
| `Generators.AllRunnableConcat` | src/GeneratorPool.php:119-120 | A concatenation of batches is accepted entirely exactly when each batch is. |
| `Generators.AdmittedShape` | src/GeneratorPool.php:119-120 | Each recorded entry is the item's work, untagged, at the item's own position. All items are recorded exactly when all are runnable. Otherwise recording stops at the first rejected item. |
| `Generators.AdmittedConcat` | src/GeneratorPool.php:118-124 | Feeding batch `a` then batch `b` records `a`'s entries then `b`'s, but `b` is reached only if all of `a` is accepted. |
| `Generators.FailedQueue` | src/GeneratorPool.php:118-119 | When a producer is rejected mid-drain, the queue left holds exactly the producers after the first one that is not all runnable. |
| `Pools.Pool.Add` | src/GeneratorPool.php:76-77 | The decorated `add`: a run is appended as waiting (a started plain pool starts it at once) and the pool is returned. Anything else, a closure included, gives `InvalidArgument` and changes nothing. |
| `Pools.Pool.Poll` | src/GeneratorPool.php:133-135 | The decorated `poll`: one poll cycle. Entries are unchanged, and outstanding work never grows and strictly falls on `true`. A `false` means nothing runs, and for a PriorityPool nothing waits. A bounded pool never runs more than its cap, and a finished run succeeded exactly when its work did. |
| `Pools.SettledSuccess` | src/GeneratorPool.php:137 | Once nothing waits or runs, and each finished run carries its work's outcome, every run finished successfully exactly when every run's work succeeds. |
| `Pools.Pool.Start` | src/GeneratorPool.php:91 | The decorated `start`: `AlreadyStarted` on a started pool. Otherwise it admits waiting runs (all of them for a plain pool, up to the cap for a PriorityPool) and marks the pool started. |
| `Pools.Pool.AddListener` | src/Event/EventDispatcherTrait.php:48-53 | The trait's `addListener` as used by a pool. Succeeds and returns the pool exactly for a listed name, appending the handler under that name only. |
| `Events.AssertEventName` | src/Event/EventDispatcherTrait.php:74-83 | Passes exactly when the name is in the allow-list. Otherwise it fails with `InvalidArgument`. |
| `Events.WithListener` | src/Event/EventDispatcherTrait.php:51 | Appends the handler at the end of that name's listeners. Every other name keeps exactly its listeners. |
| `Events.EventEmitter.GetEventDispatcher` | src/Event/EventDispatcherTrait.php:29-35 | The first call creates a fresh dispatcher. Every later call returns that same instance. The registry is not changed. |
| `Events.EventEmitter.AddListener` | src/Event/EventDispatcherTrait.php:48-53 | The result is the allow-list check. On rejection the dispatcher and registry are unchanged. On success the handler is appended under that name only. An existing dispatcher is kept. |
| `Events.EventEmitter.Dispatch` | src/Event/EventDispatcherTrait.php:61-67 | The result is the allow-list check. On rejection nothing is dispatched. On success exactly this event is handed to the dispatcher. The registry is never changed. |

## Left out

- Sleeping between polls (`usleep`) and the float-to-microsecond interval conversion at src/GeneratorPool.php:116, :122 and :134. The loops are modelled without timing.
- `getProgress` and `getPriority` (src/GeneratorPool.php:233-244). They return floats and only delegate.
- Pool and PriorityPool are modelled only through the interface GeneratorPool uses, and these assumptions are made about them. A plain pool's poll starts nothing. A PriorityPool's poll advances its runs, then admits waiting runs up to the cap and marks itself started. `start` refuses a second call. `add` on a started plain pool starts the run at once, and `add` rejects everything that is not a run or a process.
- Priority-ordered admission in PriorityPool. Waiting runs are admitted in insertion order, because GeneratorPool never looks at the order. Changing `maxSimultaneous` on a live pool is also left out.
- The Run lifecycle internals (CallbackRun, ProcessRun, Symfony Process). A run's progress is reduced to a count of poll cycles and a success flag. Exception objects are reduced to the failed runs.
- A producer that throws while it is advanced. Producers are finite sequences that cannot fail, so producer failure is not modelled, and neither are unbounded producers.
- The Symfony dispatcher's handler invocation, listener priorities and propagation stopping (src/Event/EventDispatcherTrait.php:51, :64). The model records only the registry update and which events were handed over.
- The error message text of `assertEventName`. Every rejection is the value `InvalidArgument`.
- `Events.AssertEventName`: only exact string membership is modelled. PHP's non-strict `in_array` (src/Event/EventDispatcherTrait.php:76) compares two numeric strings as numbers, so with the list `["10"]` it also accepts `"1e1"` and `"010"`. The model rejects those names.
- The `RunningStateTrait` that GeneratorPool uses. Every state query of GeneratorPool delegates to the decorated pool, so that trait's own state is not modelled.
- `Generators.GeneratorPool.Add`, `Start`, `AddListener`, `Pools.Pool.Add`, `Pools.Pool.Start`, `Pools.Pool.AddListener`: the PHP methods return the object for chaining. The model returns that object inside `Ok`.
- Console table rendering (tests/example/generatorpool.php) and the Mockery-based unit tests. Some tests pass an already-invoked generator where the code requires a `Closure`; the model follows the code.
