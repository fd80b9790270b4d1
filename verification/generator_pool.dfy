/** GeneratorPool: a decorator that feeds the items of lazy producers into a pool one at a time,
    pulling the next item only once the pool has room for it. A producer is a closure invoked
    exactly once, when it leaves the queue; it is given here by the finite sequence of items it
    yields, in yield order. */
module Generators {
  import opened Errors
  import opened Pools
  import Events

  /** A closure producing work items; what it yields when invoked. */
  type Producer = seq<Item>

  /** All items the producers yield, producer after producer, each in its own yield order. */
  function Flatten(ps: seq<Producer>): (items: seq<Item>)
    ensures ps == [] ==> items == []
  {
    if ps == [] then [] else ps[0] + Flatten(ps[1..])
  }

  lemma {:induction false} FlattenConcat(a: seq<Producer>, b: seq<Producer>)
    ensures Flatten(a + b) == Flatten(a) + Flatten(b)
  {
    if a == [] {
      assert a + b == b;
    } else {
      assert (a + b)[1..] == a[1..] + b;
      FlattenConcat(a[1..], b);
    }
  }

  lemma FlattenSingle(p: Producer)
    ensures Flatten([p]) == p
  {
  }

  /** Every item is something the decorated pool accepts. */
  predicate AllRunnable(items: seq<Item>)
  {
    items == [] || (items[0].Runnable? && AllRunnable(items[1..]))
  }

  lemma {:induction false} AllRunnableConcat(a: seq<Item>, b: seq<Item>)
    ensures AllRunnable(a + b) <==> AllRunnable(a) && AllRunnable(b)
  {
    if a == [] {
      assert a + b == b;
    } else {
      assert (a + b)[0] == a[0];
      assert (a + b)[1..] == a[1..] + b;
      AllRunnableConcat(a[1..], b);
    }
  }

  /** One item the pool rejects is enough to make a batch not all accepted. */
  lemma NotAllRunnableAt(items: seq<Item>, i: nat)
    requires i < |items| && !items[i].Runnable?
    ensures !AllRunnable(items)
  {
    assert items == items[..i] + items[i..];
    AllRunnableConcat(items[..i], items[i..]);
  }

  /** What the decorated pool records when `items` are fed to it in order without tags: one entry
      per item up to, and not including, the first item it rejects. */
  function Admitted(items: seq<Item>): seq<Entry>
  {
    if items == [] || !items[0].Runnable? then []
    else [Entry(items[0].work, map[])] + Admitted(items[1..])
  }

  /** The recorded entries are the items' works, untagged, in order; all items are recorded
      exactly when all are runnable, and otherwise recording stops at the first rejected one. */
  lemma {:induction false} AdmittedShape(items: seq<Item>)
    ensures |Admitted(items)| <= |items|
    ensures AllRunnable(items) <==> |Admitted(items)| == |items|
    ensures !AllRunnable(items) ==> !items[|Admitted(items)|].Runnable?
    ensures forall i :: 0 <= i < |Admitted(items)| ==>
              items[i].Runnable? && Admitted(items)[i] == Entry(items[i].work, map[])
  {
    if items != [] && items[0].Runnable? {
      AdmittedShape(items[1..]);
      var es := Admitted(items);
      forall i | 0 <= i < |es| ensures items[i].Runnable? && es[i] == Entry(items[i].work, map[]) {
        if i > 0 {
          assert es[i] == Admitted(items[1..])[i - 1];
          assert items[i] == items[1..][i - 1];
        }
      }
    }
  }

  /** Feeding two batches one after the other: the second is reached only if the first is
      accepted entirely. */
  lemma {:induction false} AdmittedConcat(a: seq<Item>, b: seq<Item>)
    ensures Admitted(a + b) == if AllRunnable(a) then Admitted(a) + Admitted(b) else Admitted(a)
  {
    if a == [] {
      assert a + b == b;
    } else {
      assert (a + b)[0] == a[0];
      assert (a + b)[1..] == a[1..] + b;
      if a[0].Runnable? {
        AdmittedConcat(a[1..], b);
      }
    }
  }

  class GeneratorPool {
    /** The decorated Pool or PriorityPool. */
    const decorated: Pool
    /** The queue of producers not yet invoked, front first. */
    var producers: seq<Producer>

    ghost predicate Valid()
      reads this, decorated
    {
      decorated.Valid()
    }

    /** Only a pool that has not started can be decorated. */
    constructor (decorated: Pool, generator: Option<Producer>)
      requires !decorated.started
      ensures this.decorated == decorated
      ensures producers == (if generator.Some? then [generator.value] else [])
    {
      this.decorated := decorated;
      producers := if generator.Some? then [generator.value] else [];
    }

    /** `new GeneratorPool(...)`: a RuntimeException when the pool has started; otherwise the
        queue holds exactly the given producer, if any, and the pool is left as it was. */
    static method New(decorated: Pool, generator: Option<Producer>) returns (r: Result<GeneratorPool>)
      ensures r.Err? <==> decorated.started
      ensures r.Err? ==> r.error == PoolAlreadyStarted
      ensures r.Ok? ==> fresh(r.value) && r.value.decorated == decorated
      ensures r.Ok? ==> r.value.producers == (if generator.Some? then [generator.value] else [])
    {
      if decorated.started {
        return Err(PoolAlreadyStarted);
      }
      var g := new GeneratorPool(decorated, generator);
      r := Ok(g);
    }

    /** add: a closure joins the back of the queue and the generator pool is returned; anything
        else goes, with its tags, to the decorated pool, whose answer (itself, or a rejection) is
        returned. */
    method Add(item: Item, tags: Tags) returns (r: Result<object>)
      requires Valid()
      modifies this, decorated
      ensures Valid()
      ensures decorated.started == old(decorated.started)
      ensures item.Closure? ==> r == Ok(this) && producers == old(producers) + [item.produces]
      ensures item.Closure? ==> decorated.runs == old(decorated.runs)
      ensures !item.Closure? ==> producers == old(producers)
      ensures item.Runnable? ==> r == Ok(decorated)
      ensures item.Runnable? ==> decorated.runs == old(decorated.runs) + [
                if decorated.started && !decorated.isPriority then Running(item.work, tags, item.work.cycles)
                else Waiting(item.work, tags)]
      ensures item.Unsupported? ==> r == Err(InvalidArgument) && unchanged(decorated)
      ensures Entries(decorated.runs) == old(Entries(decorated.runs))
                + (if item.Runnable? then [Entry(item.work, tags)] else [])
    {
      if item.Closure? {
        producers := producers + [item.produces];
        return Ok(this);
      }
      r := decorated.Add(item, tags);
    }

    /** count: the producers still queued, not the items they would yield. */
    function Count(): (n: nat)
      reads this
      ensures n == |producers|
    {
      |producers|
    }

    /** poll: a bounded PriorityPool with fewer waiting runs than its cap is reported idle without
        being polled; in every other case the decorated pool is polled and its answer returned. */
    method Poll() returns (busy: bool)
      requires Valid()
      modifies decorated
      ensures Valid()
      ensures old(decorated.BelowCapacity()) ==> !busy && unchanged(decorated)
      ensures !old(decorated.BelowCapacity()) ==>
                decorated.runs == old(decorated.Polled()) && busy == (Pools.Count(decorated.runs, Active) > 0)
      ensures decorated.started ==
                (old(decorated.started) || (decorated.isPriority && !old(decorated.BelowCapacity())))
      ensures Entries(decorated.runs) == old(Entries(decorated.runs))
      ensures Outstanding(decorated.runs) <= old(Outstanding(decorated.runs))
      ensures busy ==> Outstanding(decorated.runs) < old(Outstanding(decorated.runs))
      ensures !busy ==> decorated.BelowCapacity() || decorated.Quiet()
    {
      if decorated.BelowCapacity() {
        return false;
      }
      busy := decorated.Poll();
    }

    /** The body of run's inner loop for one yielded item: hand it to the decorated pool, then
        poll until poll says there is room. A rejected item stops everything, the pool unchanged. */
    method Feed(item: Item) returns (r: Outcome)
      requires Valid()
      modifies decorated
      ensures Valid()
      ensures r.Pass? <==> item.Runnable?
      ensures r.Fail? ==> r.error == InvalidArgument && unchanged(decorated)
      ensures !decorated.isPriority ==> decorated.started == old(decorated.started)
      ensures Entries(decorated.runs) == old(Entries(decorated.runs))
                + (if item.Runnable? then [Entry(item.work, map[])] else [])
      ensures r.Pass? ==> decorated.BelowCapacity() || decorated.Quiet()
      ensures r.Pass? && decorated.Bounded() ==>
                Pools.Count(decorated.runs, Pending) < decorated.maxSimultaneous.value
      ensures r.Pass? && decorated.isPriority && decorated.maxSimultaneous.None? ==> decorated.Settled()
    {
      var added := decorated.Add(item, map[]);
      if added.Err? {
        return Fail(added.error);
      }
      var busy := Poll();
      while busy
        invariant Valid()
        invariant !decorated.isPriority ==> decorated.started == old(decorated.started)
        invariant Entries(decorated.runs) == old(Entries(decorated.runs)) + [Entry(item.work, map[])]
        invariant !busy ==> decorated.BelowCapacity() || decorated.Quiet()
        decreases Outstanding(decorated.runs) + (if busy then 1 else 0)
      {
        busy := Poll();
      }
      r := Pass;
    }

    /** The inner loop of run for one dequeued producer: its items are fed in yield order, each
        only after the previous one has been let through by poll. Stops at the first item the
        decorated pool rejects. */
    method DrainProducer(generator: Producer) returns (r: Outcome)
      requires Valid()
      modifies decorated
      ensures Valid()
      ensures r.Pass? <==> AllRunnable(generator)
      ensures r.Fail? ==> r.error == InvalidArgument
      ensures !decorated.isPriority ==> decorated.started == old(decorated.started)
      ensures Entries(decorated.runs) == old(Entries(decorated.runs)) + Admitted(generator)
    {
      var i := 0;
      while i < |generator|
        invariant 0 <= i <= |generator|
        invariant Valid()
        invariant AllRunnable(generator[..i])
        invariant Entries(decorated.runs) == old(Entries(decorated.runs)) + Admitted(generator[..i])
        invariant !decorated.isPriority ==> decorated.started == old(decorated.started)
      {
        var fed := Feed(generator[i]);
        if fed.Fail? {
          AdmittedStops(generator, i);
          return fed;
        }
        AdmittedStep(generator, i);
        i := i + 1;
      }
      assert generator[..i] == generator;
      r := Pass;
    }

    /** One turn of run's outer loop: the producer at the front of the queue is dequeued,
        invoked once and drained. */
    method DrainNext() returns (r: Outcome)
      requires Valid() && producers != []
      modifies this, decorated
      ensures Valid()
      ensures producers == old(producers)[1..]
      ensures r.Pass? <==> AllRunnable(old(producers)[0])
      ensures r.Fail? ==> r.error == InvalidArgument
      ensures !decorated.isPriority ==> decorated.started == old(decorated.started)
      ensures Entries(decorated.runs) == old(Entries(decorated.runs)) + Admitted(old(producers)[0])
    {
      var generator := producers[0];
      producers := producers[1..];
      r := DrainProducer(generator);
    }

    /** The outer loop of run: producers leave the queue front to back, each invoked once and
        drained before the next. A rejected item stops the loop with the producers after the
        failing one still queued. */
    method DrainQueue() returns (r: Outcome)
      requires Valid()
      modifies this, decorated
      ensures Valid()
      ensures Entries(decorated.runs) == old(Entries(decorated.runs)) + Admitted(Flatten(old(producers)))
      ensures r.Pass? <==> AllRunnable(Flatten(old(producers)))
      ensures r.Pass? ==> producers == []
      ensures r.Fail? ==> r.error == InvalidArgument
      ensures r.Fail? ==>
                exists k :: 0 < k <= |old(producers)| && producers == old(producers)[k..] &&
                  AllRunnable(Flatten(old(producers)[..k - 1])) && !AllRunnable(Flatten(old(producers)[..k]))
      ensures !decorated.isPriority ==> decorated.started == old(decorated.started)
    {
      ghost var initial := Entries(decorated.runs);
      ghost var consumed: seq<Producer> := [];
      while producers != []
        invariant Valid()
        invariant old(producers) == consumed + producers
        invariant AllRunnable(Flatten(consumed))
        invariant Entries(decorated.runs) == initial + Admitted(Flatten(consumed))
        invariant !decorated.isPriority ==> decorated.started == old(decorated.started)
        decreases |producers|
      {
        ghost var generator := producers[0];
        ghost var rest := producers[1..];
        r := DrainNext();
        if r.Fail? {
          FailedDrain(initial, consumed, generator, rest);
          FailedQueue(old(producers), consumed, generator, rest);
          return;
        }
        DrainedOne(initial, consumed, generator);
        consumed := consumed + [generator];
      }
      assert consumed == old(producers);
      r := Pass;
    }

    /** run: drains the producers front to back, feeding every yielded item to the decorated
        pool in order; then starts a plain pool (a PriorityPool starts itself), polls until
        nothing runs and reports success. A rejected item aborts with the producers after its
        own still queued. */
    method Run() returns (r: Result<bool>)
      requires Valid()
      modifies this, decorated
      decreases if decorated.isPriority then 0 else 1
      ensures Valid()
      ensures Entries(decorated.runs) == old(Entries(decorated.runs)) + Admitted(Flatten(old(producers)))
      ensures !AllRunnable(Flatten(old(producers))) ==> r == Err(InvalidArgument)
      ensures !AllRunnable(Flatten(old(producers))) ==>
                exists k :: 0 < k <= |old(producers)| && producers == old(producers)[k..] &&
                  AllRunnable(Flatten(old(producers)[..k - 1])) && !AllRunnable(Flatten(old(producers)[..k]))
      ensures AllRunnable(Flatten(old(producers))) ==> producers == []
      ensures AllRunnable(Flatten(old(producers))) ==>
                (r.Ok? <==> decorated.isPriority || !old(decorated.started))
      ensures r.Err? && AllRunnable(Flatten(old(producers))) ==> r.error == AlreadyStarted
      ensures r.Ok? ==> decorated.started && decorated.Settled() && r.value == decorated.IsSuccessful()
      ensures r.Ok? ==> (r.value <==> AllSucceed(decorated.runs))
    {
      var drained := DrainQueue();
      if drained.Fail? {
        return Err(drained.error);
      }

      // A plain pool must be started explicitly; this.start() delegates to it.
      if !decorated.isPriority {
        var s := Start();
        if s.Err? {
          return Err(s.error);
        }
      }

      ghost var entries := Entries(decorated.runs);
      var busy := decorated.Poll();
      while busy
        invariant Valid()
        invariant decorated.started && producers == []
        invariant Entries(decorated.runs) == entries
        invariant !busy ==> decorated.Quiet()
        decreases Outstanding(decorated.runs) + (if busy then 1 else 0)
      {
        busy := decorated.Poll();
      }
      SettledSuccess(decorated.runs);
      r := Ok(decorated.IsSuccessful());
    }

    /** start: a PriorityPool-backed generator pool runs the whole `run` loop and returns itself;
        otherwise start is delegated to the decorated pool and the producers stay queued. */
    method Start() returns (r: Result<object>)
      requires Valid()
      modifies this, decorated
      decreases if decorated.isPriority then 1 else 0
      ensures Valid()
      ensures !decorated.isPriority ==> producers == old(producers)
      ensures !decorated.isPriority && old(decorated.started) ==>
                r == Err(AlreadyStarted) && decorated.runs == old(decorated.runs) && decorated.started
      ensures !decorated.isPriority && !old(decorated.started) ==>
                r == Ok(decorated) && decorated.started && decorated.runs == Admit(old(decorated.runs), None)
      ensures decorated.isPriority ==>
                Entries(decorated.runs) == old(Entries(decorated.runs)) + Admitted(Flatten(old(producers)))
      ensures decorated.isPriority ==> (r.Ok? <==> AllRunnable(Flatten(old(producers))))
      ensures decorated.isPriority && r.Ok? ==>
                r.value == this && producers == [] && decorated.started && decorated.Settled()
      ensures decorated.isPriority && r.Ok? ==> (decorated.IsSuccessful() <==> AllSucceed(decorated.runs))
    {
      if decorated.isPriority {
        var ran := Run();
        if ran.Err? {
          return Err(ran.error);
        }
        return Ok(this);
      }
      r := decorated.Start();
    }

    // The remaining operations delegate to the decorated pool.

    /** Every run is in exactly one of the waiting, running and finished views. */
    function GetAll(): (rs: seq<Run>)
      reads this, decorated
      ensures rs == decorated.runs
      ensures |rs| == |GetWaiting()| + |GetRunning()| + |GetFinished()|
    {
      CountPartition(decorated.runs);
      decorated.runs
    }

    function GetWaiting(): (rs: seq<Run>)
      reads this, decorated
      ensures rs == Select(decorated.runs, Pending)
    {
      Select(decorated.runs, Pending)
    }

    function GetRunning(): (rs: seq<Run>)
      reads this, decorated
      ensures rs == Select(decorated.runs, Active)
    {
      Select(decorated.runs, Active)
    }

    function GetFinished(): (rs: seq<Run>)
      reads this, decorated
      ensures rs == Select(decorated.runs, Finished)
    {
      Select(decorated.runs, Finished)
    }

    function GetExceptions(): (f: seq<Entry>)
      reads this, decorated
      ensures f == Failures(decorated.runs)
    {
      Failures(decorated.runs)
    }

    function HasStarted(): (b: bool)
      reads this, decorated
      ensures b == decorated.started
    {
      decorated.started
    }

    /** Never successful before the decorated pool has started. */
    function IsSuccessful(): (b: bool)
      reads this, decorated
      ensures b == decorated.IsSuccessful()
      ensures b ==> HasStarted()
    {
      decorated.IsSuccessful()
    }

    /** Running means started with some run still unfinished, so never successful at once. */
    function IsRunning(): (b: bool)
      reads this, decorated
      ensures b == decorated.IsRunning()
      ensures b ==> HasStarted() && |GetAll()| > 0 && !IsSuccessful()
    {
      if decorated.IsRunning() then
        // an unfinished run is a witness against success
        var p := if Pools.Count(decorated.runs, Pending) > 0 then Pending else Active;
        assert Pools.Select(decorated.runs, p)[0] in decorated.runs;
        true
      else
        false
    }

    function GetTags(): (t: Tags)
      reads this
      ensures t == decorated.tags
    {
      decorated.tags
    }

    method AddListener(name: string, handler: Events.Handler) returns (r: Result<object>)
      modifies decorated.events, decorated.events.eventDispatcher
      ensures r.Ok? <==> name in decorated.events.eventNames
      ensures r.Ok? ==> r.value == decorated
      ensures r.Err? ==> r.error == InvalidArgument
      ensures r.Err? ==> decorated.events.Listeners() == old(decorated.events.Listeners())
      ensures r.Ok? ==>
                decorated.events.Listeners() == Events.WithListener(old(decorated.events.Listeners()), name, handler)
    {
      r := decorated.AddListener(name, handler);
    }
  }

  /** One more accepted item extends what the pool has recorded by exactly that item. */
  lemma AdmittedStep(g: Producer, i: nat)
    requires i < |g| && AllRunnable(g[..i]) && g[i].Runnable?
    ensures AllRunnable(g[..i + 1])
    ensures Admitted(g[..i + 1]) == Admitted(g[..i]) + [Entry(g[i].work, map[])]
  {
    assert g[..i + 1] == g[..i] + [g[i]];
    AllRunnableConcat(g[..i], [g[i]]);
    AdmittedConcat(g[..i], [g[i]]);
    assert Admitted([g[i]]) == [Entry(g[i].work, map[])] by {
      assert [g[i]][1..] == [];
    }
  }

  /** A rejected item inside one producer hides everything after it. */
  lemma AdmittedStops(g: Producer, i: nat)
    requires i < |g| && AllRunnable(g[..i]) && !g[i].Runnable?
    ensures Admitted(g) == Admitted(g[..i])
    ensures !AllRunnable(g)
  {
    assert g == g[..i] + g[i..];
    AdmittedConcat(g[..i], g[i..]);
    NotAllRunnableAt(g, i);
  }

  /** Flattening the queue around the producer being drained. */
  lemma FlattenAround(consumed: seq<Producer>, g: Producer, rest: seq<Producer>)
    ensures Flatten(consumed + [g]) == Flatten(consumed) + g
    ensures Flatten(consumed + [g] + rest) == Flatten(consumed) + (g + Flatten(rest))
  {
    FlattenConcat(consumed, [g]);
    FlattenSingle(g);
    FlattenConcat(consumed + [g], rest);
  }

  /** One more producer drained completely. */
  lemma DrainedOne(initial: seq<Entry>, consumed: seq<Producer>, g: Producer)
    requires AllRunnable(Flatten(consumed)) && AllRunnable(g)
    ensures AllRunnable(Flatten(consumed + [g]))
    ensures initial + Admitted(Flatten(consumed)) + Admitted(g) == initial + Admitted(Flatten(consumed + [g]))
  {
    var f := Flatten(consumed);
    var fg := Flatten(consumed + [g]);
    assert fg == f + g by {
      FlattenConcat(consumed, [g]);
      FlattenSingle(g);
    }
    AllRunnableConcat(f, g);
    var x, y := Admitted(f), Admitted(g);
    assert Admitted(fg) == x + y by {
      AdmittedConcat(f, g);
    }
    assert initial + x + y == initial + (x + y);
  }

  /** Where run stops on a rejected item: what the pool recorded is the accepted prefix of
      everything the producers would yield. */
  lemma FailedDrain(initial: seq<Entry>, consumed: seq<Producer>, g: Producer, rest: seq<Producer>)
    requires AllRunnable(Flatten(consumed)) && !AllRunnable(g)
    ensures initial + Admitted(Flatten(consumed)) + Admitted(g) == initial + Admitted(Flatten(consumed + [g] + rest))
    ensures !AllRunnable(Flatten(consumed + [g] + rest))
  {
    var f, t := Flatten(consumed), Flatten(rest);
    FlattenAround(consumed, g, rest);
    assert Flatten(consumed + [g] + rest) == f + (g + t);
    AdmittedConcat(g, t);
    AllRunnableConcat(g, t);
    assert Admitted(g + t) == Admitted(g);
    AdmittedConcat(f, g + t);
    AllRunnableConcat(f, g + t);
    var x, y := Admitted(f), Admitted(g);
    assert Admitted(f + (g + t)) == x + y;
    assert initial + x + y == initial + (x + y);
  }

  /** Where run stops on a rejected item: the queue holds exactly the producers after the one
      that yielded it, and that one is the first whose items are not all accepted. */
  lemma FailedQueue(all: seq<Producer>, consumed: seq<Producer>, g: Producer, rest: seq<Producer>)
    requires all == consumed + [g] + rest
    requires AllRunnable(Flatten(consumed)) && !AllRunnable(g)
    ensures exists k :: 0 < k <= |all| && rest == all[k..] &&
              AllRunnable(Flatten(all[..k - 1])) && !AllRunnable(Flatten(all[..k]))
  {
    var k := |consumed| + 1;
    assert all[..k - 1] == consumed;
    assert all[..k] == consumed + [g];
    assert all[k..] == rest;
    FlattenAround(consumed, g, rest);
    AllRunnableConcat(Flatten(consumed), g);
  }
}
