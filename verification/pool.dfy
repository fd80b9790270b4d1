/** The decorated pool (Pool or PriorityPool) as GeneratorPool observes it. Both are modelled
    only through the interface GeneratorPool relies on:
    `add`, `start`, `poll`, the waiting/running/finished views, `isSuccessful`, the tags and the
    event registration. `isPriority` is the capability that `instanceof PriorityPool` tests.
    The completion of a run's external work is the environment: each Work says how many further
    poll cycles it stays in progress once started, and whether it then succeeds. */
module Pools {
  import opened Errors
  import Events

  /** Pool-level or run-level descriptive metadata. */
  type Tags = map<string, string>

  /** The external work a run wraps (a process or a callback). */
  datatype Work = Work(cycles: nat, succeeds: bool)

  /** What a caller can hand to `add`: a run (or a process, which the pool wraps into one),
      a closure producing items when it is invoked, or anything else. */
  datatype Item =
    | Runnable(work: Work)
    | Closure(produces: seq<Item>)
    | Unsupported

  /** What the pool remembers of an admitted item. */
  datatype Entry = Entry(work: Work, tags: Tags)

  /** One admitted run and its lifecycle state; `left` counts the poll cycles still needed. */
  datatype Run =
    | Waiting(work: Work, tags: Tags)
    | Running(work: Work, tags: Tags, left: nat)
    | Done(work: Work, tags: Tags, ok: bool)

  /** The three partitions every run belongs to. */
  datatype Phase = Pending | Active | Finished

  function PhaseOf(r: Run): Phase
  {
    match r
    case Waiting(_, _) => Pending
    case Running(_, _, _) => Active
    case Done(_, _, _) => Finished
  }

  /** Number of runs in phase `p`. */
  function Count(rs: seq<Run>, p: Phase): (n: nat)
    ensures n <= |rs|
  {
    if rs == [] then 0 else (if PhaseOf(rs[0]) == p then 1 else 0) + Count(rs[1..], p)
  }

  /** Every run is in exactly one of the three partitions. */
  lemma {:induction false} CountPartition(rs: seq<Run>)
    ensures Count(rs, Pending) + Count(rs, Active) + Count(rs, Finished) == |rs|
  {
    if rs != [] {
      CountPartition(rs[1..]);
    }
  }

  lemma {:induction false} CountAppend(rs: seq<Run>, x: Run, p: Phase)
    ensures Count(rs + [x], p) == Count(rs, p) + (if PhaseOf(x) == p then 1 else 0)
  {
    if rs == [] {
      assert rs + [x] == [x];
    } else {
      assert (rs + [x])[1..] == rs[1..] + [x];
      CountAppend(rs[1..], x, p);
    }
  }

  /** The runs in phase `p`, in insertion order: the getWaiting/getRunning/getFinished views. */
  function Select(rs: seq<Run>, p: Phase): (s: seq<Run>)
    ensures |s| == Count(rs, p)
    ensures forall i :: 0 <= i < |s| ==> PhaseOf(s[i]) == p && s[i] in rs
  {
    if rs == [] then []
    else if PhaseOf(rs[0]) == p then [rs[0]] + Select(rs[1..], p)
    else Select(rs[1..], p)
  }

  /** The runs that finished unsuccessfully, in insertion order: what getExceptions reports on. */
  function Failures(rs: seq<Run>): (f: seq<Entry>)
    ensures |f| <= Count(rs, Finished)
  {
    if rs == [] then []
    else if rs[0].Done? && !rs[0].ok then [Entry(rs[0].work, rs[0].tags)] + Failures(rs[1..])
    else Failures(rs[1..])
  }

  /** The items admitted, in insertion order, whatever state their runs are in. */
  function Entries(rs: seq<Run>): (es: seq<Entry>)
    ensures |es| == |rs|
  {
    if rs == [] then [] else [Entry(rs[0].work, rs[0].tags)] + Entries(rs[1..])
  }

  /** The entry at each position records the run at that position. */
  lemma {:induction false} EntriesAt(rs: seq<Run>)
    ensures forall i :: 0 <= i < |rs| ==> Entries(rs)[i] == Entry(rs[i].work, rs[i].tags)
  {
    if rs != [] {
      EntriesAt(rs[1..]);
      assert forall i :: 1 <= i < |rs| ==> rs[i] == rs[1..][i - 1];
    }
  }

  lemma {:induction false} EntriesAppend(rs: seq<Run>, x: Run)
    ensures Entries(rs + [x]) == Entries(rs) + [Entry(x.work, x.tags)]
  {
    if rs == [] {
      assert rs + [x] == [x];
    } else {
      assert (rs + [x])[1..] == rs[1..] + [x];
      EntriesAppend(rs[1..], x);
    }
  }

  /** Every finished run carries the outcome of its own work. */
  predicate OutcomesMatch(rs: seq<Run>)
  {
    rs == [] || ((rs[0].Done? ==> rs[0].ok == rs[0].work.succeeds) && OutcomesMatch(rs[1..]))
  }

  lemma {:induction false} OutcomesAppend(rs: seq<Run>, x: Run)
    requires OutcomesMatch(rs) && !x.Done?
    ensures OutcomesMatch(rs + [x])
  {
    if rs == [] {
      assert rs + [x] == [x];
      assert [x][1..] == [];
    } else {
      assert (rs + [x])[1..] == rs[1..] + [x];
      OutcomesAppend(rs[1..], x);
    }
  }

  /** Every run's work succeeds. */
  predicate AllSucceed(rs: seq<Run>)
  {
    forall i :: 0 <= i < |rs| ==> rs[i].work.succeeds
  }

  /** Once nothing waits or runs, a pool whose finished runs carry their work's outcome is
      successful exactly when every run's work succeeds. */
  lemma {:induction false} SettledSuccess(rs: seq<Run>)
    requires Count(rs, Pending) == 0 && Count(rs, Active) == 0 && OutcomesMatch(rs)
    ensures (forall i :: 0 <= i < |rs| ==> rs[i].Done? && rs[i].ok) <==> AllSucceed(rs)
  {
    if rs != [] {
      SettledSuccess(rs[1..]);
      assert rs == [rs[0]] + rs[1..];
      assert forall i :: 1 <= i < |rs| ==> rs[i] == rs[1..][i - 1];
    }
  }

  /** Work still to be done before a run is finished: a waiting run needs admission and all its
      cycles, a running one its remaining cycles, a finished one nothing. */
  function Weight(r: Run): nat
  {
    match r
    case Waiting(w, _) => w.cycles + 2
    case Running(_, _, left) => left + 1
    case Done(_, _, _) => 0
  }

  /** The total outstanding work of a pool: the measure that every busy poll lowers. */
  function Outstanding(rs: seq<Run>): nat
  {
    if rs == [] then 0 else Weight(rs[0]) + Outstanding(rs[1..])
  }

  /** One poll cycle of one run: a running run progresses, and finishes with its work's outcome
      once no cycle is left; waiting and finished runs are untouched. */
  function Step(r: Run): Run
  {
    match r
    case Running(w, t, left) => if left == 0 then Done(w, t, w.succeeds) else Running(w, t, left - 1)
    case _ => r
  }

  /** Polling every running run once. No run is started, none is forgotten, and each running
      run loses exactly one unit of outstanding work. */
  function Advance(rs: seq<Run>): (r: seq<Run>)
    ensures Entries(r) == Entries(rs)
    ensures Count(r, Pending) == Count(rs, Pending)
    ensures Count(r, Active) <= Count(rs, Active)
    ensures Count(r, Active) + Count(r, Finished) == Count(rs, Active) + Count(rs, Finished)
    ensures Outstanding(r) + Count(rs, Active) == Outstanding(rs)
    ensures Count(rs, Active) == 0 ==> r == rs
    ensures OutcomesMatch(rs) ==> OutcomesMatch(r)
  {
    if rs == [] then [] else [Step(rs[0])] + Advance(rs[1..])
  }

  /** Admission: starts waiting runs in insertion order while `free` slots remain (None: no cap).
      Only waiting runs change, each becomes running, and the number started never exceeds the
      free slots. */
  function Admit(rs: seq<Run>, free: Option<nat>): (r: seq<Run>)
    ensures Entries(r) == Entries(rs)
    ensures Count(r, Finished) == Count(rs, Finished)
    ensures Count(r, Pending) + Count(r, Active) == Count(rs, Pending) + Count(rs, Active)
  {
    if rs == [] then []
    else
      var starts := rs[0].Waiting? && free != Some(0);
      var head := if starts then Running(rs[0].work, rs[0].tags, rs[0].work.cycles) else rs[0];
      var rest := Admit(rs[1..], if starts && free.Some? then Some(free.value - 1) else free);
      assert ([head] + rest)[0] == head && ([head] + rest)[1..] == rest;
      [head] + rest
  }

  /** Admission never stops a running run, and never starts more runs than there are free slots. */
  lemma {:induction false} AdmitWithinFree(rs: seq<Run>, free: Option<nat>)
    ensures Count(rs, Active) <= Count(Admit(rs, free), Active)
    ensures free.Some? ==> Count(Admit(rs, free), Active) <= Count(rs, Active) + free.value
  {
    if rs != [] {
      var starts := rs[0].Waiting? && free != Some(0);
      var free' := if starts && free.Some? then Some(free.value - 1) else free;
      AdmitWithinFree(rs[1..], free');
    }
  }

  /** Admission finishes no run, so finished runs keep their outcomes. */
  lemma {:induction false} AdmitKeepsOutcomes(rs: seq<Run>, free: Option<nat>)
    requires OutcomesMatch(rs)
    ensures OutcomesMatch(Admit(rs, free))
  {
    if rs != [] {
      var starts := rs[0].Waiting? && free != Some(0);
      var free' := if starts && free.Some? then Some(free.value - 1) else free;
      AdmitKeepsOutcomes(rs[1..], free');
    }
  }

  /** Admission leaves a run waiting only when every free slot was used. */
  lemma {:induction false} AdmitFills(rs: seq<Run>, free: Option<nat>)
    ensures Count(Admit(rs, free), Pending) > 0 ==>
              free.Some? && Count(Admit(rs, free), Active) == Count(rs, Active) + free.value
  {
    if rs != [] {
      var starts := rs[0].Waiting? && free != Some(0);
      var free' := if starts && free.Some? then Some(free.value - 1) else free;
      AdmitFills(rs[1..], free');
      AdmitWithinFree(rs[1..], free');
    }
  }

  /** Each run admission starts trades one unit of outstanding work for a running slot. */
  lemma {:induction false} AdmitOutstanding(rs: seq<Run>, free: Option<nat>)
    ensures Outstanding(Admit(rs, free)) + Count(Admit(rs, free), Active) == Outstanding(rs) + Count(rs, Active)
  {
    if rs != [] {
      var starts := rs[0].Waiting? && free != Some(0);
      var free' := if starts && free.Some? then Some(free.value - 1) else free;
      AdmitOutstanding(rs[1..], free');
    }
  }

  /** A Pool, or a PriorityPool when `isPriority` holds. */
  class Pool {
    const isPriority: bool
    /** PriorityPool's cap on simultaneously running runs; None is NO_MAX. */
    const maxSimultaneous: Option<nat>
    const tags: Tags
    /** The event registry the pool gets from EventDispatcherTrait. */
    const events: Events.EventEmitter
    var started: bool
    var runs: seq<Run>

    /** A bounded priority pool never runs more than its cap; nothing runs or finishes before
        the pool starts; a started plain pool has started every run it holds; a finished run
        succeeded exactly when its work did. */
    ghost predicate Valid()
      reads this
    {
      (isPriority && maxSimultaneous.Some? ==>
        1 <= maxSimultaneous.value && Count(runs, Active) <= maxSimultaneous.value) &&
      (!started ==> Count(runs, Active) == 0 && Count(runs, Finished) == 0) &&
      (started && !isPriority ==> Count(runs, Pending) == 0) &&
      OutcomesMatch(runs)
    }

    constructor Plain(tags: Tags, eventNames: set<string>)
      ensures Valid() && fresh(events)
      ensures !isPriority && maxSimultaneous == None && this.tags == tags
      ensures !started && runs == []
      ensures events.eventNames == eventNames && events.eventDispatcher == null
    {
      isPriority := false;
      maxSimultaneous := None;
      this.tags := tags;
      events := new Events.EventEmitter(eventNames);
      started := false;
      runs := [];
    }

    constructor Priority(maxSimultaneous: Option<nat>, tags: Tags, eventNames: set<string>)
      requires maxSimultaneous.Some? ==> 1 <= maxSimultaneous.value
      ensures Valid() && fresh(events)
      ensures isPriority && this.maxSimultaneous == maxSimultaneous && this.tags == tags
      ensures !started && runs == []
      ensures events.eventNames == eventNames && events.eventDispatcher == null
    {
      isPriority := true;
      this.maxSimultaneous := maxSimultaneous;
      this.tags := tags;
      events := new Events.EventEmitter(eventNames);
      started := false;
      runs := [];
    }

    /** PriorityPool with a finite cap. */
    predicate Bounded()
    {
      isPriority && maxSimultaneous.Some?
    }

    /** The slots free for admission when the runs are `rs`. */
    function Free(rs: seq<Run>): Option<nat>
    {
      if Bounded() then
        Some(if Count(rs, Active) <= maxSimultaneous.value then maxSimultaneous.value - Count(rs, Active) else 0)
      else None
    }

    /** The runs after one poll cycle: every running run progresses; a PriorityPool then admits
        waiting runs into the free slots. */
    function Polled(): seq<Run>
      reads this
    {
      var advanced := Advance(runs);
      if isPriority then Admit(advanced, Free(advanced)) else advanced
    }

    /** The backpressure test of GeneratorPool.poll: a bounded PriorityPool holding fewer
        waiting runs than its cap. */
    predicate BelowCapacity()
      reads this
    {
      Bounded() && Count(runs, Pending) < maxSimultaneous.value
    }

    /** What a `false` from poll guarantees: nothing runs, and a PriorityPool has nothing waiting. */
    predicate Quiet()
      reads this
    {
      Count(runs, Active) == 0 && (isPriority ==> Count(runs, Pending) == 0)
    }

    /** Every admitted run has finished. */
    predicate Settled()
      reads this
    {
      Count(runs, Pending) == 0 && Count(runs, Active) == 0
    }

    predicate IsRunning()
      reads this
    {
      started && !Settled()
    }

    /** Started, and every run finished successfully (vacuously so with no runs). */
    predicate IsSuccessful()
      reads this
    {
      started && forall i :: 0 <= i < |runs| ==> runs[i].Done? && runs[i].ok
    }

    /** add: a run is admitted as waiting (a plain pool that already started starts it at once)
        and the pool is returned for chaining; anything else is rejected and nothing changes. */
    method Add(item: Item, tags: Tags) returns (r: Result<object>)
      requires Valid()
      modifies this
      ensures Valid()
      ensures started == old(started)
      ensures item.Runnable? ==> r == Ok(this) && runs == old(runs) + [
                if started && !isPriority then Running(item.work, tags, item.work.cycles)
                else Waiting(item.work, tags)]
      ensures !item.Runnable? ==> r == Err(InvalidArgument) && unchanged(this)
      ensures Entries(runs) == old(Entries(runs)) + (if item.Runnable? then [Entry(item.work, tags)] else [])
    {
      if !item.Runnable? {
        return Err(InvalidArgument);
      }
      var run := if started && !isPriority then Running(item.work, tags, item.work.cycles)
                 else Waiting(item.work, tags);
      forall p: Phase {
        CountAppend(runs, run, p);
      }
      EntriesAppend(runs, run);
      OutcomesAppend(runs, run);
      runs := runs + [run];
      r := Ok(this);
    }

    /** start: refused on a started pool; otherwise admits waiting runs (all of them in a plain
        pool, up to the cap in a PriorityPool) and marks the pool started. */
    method Start() returns (r: Result<object>)
      requires Valid()
      modifies this
      ensures Valid()
      ensures old(started) ==> r == Err(AlreadyStarted) && runs == old(runs) && started
      ensures !old(started) ==> r == Ok(this) && started && runs == Admit(old(runs), Free(old(runs)))
      ensures Entries(runs) == old(Entries(runs))
    {
      if started {
        return Err(AlreadyStarted);
      }
      AdmitFills(runs, Free(runs));
      AdmitWithinFree(runs, Free(runs));
      AdmitOutstanding(runs, Free(runs));
      AdmitKeepsOutcomes(runs, Free(runs));
      runs := Admit(runs, Free(runs));
      started := true;
      r := Ok(this);
    }

    /** poll: one poll cycle. Returns whether a run is still running; a `true` always comes with
        less outstanding work, so polling until `false` terminates. */
    method Poll() returns (busy: bool)
      requires Valid()
      modifies this
      ensures Valid()
      ensures runs == old(Polled())
      ensures started == (old(started) || isPriority)
      ensures Entries(runs) == old(Entries(runs))
      ensures busy == (Count(runs, Active) > 0)
      ensures Outstanding(runs) <= old(Outstanding(runs))
      ensures busy ==> Outstanding(runs) < old(Outstanding(runs))
      ensures !busy ==> Quiet()
    {
      var advanced := Advance(runs);
      if isPriority {
        AdmitFills(advanced, Free(advanced));
        AdmitWithinFree(advanced, Free(advanced));
        AdmitOutstanding(advanced, Free(advanced));
        AdmitKeepsOutcomes(advanced, Free(advanced));
        runs := Admit(advanced, Free(advanced));
        started := true;
      } else {
        runs := advanced;
      }
      busy := Count(runs, Active) > 0;
    }

    /** addListener, from EventDispatcherTrait: guarded registration; returns the pool. */
    method AddListener(name: string, handler: Events.Handler) returns (r: Result<object>)
      modifies events, events.eventDispatcher
      ensures r.Ok? <==> name in events.eventNames
      ensures r.Ok? ==> r.value == this
      ensures r.Err? ==> r.error == InvalidArgument && events.Listeners() == old(events.Listeners())
      ensures r.Ok? ==> events.Listeners() == Events.WithListener(old(events.Listeners()), name, handler)
    {
      var added := events.AddListener(name, handler);
      if added.Fail? {
        return Err(added.error);
      }
      r := Ok(this);
    }
  }
}
