/**
 * The in-process mail queue: timers that start delivery tasks, retries those
 * tasks schedule, and the drain that close() runs. A task is a number in the
 * order it was scheduled in.
 */
module EmailQueue {
  import opened Wrappers

  /**
   * `budget[t]` is how many retries task t may still lead to. `armed` are the
   * live timers, `spent` the running tasks that have scheduled their retry, and
   * `started` lists every start there ever was.
   */
  datatype Queue = Queue(
    budget: seq<nat>,
    scheduled: set<nat>,
    armed: set<nat>,
    active: set<nat>,
    spent: set<nat>,
    accepting: bool,
    started: seq<nat>)

  const EMPTY := Queue([], {}, {}, {}, {}, true, [])

  /** Why a close() call rejects. The drain it has begun goes on when its time is over. */
  datatype Problem = BadTimeout | TimedOut

  predicate ValidTimeout(timeout: int) { 1 <= timeout <= 9007199254740991 }

  function Times(s: seq<nat>, t: nat): nat { multiset(s)[t] }

  /** A task waits with a live timer, or was started exactly once; it runs only if it was started. */
  ghost predicate Valid(q: Queue) {
    && q.armed == q.scheduled
    && q.active !! q.scheduled && q.spent <= q.active
    && (forall t :: t in q.scheduled ==> t < |q.budget|)
    && (forall t :: t in q.active ==> t < |q.budget|)
    && (forall t :: t in q.spent ==> q.budget[t] > 0)
    && (forall t: nat :: Times(q.started, t) == if t < |q.budget| && t !in q.scheduled then 1 else 0)
  }

  // ---- the steps -------------------------------------------------------------------------

  /** A new timer. */
  function Schedule(q: Queue, budget: nat): Queue {
    q.(budget := q.budget + [budget], scheduled := q.scheduled + {|q.budget|}, armed := q.armed + {|q.budget|})
  }

  /** Starting a task takes it off the waiting list, its timer included. */
  function Start(q: Queue, t: nat): Queue {
    q.(scheduled := q.scheduled - {t}, armed := q.armed - {t}, active := q.active + {t}, started := q.started + [t])
  }

  function StartBelow(q: Queue, n: nat, waiting: set<nat>): Queue {
    if n == 0 then q
    else
      var before := StartBelow(q, n - 1, waiting);
      if n - 1 in waiting then Start(before, n - 1) else before
  }

  /** One pass of the drain: everything that waits is started, oldest first. */
  function StartAll(q: Queue): Queue { StartBelow(q, |q.budget|, q.scheduled) }

  function Settle(q: Queue, t: nat): Queue { q.(active := q.active - {t}, spent := q.spent - {t}) }

  function Retry(q: Queue, t: nat): Queue
    requires t < |q.budget| && q.budget[t] > 0
  {
    Schedule(q.(spent := q.spent + {t}), q.budget[t] - 1)
  }

  predicate MayRetry(q: Queue, t: nat) { t in q.active && t !in q.spent && t < |q.budget| && q.budget[t] > 0 }

  lemma StartKeepsValid(q: Queue, t: nat)
    requires Valid(q) && t in q.scheduled
    ensures Valid(Start(q, t))
  {
    forall u: nat ensures Times(q.started + [t], u) == Times(q.started, u) + if u == t then 1 else 0 {
    }
  }

  lemma ScheduleKeepsValid(q: Queue, budget: nat)
    requires Valid(q)
    ensures Valid(Schedule(q, budget))
  {
  }

  lemma RetryKeepsValid(q: Queue, t: nat)
    requires Valid(q) && MayRetry(q, t)
    ensures Valid(Retry(q, t))
  {
    var spent := q.(spent := q.spent + {t});
    assert Valid(spent);
    ScheduleKeepsValid(spent, q.budget[t] - 1);
  }

  /** After the oldest n tasks of a pass. */
  lemma {:induction false} StartBelowIs(q: Queue, n: nat)
    requires Valid(q)
    ensures var p := StartBelow(q, n, q.scheduled);
      && Valid(p) && p.budget == q.budget && p.accepting == q.accepting && p.spent == q.spent
      && (forall t :: t in p.scheduled <==> t in q.scheduled && n <= t)
      && (forall t :: t in p.active <==> t in q.active || (t in q.scheduled && t < n))
      && |p.started| >= |q.started| && p.started[..|q.started|] == q.started
  {
    if n > 0 {
      StartBelowIs(q, n - 1);
      hide Valid;
      var before := StartBelow(q, n - 1, q.scheduled);
      if n - 1 in q.scheduled {
        StartKeepsValid(before, n - 1);
      }
    }
  }

  lemma StartAllIs(q: Queue)
    requires Valid(q)
    ensures var p := StartAll(q);
      && Valid(p) && p.budget == q.budget && p.accepting == q.accepting && p.spent == q.spent
      && p.scheduled == {} && p.active == q.active + q.scheduled
      && |p.started| >= |q.started| && p.started[..|q.started|] == q.started
  {
    StartBelowIs(q, |q.budget|);
    var p := StartAll(q);
    assert forall t :: t in p.scheduled ==> t in q.scheduled && |q.budget| <= t;
    assert p.scheduled == {};
    assert forall t :: t in p.active <==> t in q.active + q.scheduled;
  }

  // ---- how much is left to happen ----------------------------------------------------------

  /** The most events one task can still take part in. */
  function TaskWeight(q: Queue, t: nat): nat
    requires t < |q.budget|
  {
    if t in q.scheduled then 3 * q.budget[t] + 3
    else if t in q.spent then 1
    else if t in q.active then 3 * q.budget[t] + 2
    else 0
  }

  function WeightBelow(q: Queue, n: nat): nat
    requires n <= |q.budget|
  {
    if n == 0 then 0 else WeightBelow(q, n - 1) + TaskWeight(q, n - 1)
  }

  function Weight(q: Queue): nat { WeightBelow(q, |q.budget|) }

  /** Two queues that differ in one task differ in weight by that task's. */
  lemma {:induction false} WeightDiffers(q: Queue, p: Queue, t: nat, n: nat)
    requires n <= |q.budget| && n <= |p.budget|
    requires forall u :: 0 <= u < n && u != t ==> TaskWeight(q, u) == TaskWeight(p, u)
    ensures t < n ==> WeightBelow(q, n) - TaskWeight(q, t) == WeightBelow(p, n) - TaskWeight(p, t)
    ensures t >= n ==> WeightBelow(q, n) == WeightBelow(p, n)
  {
    if n > 0 {
      WeightDiffers(q, p, t, n - 1);
    }
  }

  lemma StartCosts(q: Queue, t: nat)
    requires Valid(q) && t in q.scheduled
    ensures Weight(Start(q, t)) == Weight(q) - 1
  {
    var p := Start(q, t);
    assert TaskWeight(q, t) == 3 * q.budget[t] + 3 && TaskWeight(p, t) == 3 * q.budget[t] + 2;
    WeightDiffers(q, p, t, |q.budget|);
  }

  lemma SettleCosts(q: Queue, t: nat)
    requires Valid(q) && t in q.active
    ensures Valid(Settle(q, t)) && Weight(Settle(q, t)) < Weight(q)
  {
    var p := Settle(q, t);
    assert TaskWeight(q, t) > 0 && TaskWeight(p, t) == 0;
    WeightDiffers(q, p, t, |q.budget|);
  }

  lemma RetryCosts(q: Queue, t: nat)
    requires Valid(q) && MayRetry(q, t)
    ensures Weight(Retry(q, t)) == Weight(q) - 1
  {
    var p := Retry(q, t);
    assert p.budget[..|q.budget|] == q.budget;
    WeightDiffers(q, p, t, |q.budget|);
    assert TaskWeight(p, |q.budget|) == 3 * q.budget[t];
  }

  lemma {:induction false} StartBelowCosts(q: Queue, n: nat)
    requires Valid(q)
    ensures Weight(StartBelow(q, n, q.scheduled)) <= Weight(q)
  {
    if n > 0 {
      StartBelowCosts(q, n - 1);
      StartBelowIs(q, n - 1);
      if n - 1 in q.scheduled {
        StartCosts(StartBelow(q, n - 1, q.scheduled), n - 1);
      }
    }
  }

  // ---- the queue object --------------------------------------------------------------------

  class ContainerEmailQueue {
    var budget: seq<nat>
    var scheduled: set<nat>
    var armed: set<nat>
    var active: set<nat>
    var spent: set<nat>
    var accepting: bool
    var started: seq<nat>

    ghost function State(): Queue
      reads this
    {
      Queue(budget, scheduled, armed, active, spent, accepting, started)
    }

    constructor ()
      ensures State() == EMPTY && Valid(State())
    {
      budget, scheduled, armed, active, spent, accepting, started := [], {}, {}, {}, {}, true, [];
    }

    /** The scheduler: a new timer for a task. */
    method ScheduleTask(retries: nat)
      modifies this
      ensures State() == Schedule(old(State()), retries)
    {
      var t := |budget|;
      budget := budget + [retries];
      armed := armed + {t};
      scheduled := scheduled + {t};
    }

    method Run(t: nat)
      modifies this`active, this`started
      ensures active == old(active) + {t} && started == old(started) + [t]
    {
      started := started + [t];
      active := active + {t};
    }

    method Send(retries: nat) returns (ok: bool)
      requires Valid(State())
      modifies this
      ensures ok == old(accepting) && Valid(State())
      ensures State() == if ok then Schedule(old(State()), retries) else old(State())
    {
      ScheduleKeepsValid(State(), retries);
      if !accepting { return false; }
      ScheduleTask(retries);
      return true;
    }

    /** A timer goes off: its task is started and no longer waits. */
    method TimerFires(t: nat)
      requires Valid(State()) && t in armed
      modifies this
      ensures Valid(State()) && State() == Start(old(State()), t)
      ensures Weight(State()) < Weight(old(State()))
    {
      StartKeepsValid(State(), t);
      StartCosts(State(), t);
      armed := armed - {t};
      scheduled := scheduled - {t};
      Run(t);
    }

    /** A running task schedules its retry. */
    method TaskRetries(t: nat)
      requires Valid(State()) && MayRetry(State(), t)
      modifies this
      ensures Valid(State()) && State() == Retry(old(State()), t)
      ensures Weight(State()) < Weight(old(State()))
    {
      RetryKeepsValid(State(), t);
      RetryCosts(State(), t);
      spent := spent + {t};
      ScheduleTask(budget[t] - 1);
    }

    /** A running task comes to its end, well or badly. */
    method TaskSettles(t: nat)
      requires Valid(State()) && t in active
      modifies this
      ensures Valid(State()) && State() == Settle(old(State()), t)
      ensures Weight(State()) < Weight(old(State()))
    {
      SettleCosts(State(), t);
      active := active - {t};
      spent := spent - {t};
    }

    /** The pass over a copy of the waiting tasks. */
    method StartWaiting()
      requires Valid(State())
      modifies this
      ensures State() == StartAll(old(State()))
    {
      var copy := scheduled;
      ghost var before := State();
      for t := 0 to |budget|
        invariant State() == StartBelow(before, t, copy)
        invariant |budget| == |before.budget|
      {
        StartBelowIs(before, t);
        if t in copy {
          armed := armed - {t};
          scheduled := scheduled - {t};
          Run(t);
        }
      }
    }

    /** Something else happens while the drain waits: a timer, a retry, or an end. */
    method OtherTurn()
      requires Valid(State()) && active != {}
      modifies this
      ensures Valid(State()) && accepting == old(accepting)
      ensures Weight(State()) < Weight(old(State()))
      ensures old(started) <= started
    {
      var t: nat :| t in active;
      if * {
        var u: nat := *;
        if u in armed {
          TimerFires(u);
          return;
        }
      }
      if * {
        var u: nat := *;
        if u in active && u !in spent && u < |budget| && budget[u] > 0 {
          TaskRetries(u);
          return;
        }
      }
      TaskSettles(t);
    }

    /** Waiting for every task of a snapshot, whatever else happens meanwhile, unless the time is over first. */
    method AwaitAll(snapshot: set<nat>) returns (inTime: bool)
      requires Valid(State())
      modifies this
      ensures Valid(State()) && accepting == old(accepting)
      ensures inTime <==> snapshot !! active
      ensures Weight(State()) <= Weight(old(State()))
      ensures inTime && !(snapshot !! old(active)) ==> Weight(State()) < Weight(old(State()))
      ensures old(started) <= started
    {
      while !(snapshot !! active)
        invariant Valid(State()) && accepting == old(accepting)
        invariant Weight(State()) <= Weight(old(State()))
        invariant State() == old(State()) || Weight(State()) < Weight(old(State()))
        invariant old(started) <= started
        decreases Weight(State())
      {
        if * { return false; }
        OtherTurn();
      }
      return true;
    }

    /**
     * Closing: nothing new is accepted and the drain goes round until nothing
     * waits and nothing runs, however its waits interleave, or until the time is
     * over while a task still runs. A timeout that is none changes nothing.
     */
    method Close(timeout: int) returns (problem: Option<Problem>)
      requires Valid(State())
      modifies this
      ensures Valid(State()) && old(started) <= started
      ensures problem == Some(BadTimeout) <==> !ValidTimeout(timeout)
      ensures problem == Some(BadTimeout) ==> State() == old(State())
      ensures problem != Some(BadTimeout) ==> !accepting
      ensures problem == Some(TimedOut) ==> active != {}
      ensures problem == None ==>
        && scheduled == {} && active == {} && armed == {}
        && forall t: nat :: Times(started, t) == if t < |budget| then 1 else 0
    {
      if !ValidTimeout(timeout) { return Some(BadTimeout); }
      accepting := false;
      while scheduled != {} || active != {}
        invariant Valid(State()) && !accepting
        invariant old(started) <= started
        decreases Weight(State())
      {
        StartAllIs(State());
        StartBelowCosts(State(), |budget|);
        StartWaiting();
        if active != {} {
          var inTime := AwaitAll(active);
          if !inTime { return Some(TimedOut); }
        }
      }
      return None;
    }
  }
}
