/** Every interleaving of sends, timers, retries, ends and any number of close() calls with their timeouts. */
module EmailShutdown {
  import opened Wrappers
  import opened EmailQueue

  /** What a close() call has come to: its drain goes on also after its time is over. */
  datatype Answer = Pending | Done | Late

  /** A drain waits for a snapshot of running tasks, or is finished; `answers` are the calls that began them. */
  datatype Machine = Machine(queue: Queue, drains: seq<Option<set<nat>>>, answers: seq<Answer>)

  datatype Event =
    | Send(retries: nat) | Fire(t: nat) | Again(t: nat) | End(t: nat)
    | Close(timeout: int) | Wake(d: nat) | Expire(d: nat)

  const START := Machine(EMPTY, [], [])

  predicate Enabled(m: Machine, e: Event) {
    match e
    case Send(_) => m.queue.accepting
    case Fire(t) => t in m.queue.armed
    case Again(t) => MayRetry(m.queue, t)
    case End(t) => t in m.queue.active
    case Close(_) => true
    case Wake(d) => d < |m.drains| && m.drains[d].Some? && m.drains[d].value !! m.queue.active
    case Expire(d) =>
      && d < |m.drains| && d < |m.answers| && m.answers[d] == Pending
      && m.drains[d].Some? && !(m.drains[d].value !! m.queue.active)
  }

  /** One turn of a drain's loop, up to its next wait. */
  function Turn(q: Queue): (Queue, Option<set<nat>>) {
    if q.scheduled == {} && q.active == {} then (q, None)
    else var p := StartAll(q); (p, Some(p.active))
  }

  function Step(m: Machine, e: Event): Machine
    requires Enabled(m, e)
  {
    match e
    case Send(retries) => m.(queue := Schedule(m.queue, retries))
    case Fire(t) => m.(queue := Start(m.queue, t))
    case Again(t) => m.(queue := Retry(m.queue, t))
    case End(t) => m.(queue := Settle(m.queue, t))
    case Close(timeout) =>
      if !ValidTimeout(timeout) then m
      else
        var (q, wait) := Turn(m.queue.(accepting := false));
        Machine(q, m.drains + [wait], m.answers + [if wait.None? then Done else Pending])
    case Wake(d) =>
      var (q, wait) := Turn(m.queue);
      Machine(q, m.drains[d := wait], if wait.None? then Told(m.answers, d) else m.answers)
    case Expire(d) => m.(answers := m.answers[d := Late])
  }

  /** A finished drain answers its call, unless the call has been answered. */
  function Told(answers: seq<Answer>, d: nat): seq<Answer> {
    if d < |answers| && answers[d] == Pending then answers[d := Done] else answers
  }

  /** A run of events, none of which is out of turn. */
  ghost predicate Leads(m: Machine, events: seq<Event>, n: Machine)
    decreases |events|
  {
    if events == [] then m == n
    else Enabled(m, events[0]) && Leads(Step(m, events[0]), events[1..], n)
  }

  /** A drain has begun only once nothing is accepted, and one that is finished left nothing behind. */
  ghost predicate Orderly(m: Machine) {
    && Valid(m.queue)
    && (m.drains != [] ==> !m.queue.accepting)
    && (None in m.drains ==> m.queue.scheduled == {} && m.queue.active == {})
    && |m.answers| == |m.drains|
    && (forall d :: 0 <= d < |m.drains| && m.answers[d] == Done ==> m.drains[d] == None)
    && (forall d :: 0 <= d < |m.drains| && m.answers[d] == Pending ==> m.drains[d].Some?)
  }

  lemma TurnIs(q: Queue)
    requires Valid(q)
    ensures var (p, wait) := Turn(q);
      && Valid(p) && p.accepting == q.accepting && p.scheduled == {} && Weight(p) <= Weight(q)
      && (wait == None ==> p == q && p.active == {})
      && (wait.Some? ==> wait.value == p.active && p.active != {})
      && (q.scheduled == {} && q.active == {} ==> wait == None)
  {
    StartAllIs(q);
    StartBelowCosts(q, |q.budget|);
  }

  lemma StepIsOrderly(m: Machine, e: Event)
    requires Orderly(m) && Enabled(m, e)
    ensures Orderly(Step(m, e))
  {
    hide StartAll, Weight, Turn;
    match e
    case Send(retries) => ScheduleKeepsValid(m.queue, retries);
    case Fire(t) => StartKeepsValid(m.queue, t);
    case Again(t) => RetryKeepsValid(m.queue, t);
    case End(t) =>
    case Close(_) => TurnIs(m.queue.(accepting := false));
    case Wake(d) => TurnIs(m.queue);
    case Expire(_) =>
  }

  lemma {:induction false} RunIsOrderly(m: Machine, events: seq<Event>, n: Machine)
    requires Orderly(m) && Leads(m, events, n)
    ensures Orderly(n)
    decreases |events|
  {
    if events != [] {
      StepIsOrderly(m, events[0]);
      RunIsOrderly(Step(m, events[0]), events[1..], n);
    }
  }

  lemma StartIsOrderly()
    ensures Orderly(START)
  {
  }

  /**
   * In every reachable state each task ever scheduled either still waits, with
   * its timer live, or has been started exactly once, by that timer or by a
   * drain.
   */
  lemma StartedExactlyOnce(events: seq<Event>, m: Machine, t: nat)
    requires Leads(START, events, m) && t < |m.queue.budget|
    ensures t in m.queue.scheduled <==> t in m.queue.armed
    ensures Times(m.queue.started, t) == if t in m.queue.scheduled then 0 else 1
  {
    StartIsOrderly();
    RunIsOrderly(START, events, m);
  }

  /** Once one drain is finished nothing waits, runs or can ever start again. */
  lemma {:induction false} DrainedForGood(m: Machine, events: seq<Event>, n: Machine)
    requires Orderly(m) && None in m.drains && Leads(m, events, n)
    ensures n.queue == m.queue && n.queue.scheduled == {} && n.queue.active == {}
    ensures None in n.drains
    decreases |events|
  {
    if events != [] {
      var e := events[0];
      StepIsOrderly(m, e);
      DrainedStep(m, e);
      DrainedForGood(Step(m, e), events[1..], n);
    }
  }

  lemma DrainedStep(m: Machine, e: Event)
    requires Orderly(m) && None in m.drains && Enabled(m, e)
    ensures Step(m, e).queue == m.queue && None in Step(m, e).drains
  {
    var i :| 0 <= i < |m.drains| && m.drains[i] == None;
    match e
    case Close(_) =>
      assert m.queue.(accepting := false) == m.queue;
      assert Step(m, e).drains[i] == None;
    case Wake(d) =>
      assert Step(m, e).drains[d] == None;
    case _ =>
  }

  /** What one event makes of the answer to a call. */
  lemma AnswerStays(m: Machine, e: Event, d: nat)
    requires Orderly(m) && Enabled(m, e) && d < |m.answers| && m.answers[d] != Pending
    ensures d < |Step(m, e).answers| && Step(m, e).answers[d] == m.answers[d]
  {
    hide Turn;
  }

  /**
   * A call that has been answered stays so. One that was told its drain is done
   * leaves nothing waiting or running for good; one whose time was over met a
   * task of its drain still running, and its drain goes on.
   */
  lemma {:induction false} AnswersAreFinal(m: Machine, events: seq<Event>, n: Machine, d: nat)
    requires Orderly(m) && Leads(m, events, n) && d < |m.answers| && m.answers[d] != Pending
    ensures d < |n.answers| && n.answers[d] == m.answers[d]
    ensures m.answers[d] == Done ==> n.queue == m.queue && n.queue.scheduled == {} && n.queue.active == {}
    decreases |events|
  {
    if m.answers[d] == Done {
      assert m.drains[d] == None;
      DrainedForGood(m, events, n);
    }
    if events != [] {
      StepIsOrderly(m, events[0]);
      AnswerStays(m, events[0], d);
      AnswersAreFinal(Step(m, events[0]), events[1..], n, d);
    }
  }

  lemma LateMetRunning(m: Machine, e: Event, d: nat)
    requires Orderly(m) && Enabled(m, e) && d < |m.answers| && m.answers[d] != Late
    requires d < |Step(m, e).answers| && Step(m, e).answers[d] == Late
    ensures e == Expire(d) && m.queue.active != {} && Step(m, e).queue == m.queue && Step(m, e).drains == m.drains
  {
    hide Turn;
  }

  // ---- the drains come to an end -----------------------------------------------------------

  /** Drains whose snapshot has come to its end. */
  function Ready(drains: seq<Option<set<nat>>>, active: set<nat>): nat {
    if drains == [] then 0
    else
      var n := |drains| - 1;
      Ready(drains[..n], active) + if drains[n].Some? && drains[n].value !! active then 1 else 0
  }

  /** Calls still to be answered. */
  function Open(answers: seq<Answer>): nat {
    if answers == [] then 0
    else Open(answers[..|answers| - 1]) + if answers[|answers| - 1] == Pending then 1 else 0
  }

  lemma {:induction false} OpenAnswered(answers: seq<Answer>, d: nat, a: Answer)
    requires d < |answers| && answers[d] == Pending && a != Pending
    ensures Open(answers[d := a]) == Open(answers) - 1
  {
    var n := |answers| - 1;
    if d == n {
      assert answers[d := a][..n] == answers[..n];
    } else {
      assert answers[d := a][..n] == answers[..n][d := a];
      OpenAnswered(answers[..n], d, a);
    }
  }

  lemma ToldIsNoMore(answers: seq<Answer>, d: nat)
    ensures Open(Told(answers, d)) <= Open(answers)
  {
    if d < |answers| && answers[d] == Pending {
      OpenAnswered(answers, d, Done);
    }
  }

  /** An upper bound on the events still to come while nobody closes again. */
  function Potential(m: Machine): nat {
    Weight(m.queue) * (|m.drains| + 1) + Ready(m.drains, m.queue.active) + Open(m.answers)
  }

  lemma {:induction false} ReadyBound(drains: seq<Option<set<nat>>>, active: set<nat>)
    ensures Ready(drains, active) <= |drains|
  {
    if drains != [] {
      ReadyBound(drains[..|drains| - 1], active);
    }
  }

  /** More running tasks make no drain ready. */
  lemma {:induction false} ReadyShrinks(drains: seq<Option<set<nat>>>, less: set<nat>, more: set<nat>)
    requires less <= more
    ensures Ready(drains, more) <= Ready(drains, less)
  {
    if drains != [] {
      ReadyShrinks(drains[..|drains| - 1], less, more);
    }
  }

  lemma {:induction false} ReadySpent(drains: seq<Option<set<nat>>>, d: nat, wait: Option<set<nat>>, active: set<nat>)
    requires d < |drains| && drains[d].Some? && drains[d].value !! active
    requires wait.Some? ==> !(wait.value !! active)
    ensures Ready(drains[d := wait], active) == Ready(drains, active) - 1
  {
    var n := |drains| - 1;
    if d == n {
      assert drains[d := wait][..n] == drains[..n];
    } else {
      assert drains[d := wait][..n] == drains[..n][d := wait];
      ReadySpent(drains[..n], d, wait, active);
    }
  }

  lemma LighterByOne(less: nat, more: nat, k: nat)
    requires less < more
    ensures less * (k + 1) + k + 1 <= more * (k + 1)
  {
    var extra, times := more - less - 1, k + 1;
    assert (less + 1 + extra) * times == less * times + times + extra * times;
  }

  lemma NoHeavier(less: nat, more: nat, k: nat)
    requires less <= more
    ensures less * k <= more * k
  {
  }

  lemma StepCosts(m: Machine, e: Event)
    requires Orderly(m) && m.drains != [] && Enabled(m, e) && !e.Close?
    ensures Potential(Step(m, e)) < Potential(m) && Step(m, e).drains != []
  {
    hide Weight, Ready, Open, StartAll, Turn;
    var n := Step(m, e);
    var k := |m.drains|;
    match e
    case Fire(t) =>
      StartCosts(m.queue, t);
      LighterByOne(Weight(n.queue), Weight(m.queue), k);
      ReadyShrinks(m.drains, m.queue.active, n.queue.active);
    case Again(t) =>
      RetryCosts(m.queue, t);
      LighterByOne(Weight(n.queue), Weight(m.queue), k);
    case End(t) =>
      SettleCosts(m.queue, t);
      LighterByOne(Weight(n.queue), Weight(m.queue), k);
      ReadyBound(m.drains, n.queue.active);
    case Wake(d) =>
      TurnIs(m.queue);
      StartAllIs(m.queue);
      WakeCosts(m, d);
    case Expire(d) => OpenAnswered(m.answers, d, Late);
  }

  lemma WakeCosts(m: Machine, d: nat)
    requires Orderly(m) && Enabled(m, Wake(d))
    ensures Potential(Step(m, Wake(d))) < Potential(m)
  {
    hide Weight, Ready, Open, StartAll, Told;
    var n := Step(m, Wake(d));
    ToldIsNoMore(m.answers, d);
    TurnIs(m.queue);
    StartAllIs(m.queue);
    NoHeavier(Weight(n.queue), Weight(m.queue), |m.drains| + 1);
    ReadyShrinks(m.drains, m.queue.active, n.queue.active);
    if m.drains[d].value !! n.queue.active {
      ReadySpent(m.drains, d, n.drains[d], n.queue.active);
    } else {
      ReadyWakes(m.drains, d, n.drains[d], m.queue.active, n.queue.active);
    }
  }

  /** A drain that starts tasks is ready no more. */
  lemma {:induction false} ReadyWakes(
      drains: seq<Option<set<nat>>>, d: nat, wait: Option<set<nat>>, less: set<nat>, more: set<nat>)
    requires d < |drains| && drains[d].Some? && drains[d].value !! less && less <= more
    requires wait.Some? ==> !(wait.value !! more)
    ensures Ready(drains[d := wait], more) < Ready(drains, less)
  {
    var n := |drains| - 1;
    if d == n {
      assert drains[d := wait][..n] == drains[..n];
      ReadyShrinks(drains[..n], less, more);
    } else {
      assert drains[d := wait][..n] == drains[..n][d := wait];
      ReadyWakes(drains[..n], d, wait, less, more);
    }
  }

  /** After a close, at most so many events can happen before somebody closes again. */
  lemma {:induction false} DrainsEnd(m: Machine, events: seq<Event>, n: Machine)
    requires Orderly(m) && m.drains != [] && Leads(m, events, n)
    requires forall e :: e in events ==> !e.Close?
    ensures |events| + Potential(n) <= Potential(m)
    decreases |events|
  {
    if events != [] {
      var e := events[0];
      assert e in events;
      StepIsOrderly(m, e);
      StepCosts(m, e);
      assert forall x :: x in events[1..] ==> x in events;
      DrainsEnd(Step(m, e), events[1..], n);
    }
  }

  /** Where nothing but another close can happen, every drain is finished and nothing is left. */
  lemma StuckMeansDrained(m: Machine)
    requires Orderly(m) && m.drains != []
    requires forall e: Event :: !e.Close? ==> !Enabled(m, e)
    ensures m.queue.scheduled == {} && m.queue.active == {}
    ensures forall d :: 0 <= d < |m.drains| ==> m.drains[d] == None && m.answers[d] != Pending
  {
    hide Valid;
    ArmedAreScheduled(m.queue);
    forall t: nat ensures t !in m.queue.armed && t !in m.queue.active {
      assert !Enabled(m, Fire(t)) && !Enabled(m, End(t));
    }
    assert m.queue.armed == {} && m.queue.active == {};
    forall d: nat | d < |m.drains| ensures m.drains[d] == None {
      assert !Enabled(m, Wake(d));
    }
  }

  lemma ArmedAreScheduled(q: Queue)
    requires Valid(q)
    ensures q.armed == q.scheduled
  {
  }
}
