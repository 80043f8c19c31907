/**
 * The outbox poller: one drain at a time, joined by whoever asks meanwhile,
 * and a close() that waits for it. A drain is a number.
 */
module OutboxScheduler {
  import opened Wrappers

  /** `running` are the drains in flight; `next` names the next one. */
  datatype State = State(timer: bool, active: Option<nat>, closed: bool, running: set<nat>, next: nat)

  datatype Closed = Closed

  /** Why a close() call rejects: its timeout is no timeout, it has passed, or the drain it waited for failed. */
  datatype Problem = BadTimeout | TimedOut | DrainFailed

  predicate ValidTimeout(timeout: int) { 1 <= timeout <= 300000 }

  const IDLE := State(false, None, false, {}, 0)

  /** The guarded fields agree with what is really in flight. */
  ghost predicate Valid(s: State) {
    && s.running == (match s.active case None => {} case Some(d) => {d})
    && (s.active.Some? ==> s.active.value < s.next)
    && (s.closed ==> !s.timer)
  }

  /** drain(): refused when closed, joined when one is active, begun otherwise. */
  function Drain(s: State): (State, Result<nat, Closed>) {
    if s.closed then (s, Refused(Closed.Closed))
    else if s.active.Some? then (s, Ok(s.active.value))
    else (s.(active := Some(s.next), running := s.running + {s.next}, next := s.next + 1), Ok(s.next))
  }

  /** start(): the timer, and a first drain. */
  function Start(s: State): State {
    if s.closed || s.timer then s else Drain(s.(timer := true)).0
  }

  /** A drain in flight comes to its end. */
  function Settle(s: State, d: nat): State {
    s.(running := s.running - {d}, active := if s.active == Some(d) then None else s.active)
  }

  /** A close() call: waiting for a drain, or ended; `first` if it found the scheduler open. */
  datatype Closer = Waiting(drain: nat) | Ended(first: bool, problem: Option<Problem>)

  /** close() up to its wait. The timeout is looked at only where there is a drain to wait for. */
  function Close(s: State, timeout: int): (State, Closer) {
    if s.closed then (s, Ended(false, None))
    else
      var shut := s.(closed := true, timer := false);
      if s.active.None? then (shut, Ended(true, None))
      else if !ValidTimeout(timeout) then (shut, Ended(true, Some(BadTimeout)))
      else (shut, Waiting(s.active.value))
  }

  class ContainerOutboxScheduler {
    var timer: bool
    var active: Option<nat>
    var closed: bool
    var running: set<nat>
    var next: nat

    ghost function Fields(): State
      reads this
    {
      State(timer, active, closed, running, next)
    }

    constructor ()
      ensures Fields() == IDLE && Valid(Fields())
    {
      timer, active, closed, running, next := false, None, false, {}, 0;
    }

    method DrainOnce() returns (r: Result<nat, Closed>)
      requires Valid(Fields())
      modifies this
      ensures Valid(Fields()) && (Fields(), r) == Drain(old(Fields()))
      ensures r.Ok? ==> running == {r.value} && active == Some(r.value)
      ensures old(active).Some? ==> Fields() == old(Fields())
    {
      if closed { return Refused(Closed.Closed); }
      if active.Some? { return Ok(active.value); }
      var d := next;
      next := next + 1;
      running := running + {d};
      active := Some(d);
      return Ok(d);
    }

    method StartPolling()
      requires Valid(Fields())
      modifies this
      ensures Valid(Fields()) && Fields() == Start(old(Fields()))
      ensures timer == !closed
    {
      if closed || timer { return; }
      timer := true;
      var _ := DrainOnce();
    }

    method DrainEnds(d: nat)
      requires Valid(Fields()) && d in running
      modifies this
      ensures Valid(Fields()) && Fields() == Settle(old(Fields()), d)
    {
      running := running - {d};
      if active == Some(d) { active := None; }
    }

    /**
     * The whole of close(), its wait included: nobody can begin a drain any
     * more, so all that can happen meanwhile is the end of the one in flight, or
     * that the time is over before it. Whatever is answered, nothing is begun
     * again; a call that found the scheduler open and was not cut short leaves
     * nothing in flight.
     */
    method CloseAndWait(timeout: int) returns (problem: Option<Problem>)
      requires Valid(Fields())
      modifies this
      ensures Valid(Fields()) && closed && !timer && next == old(next)
      ensures old(closed) ==> problem == None && Fields() == old(Fields())
      ensures !old(closed) && old(active).None? ==> problem == None && running == {}
      ensures problem == Some(BadTimeout) <==> !old(closed) && old(active).Some? && !ValidTimeout(timeout)
      ensures problem in {Some(BadTimeout), Some(TimedOut)} ==> running == old(running) && |running| == 1
      ensures !old(closed) && problem in {None, Some(DrainFailed)} ==> running == {}
    {
      if closed { return None; }
      closed := true;
      timer := false;
      var waits := active;
      if waits.None? { return None; }
      if !ValidTimeout(timeout) { return Some(BadTimeout); }
      while waits.value in running
        invariant Valid(Fields()) && closed && !timer && next == old(next)
        invariant running == old(running) || running == {}
        decreases |running|
      {
        if * { return Some(TimedOut); }
        DrainEnds(waits.value);
      }
      if * { return Some(DrainFailed); }
      return None;
    }
  }

  // ---- every interleaving ------------------------------------------------------------------

  /** `failed` are the drains that ended badly. */
  datatype Machine = Machine(state: State, closers: seq<Closer>, failed: set<nat>)

  datatype Event =
    | StartCall | TimerFires | DrainCall | Ends(d: nat, ok: bool)
    | CloseCall(timeout: int) | Resolves(i: nat) | TimesOut(i: nat)

  const BEGIN := Machine(IDLE, [], {})

  predicate Enabled(m: Machine, e: Event) {
    match e
    case TimerFires => m.state.timer
    case Ends(d, _) => d in m.state.running
    case Resolves(i) => i < |m.closers| && m.closers[i].Waiting? && m.closers[i].drain !in m.state.running
    case TimesOut(i) => i < |m.closers| && m.closers[i].Waiting? && m.closers[i].drain in m.state.running
    case _ => true
  }

  function Step(m: Machine, e: Event): Machine
    requires Enabled(m, e)
  {
    match e
    case StartCall => m.(state := Start(m.state))
    case TimerFires => m.(state := Drain(m.state).0)
    case DrainCall => m.(state := Drain(m.state).0)
    case Ends(d, ok) => m.(state := Settle(m.state, d), failed := if ok then m.failed else m.failed + {d})
    case CloseCall(timeout) =>
      var (s, closer) := Close(m.state, timeout);
      m.(state := s, closers := m.closers + [closer])
    case Resolves(i) =>
      var problem := if m.closers[i].drain in m.failed then Some(DrainFailed) else None;
      m.(closers := m.closers[i := Ended(true, problem)])
    case TimesOut(i) => m.(closers := m.closers[i := Ended(true, Some(TimedOut))])
  }

  ghost predicate Leads(m: Machine, events: seq<Event>, n: Machine)
    decreases |events|
  {
    if events == [] then m == n
    else Enabled(m, events[0]) && Leads(Step(m, events[0]), events[1..], n)
  }

  /** The call was cut short: it ended without waiting for the drain to its end. */
  predicate CutShort(problem: Option<Problem>) { problem == Some(BadTimeout) || problem == Some(TimedOut) }

  /** A first close() that was not cut short left nothing in flight; a waiting one waits for what is in flight. */
  ghost predicate Orderly(m: Machine) {
    && Valid(m.state)
    && (m.closers != [] ==> m.state.closed)
    && (forall i :: 0 <= i < |m.closers| ==> Accounted(m.state, m.closers[i]))
  }

  ghost predicate Accounted(s: State, c: Closer) {
    match c
    case Waiting(d) => s.running <= {d}
    case Ended(first, problem) => first && !CutShort(problem) ==> s.running == {}
  }

  lemma StepIsOrderly(m: Machine, e: Event)
    requires Orderly(m) && Enabled(m, e)
    ensures Orderly(Step(m, e))
    ensures m.state.closed ==>
      Step(m, e).state.closed && Step(m, e).state.running <= m.state.running && Step(m, e).state.next == m.state.next
  {
    assert forall i :: 0 <= i < |m.closers| ==> Accounted(m.state, m.closers[i]);
  }

  lemma {:induction false} RunIsOrderly(m: Machine, events: seq<Event>, n: Machine)
    requires Orderly(m) && Leads(m, events, n)
    ensures Orderly(n)
    ensures m.state.closed ==>
      n.state.closed && n.state.running <= m.state.running && n.state.next == m.state.next
    decreases |events|
  {
    if events != [] {
      StepIsOrderly(m, events[0]);
      RunIsOrderly(Step(m, events[0]), events[1..], n);
    }
  }

  /** In every reachable state at most one drain is in flight, and a call to drain() then joins it. */
  lemma SingleFlight(events: seq<Event>, m: Machine)
    requires Leads(BEGIN, events, m)
    ensures |m.state.running| <= 1
    ensures forall d :: d in m.state.running && !m.state.closed ==> Drain(m.state) == (m.state, Ok(d))
  {
    RunIsOrderly(BEGIN, events, m);
  }

  /**
   * Once a close() call that found the scheduler open has ended without being
   * cut short, nothing is in flight and nothing ever starts again; and a call
   * that was cut short, too, has closed for good.
   */
  lemma FirstCloseIsFinal(events: seq<Event>, m: Machine, i: nat, later: seq<Event>, n: Machine)
    requires Leads(BEGIN, events, m) && Leads(m, later, n)
    requires i < |m.closers| && m.closers[i].Ended? && m.closers[i].first
    ensures n.state.next == m.state.next && n.state.closed && !n.state.timer && n.state.running <= m.state.running
    ensures !CutShort(m.closers[i].problem) ==> n.state.running == {}
  {
    RunIsOrderly(BEGIN, events, m);
    RunIsOrderly(m, later, n);
    assert Accounted(m.state, m.closers[i]);
  }

  /**
   * A close() call that found the scheduler open ends cut short exactly when it
   * ends while a drain is in flight; a bad timeout goes unnoticed when none is.
   */
  lemma CutShortWhileDraining(events: seq<Event>, m: Machine, e: Event, i: nat)
    requires Leads(BEGIN, events, m) && Enabled(m, e) && i < |Step(m, e).closers|
    requires i < |m.closers| ==> m.closers[i].Waiting?
    requires Step(m, e).closers[i].Ended? && Step(m, e).closers[i].first
    ensures CutShort(Step(m, e).closers[i].problem) <==> Step(m, e).state.running != {}
  {
    RunIsOrderly(BEGIN, events, m);
    if i < |m.closers| {
      assert Accounted(m.state, m.closers[i]);
    }
  }

  /**
   * A close() call succeeds at once while a drain is in flight exactly when the
   * scheduler is already closed and that drain has not ended.
   */
  lemma LaterCloseDoesNotWait(events: seq<Event>, m: Machine, timeout: int)
    requires Leads(BEGIN, events, m)
    ensures var n := Step(m, CloseCall(timeout));
      n.closers[|m.closers|].Ended? && n.closers[|m.closers|].problem.None? && n.state.running != {}
      <==> m.state.closed && m.state.running != {}
  {
    RunIsOrderly(BEGIN, events, m);
  }

  /** Two close() calls during one drain: the second resolves before the drain ends. */
  lemma SecondCloseResolvesEarly() returns (m: Machine)
    ensures Leads(BEGIN, [DrainCall, CloseCall(5000), CloseCall(5000)], m)
    ensures |m.closers| == 2 && m.closers[1] == Ended(false, None) && m.state.running == {0}
  {
    var one := Step(BEGIN, DrainCall);
    var two := Step(one, CloseCall(5000));
    m := Step(two, CloseCall(5000));
    var close := CloseCall(5000);
    var events := [DrainCall, close, close];
    assert events[1..] == [close, close] && events[1..][1..] == [close] && events[1..][1..][1..] == [];
    assert Leads(m, [], m);
    assert Leads(two, [close], m);
    assert Leads(one, [close, close], m);
    assert Leads(BEGIN, events, m);
  }
}
