/** The apply service's ticks: one at a time, and a close() every call of which waits. */
module ApplyTicks {
  import opened Wrappers

  /** `pending` is the last tick begun, `running` are those in flight, `next` names the next one. */
  datatype State = State(active: bool, pending: Option<nat>, closed: bool, running: set<nat>, next: nat)

  const IDLE := State(false, None, false, {}, 0)

  ghost predicate Valid(s: State) {
    && (s.active ==> s.pending.Some? && s.running == {s.pending.value})
    && (!s.active ==> s.running == {})
    && (s.pending.Some? ==> s.pending.value < s.next)
  }

  /** tick(): nothing while one is active or after close. */
  function Tick(s: State): State {
    if s.active || s.closed then s
    else s.(active := true, pending := Some(s.next), running := s.running + {s.next}, next := s.next + 1)
  }

  function Finish(s: State, t: nat): State { s.(active := false, running := s.running - {t}) }

  class CsvImportApply {
    var active: bool
    var pending: Option<nat>
    var closed: bool
    var running: set<nat>
    var next: nat

    ghost function Fields(): State
      reads this
    {
      State(active, pending, closed, running, next)
    }

    constructor ()
      ensures Fields() == IDLE && Valid(Fields())
    {
      active, pending, closed, running, next := false, None, false, {}, 0;
    }

    method StartTick() returns (began: bool)
      requires Valid(Fields())
      modifies this
      ensures Valid(Fields()) && Fields() == Tick(old(Fields()))
      ensures began <==> next != old(next)
      ensures began ==> old(running) == {} && running == {old(next)}
    {
      if active || closed { return false; }
      var work := next;
      next := next + 1;
      active := true;
      running := running + {work};
      pending := Some(work);
      return true;
    }

    method TickEnds(t: nat)
      requires Valid(Fields()) && t in running
      modifies this
      ensures Valid(Fields()) && Fields() == Finish(old(Fields()), t) && running == {}
    {
      running := running - {t};
      active := false;
    }

    /** close(), its wait included. */
    method CloseAndWait()
      requires Valid(Fields())
      modifies this
      ensures Valid(Fields()) && closed && running == {} && !active && next == old(next)
    {
      closed := true;
      if pending.Some? {
        while pending.value in running
          invariant Valid(Fields()) && closed && next == old(next) && pending == old(pending)
          decreases |running|
        {
          TickEnds(pending.value);
        }
      }
    }
  }

  // ---- every interleaving ------------------------------------------------------------------

  /** A close() call and the tick it still waits for. */
  datatype Machine = Machine(state: State, closers: seq<Option<nat>>)

  datatype Event = TickCall | Ends(t: nat) | CloseCall | Resolves(i: nat)

  const BEGIN := Machine(IDLE, [])

  predicate Enabled(m: Machine, e: Event) {
    match e
    case Ends(t) => t in m.state.running
    case Resolves(i) => i < |m.closers| && m.closers[i].Some? && m.closers[i].value !in m.state.running
    case _ => true
  }

  function Step(m: Machine, e: Event): Machine
    requires Enabled(m, e)
  {
    match e
    case TickCall => m.(state := Tick(m.state))
    case Ends(t) => m.(state := Finish(m.state, t))
    case CloseCall => Machine(m.state.(closed := true), m.closers + [m.state.pending])
    case Resolves(i) => m.(closers := m.closers[i := None])
  }

  ghost predicate Leads(m: Machine, events: seq<Event>, n: Machine)
    decreases |events|
  {
    if events == [] then m == n
    else Enabled(m, events[0]) && Leads(Step(m, events[0]), events[1..], n)
  }

  ghost predicate Orderly(m: Machine) {
    && Valid(m.state)
    && (m.closers != [] ==> m.state.closed)
    && (forall i :: 0 <= i < |m.closers| ==> Accounted(m.state, m.closers[i]))
  }

  /** A call that waits, waits for whatever is in flight. */
  ghost predicate Accounted(s: State, waits: Option<nat>) {
    match waits case None => s.running == {} case Some(t) => s.running <= {t}
  }

  lemma StepIsOrderly(m: Machine, e: Event)
    requires Orderly(m) && Enabled(m, e)
    ensures Orderly(Step(m, e))
    ensures m.state.closed ==>
      Step(m, e).state.closed && Step(m, e).state.running <= m.state.running && Step(m, e).state.next == m.state.next
  {
  }

  lemma {:induction false} RunIsOrderly(m: Machine, events: seq<Event>, n: Machine)
    requires Orderly(m) && Leads(m, events, n)
    ensures Orderly(n)
    ensures m.state.closed ==>
      n.state.closed && n.state.running <= m.state.running && n.state.next == m.state.next
    decreases |events|
  {
    if events != [] {
      StepIsOrderly(m, events[0]);
      RunIsOrderly(Step(m, events[0]), events[1..], n);
    }
  }

  /** At most one tick is ever in flight, and a tick() call then begins nothing. */
  lemma OneTickAtATime(events: seq<Event>, m: Machine)
    requires Leads(BEGIN, events, m)
    ensures |m.state.running| <= 1
    ensures m.state.running != {} ==> Tick(m.state) == m.state
  {
    RunIsOrderly(BEGIN, events, m);
  }

  /** Once any close() call has resolved, nothing is in flight and nothing ever begins again. */
  lemma EveryCloseIsFinal(events: seq<Event>, m: Machine, i: nat, later: seq<Event>, n: Machine)
    requires Leads(BEGIN, events, m) && Leads(m, later, n)
    requires i < |m.closers| && m.closers[i] == None
    ensures n.state.running == {} && n.state.next == m.state.next && n.state.closed
  {
    RunIsOrderly(BEGIN, events, m);
    RunIsOrderly(m, later, n);
    assert Accounted(m.state, m.closers[i]);
  }
}
