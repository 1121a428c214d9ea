/**
 The admission gate in front of the application: requests are counted in and out, maintenance
 closes the gate and waits until the last one has left. Every section the mutex guards is one
 event, so the interleavings of requests, maintenance and activation are the event sequences.
 */
module DrainGate {
  import opened PeriodKeys

  /** What the mutex guards. `channels[c]` says whether drain channel `c` is closed. */
  datatype Gate = Gate(
    active: bool, maintenance: bool, inFlight: int, drained: Option<nat>, drainClosed: bool, channels: seq<bool>)

  datatype Event = Activate | Enter | Arrive(request: nat) | Leave(request: nat)

  function Opened(g: Gate): Gate {
    g.(active := true, maintenance := false, drained := None, drainClosed := false)
  }

  /** Closing the gate: a new channel per maintenance, closed at once if nothing runs. */
  function Closed(g: Gate): Gate {
    if g.maintenance then g
    else
      g.(maintenance := true, drained := Some(|g.channels|), drainClosed := g.inFlight == 0,
         channels := g.channels + [g.inFlight == 0])
  }

  predicate Admits(g: Gate) {
    !g.maintenance && g.active
  }

  /** The last request to leave during maintenance closes the channel. */
  function Left(g: Gate): Gate {
    var n := g.inFlight - 1;
    if g.maintenance && n == 0 && !g.drainClosed && g.drained.Some? && g.drained.value < |g.channels|
    then g.(inFlight := n, drainClosed := true, channels := g.channels[g.drained.value := true])
    else g.(inFlight := n)
  }

  /** The gate together with the requests that really are inside. */
  datatype World = World(gate: Gate, running: set<nat>)

  function Init(): World {
    World(Gate(false, false, 0, None, false, []), {})
  }

  /** A request arrives once at a time and leaves only if it was let in. */
  predicate Possible(w: World, e: Event) {
    (e.Arrive? ==> e.request !in w.running) && (e.Leave? ==> e.request in w.running)
  }

  function Step(w: World, e: Event): World {
    match e
    case Activate => w.(gate := Opened(w.gate))
    case Enter => w.(gate := Closed(w.gate))
    case Arrive(r) =>
      if Admits(w.gate) then World(w.gate.(inFlight := w.gate.inFlight + 1), w.running + {r}) else w
    case Leave(r) => World(Left(w.gate), w.running - {r})
  }

  ghost predicate Runs(w: World, events: seq<Event>)
    decreases |events|
  {
    events == [] || (Possible(w, events[0]) && Runs(Step(w, events[0]), events[1..]))
  }

  function After(w: World, events: seq<Event>): World
    decreases |events|
  {
    if events == [] then w else After(Step(w, events[0]), events[1..])
  }

  predicate Drained(w: World) {
    w.gate.maintenance && w.gate.drainClosed
  }

  /** The count is the requests inside; the drain channel is closed exactly when none is left. */
  predicate Valid(w: World) {
    var g := w.gate;
    && g.inFlight == |w.running|
    && (g.maintenance ==>
          && g.drained.Some? && g.drained.value == |g.channels| - 1
          && (g.drainClosed <==> w.running == {}) && g.channels[g.drained.value] == g.drainClosed)
    && (!g.maintenance ==> g.drained.None? && !g.drainClosed)
  }

  lemma StepKeepsValid(w: World, e: Event)
    requires Valid(w) && Possible(w, e)
    ensures Valid(Step(w, e))
  {
    match e
    case Leave(r) =>
      assert |w.running - {r}| == |w.running| - 1;
      assert |w.running - {r}| == 0 <==> w.running - {r} == {};
    case _ =>
      assert |w.running| == 0 <==> w.running == {};
  }

  /** A closed channel is never closed again, and one event closes at most the current one. */
  lemma ChannelsCloseOnce(w: World, e: Event)
    requires Valid(w) && Possible(w, e)
    ensures var g, h := w.gate, Step(w, e).gate;
      && |g.channels| <= |h.channels|
      && (forall c :: 0 <= c < |g.channels| && h.channels[c] != g.channels[c] ==>
            !g.channels[c] && h.channels[c] && g.drained == Some(c) && g.maintenance && Step(w, e).running == {})
  {
    StepKeepsValid(w, e);
    match e
    case Leave(r) =>
      assert |w.running - {r}| == |w.running| - 1;
      assert |w.running - {r}| == 0 <==> w.running - {r} == {};
    case _ =>
  }

  lemma {:induction false} RunKeepsValid(w: World, events: seq<Event>)
    requires Valid(w) && Runs(w, events)
    ensures Valid(After(w, events))
    decreases |events|
  {
    hide Valid, Step;
    if events != [] {
      StepKeepsValid(w, events[0]);
      RunKeepsValid(Step(w, events[0]), events[1..]);
    }
  }

  /** In every interleaving the in-flight count equals the requests running. */
  lemma InFlightIsRunning(events: seq<Event>)
    requires Runs(Init(), events)
    ensures After(Init(), events).gate.inFlight == |After(Init(), events).running|
  {
    RunKeepsValid(Init(), events);
  }

  /** Once drained, nothing runs and nothing is let in until the next activation. */
  lemma {:induction false} DrainedStaysEmpty(w: World, events: seq<Event>)
    requires Valid(w) && Drained(w) && Runs(w, events) && Activate !in events
    ensures Drained(After(w, events)) && After(w, events).running == {}
    ensures After(w, events).gate.channels == w.gate.channels
    decreases |events|
  {
    if events != [] {
      StepKeepsValid(w, events[0]);
      assert events[0] in events;
      DrainedStaysEmpty(Step(w, events[0]), events[1..]);
    }
  }

  /** Between closing the gate and the next activation no request is added, so draining only counts down. */
  lemma {:induction false} MaintenanceOnlyDrains(w: World, events: seq<Event>)
    requires Valid(w) && w.gate.maintenance && Runs(w, events) && Activate !in events
    ensures After(w, events).running <= w.running && After(w, events).gate.drained == w.gate.drained
    decreases |events|
  {
    if events != [] {
      StepKeepsValid(w, events[0]);
      assert events[0] in events;
      MaintenanceOnlyDrains(Step(w, events[0]), events[1..]);
    }
  }

  // ---------- who is let in ----------

  predicate IsOpen(g: Gate) {
    g.active && !g.maintenance
  }

  /** Some activation has no maintenance after it. */
  predicate LastOpened(events: seq<Event>) {
    exists k :: 0 <= k < |events| && events[k].Activate? && forall m :: k < m < |events| ==> !events[m].Enter?
  }

  predicate NoMaintenance(events: seq<Event>) {
    forall k :: 0 <= k < |events| ==> !events[k].Enter?
  }

  lemma {:induction false} OpenSinceActivation(w: World, events: seq<Event>)
    ensures IsOpen(After(w, events).gate) <==> LastOpened(events) || (IsOpen(w.gate) && NoMaintenance(events))
    decreases |events|
  {
    if events != [] {
      var rest := events[1..];
      OpenSinceActivation(Step(w, events[0]), rest);
      assert events == [events[0]] + rest;
      if LastOpened(rest) {
        var k :| 0 <= k < |rest| && rest[k].Activate? && forall m :: k < m < |rest| ==> !rest[m].Enter?;
        assert events[k + 1].Activate?;
        forall m | k + 1 < m < |events| ensures !events[m].Enter? { assert events[m] == rest[m - 1]; }
      }
      if LastOpened(events) {
        var k :| 0 <= k < |events| && events[k].Activate? && forall m :: k < m < |events| ==> !events[m].Enter?;
        if k > 0 {
          assert rest[k - 1].Activate?;
          forall m | k - 1 < m < |rest| ensures !rest[m].Enter? { assert rest[m] == events[m + 1]; }
        } else {
          forall m | 0 <= m < |rest| ensures !rest[m].Enter? { assert rest[m] == events[m + 1]; }
        }
      }
      if NoMaintenance(rest) && !events[0].Enter? {
        forall m | 0 <= m < |events| ensures !events[m].Enter? { if m > 0 { assert events[m] == rest[m - 1]; } }
      }
      if NoMaintenance(events) {
        forall m | 0 <= m < |rest| ensures !rest[m].Enter? { assert rest[m] == events[m + 1]; }
      }
      SwitchesOpen(w, events[0]);
      hide Step;
    }
  }

  lemma SwitchesOpen(w: World, e: Event)
    ensures IsOpen(Step(w, e).gate) <==> e.Activate? || (!e.Enter? && IsOpen(w.gate))
  {
  }

  /**
   In every interleaving: a request is let in if and only if some activation has no maintenance after
   it. It is then inside, and otherwise nothing has changed.
   */
  lemma AdmittedIffOpened(events: seq<Event>, r: nat)
    requires Runs(Init(), events) && r !in After(Init(), events).running
    ensures var w := After(Init(), events);
      var next := Step(w, Arrive(r));
      && (r in next.running <==> LastOpened(events))
      && (LastOpened(events) ==> next.running == w.running + {r} && next.gate == w.gate.(inFlight := w.gate.inFlight + 1))
      && (!LastOpened(events) ==> next == w)
  {
    OpenSinceActivation(Init(), events);
    hide LastOpened, Runs;
  }

  /** And it leaves when it leaves, whatever the gate does meanwhile. */
  lemma LeavingLeaves(events: seq<Event>, r: nat)
    requires Runs(Init(), events) && r in After(Init(), events).running
    ensures var w := After(Init(), events);
      Step(w, Leave(r)).running == w.running - {r} && Step(w, Leave(r)).gate.inFlight == w.gate.inFlight - 1
  {
  }

  // ---------- the handler ----------

  /** A drain channel. Closing one twice would panic, so that is excluded. */
  class Channel {
    var closed: bool

    constructor ()
      ensures !closed
    {
      closed := false;
    }

    method Close()
      requires !closed
      modifies this
      ensures closed
    {
      closed := true;
    }
  }

  class LifecycleHandler {
    var active: bool
    var maintenance: bool
    var inFlight: int
    var drained: Channel?
    var drainClosed: bool
    ghost var world: World
    ghost var made: seq<Channel>

    ghost predicate Ok()
      reads this, made
    {
      && Valid(world)
      && world.gate.active == active && world.gate.maintenance == maintenance
      && world.gate.inFlight == inFlight && world.gate.drainClosed == drainClosed
      && (drained == null <==> world.gate.drained.None?)
      && (drained != null ==> |made| > 0 && drained == made[|made| - 1])
      && |world.gate.channels| == |made|
      && (forall c :: 0 <= c < |made| ==> world.gate.channels[c] == made[c].closed)
      && (forall b, c :: 0 <= b < c < |made| ==> made[b] != made[c])
    }

    constructor ()
      ensures Ok() && world == Init() && fresh(made)
    {
      active, maintenance, inFlight, drained, drainClosed := false, false, 0, null, false;
      world, made := Init(), [];
    }

    method Activate()
      requires Ok()
      modifies this
      ensures Ok() && world == Step(old(world), Event.Activate) && made == old(made)
    {
      StepKeepsValid(world, Event.Activate);
      active, maintenance, drained, drainClosed := true, false, null, false;
      world := Step(world, Event.Activate);
    }

    /** Closes the gate; the caller waits on the returned channel. */
    method EnterMaintenance() returns (wait: Channel?)
      requires Ok()
      modifies this
      ensures Ok() && world == Step(old(world), Enter) && old(made) <= made
      ensures fresh(set c | c in made && c !in old(made))
      ensures wait != null && wait in made && (wait.closed <==> world.running == {})
    {
      StepKeepsValid(world, Enter);
      ghost var next := Step(world, Enter);
      if !maintenance {
        maintenance := true;
        drained := new Channel();
        if inFlight == 0 {
          drained.Close();
          drainClosed := true;
        }
        made := made + [drained];
      }
      world := next;
      wait := drained;
    }

    /** A request at the gate; turned away while the gate is closed or nothing is active yet. */
    method Begin(r: nat) returns (admitted: bool)
      requires Ok() && Possible(world, Arrive(r))
      modifies this
      ensures Ok() && world == Step(old(world), Arrive(r)) && made == old(made)
      ensures admitted <==> old(active) && !old(maintenance)
      ensures admitted <==> r in world.running
      ensures inFlight == old(inFlight) + (if admitted then 1 else 0)
    {
      StepKeepsValid(world, Arrive(r));
      ghost var next := Step(world, Arrive(r));
      if maintenance || !active {
        admitted := false;
      } else {
        inFlight := inFlight + 1;
        admitted := true;
      }
      world := next;
    }

    method End(r: nat)
      requires Ok() && Possible(world, Leave(r))
      modifies this, made
      ensures Ok() && world == Step(old(world), Leave(r)) && made == old(made)
    {
      StepKeepsValid(world, Leave(r));
      ghost var next := Step(world, Leave(r));
      inFlight := inFlight - 1;
      if maintenance && inFlight == 0 && !drainClosed && drained != null {
        drained.Close();
        drainClosed := true;
      }
      world := next;
    }
  }
}
