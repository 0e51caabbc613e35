/** The reference model of the gravity gun's five interaction states, as
    values: what each state's `Enter`, `Update`, `FixedUpdate` and `Exit` do
    to the controller's current state and current body, and which calls they
    make on the effect controller, the sound controller and the body, in
    order, as a log of events. `SetState` and the transient states' `Enter`
    call each other exactly as the controller does, re-entrantly. */
module GravigunState {
  import opened Gravibody

  datatype Option<T> = None | Some(value: T)

  /** The five states the controller creates. */
  datatype StateKind = Idle | Ready | Drag | Throw | DryShot

  /** Throw and DryShot leave again from inside their own `Enter`. */
  predicate IsTransient(k: StateKind) { k == Throw || k == DryShot }

  /** The state objects the controller's Awake creates, in creation order. */
  function StateInstances(): seq<StateKind>
  {
    [Idle, Drag, Throw, Ready, DryShot]
  }

  /** Awake creates each of the five states exactly once. */
  lemma EachStateCreatedOnce(k: StateKind)
    ensures multiset(StateInstances())[k] == 1
  {
    var r := StateInstances();
    match k
    case Idle => assert r == [Idle] + [Drag, Throw, Ready, DryShot];
    case Drag => assert r == [Idle, Drag] + [Throw, Ready, DryShot];
    case Throw => assert r == [Idle, Drag, Throw] + [Ready, DryShot];
    case Ready => assert r == [Idle, Drag, Throw, Ready] + [DryShot];
    case DryShot => assert r == [Idle, Drag, Throw, Ready] + [DryShot];
  }

  /** The camera pose of one tick: where the ray starts and where it points. */
  datatype Aim = Aim(position: Vec, forward: Vec)

  /** How far in front of the camera a dragged body is held. */
  const DRAG_DISTANCE: real := 2.5
  /** The throw impulse per unit of mass. */
  const THROW_IMPULSE: real := 200.0
  /** How far in front of the camera the throw effect is aimed. */
  const THROW_EFFECT_REACH: real := 25.0

  /** `DragPoint`: the point in front of the camera a dragged body homes to. */
  function DragPoint(aim: Aim): Vec { Add(aim.position, Scale(aim.forward, DRAG_DISTANCE)) }

  /** The point the throw effect is aimed at. */
  function ThrowEffectTarget(aim: Aim): Vec { Add(aim.position, Scale(aim.forward, THROW_EFFECT_REACH)) }

  /** The impulse a throw hands to the body, before the body scales it by its mass. */
  function ThrowForce(aim: Aim): Vec { Scale(aim.forward, THROW_IMPULSE) }

  /** What the ray cast along the camera ray reports: nothing within range, or
      the nearest collider together with its body component (null if the
      collider has none). */
  datatype RayHit = Miss | Hit(component: Body?)

  /** `TryGetBody`: the body the probe acquires, or null. */
  function Acquired(hit: RayHit): Body?
  {
    if hit.Hit? then hit.component else null
  }

  /** The inputs of one frame: the probe's result, the two mouse-button
      presses of this frame, and the camera pose. */
  datatype FrameInput = FrameInput(hit: RayHit, rightPressed: bool, leftPressed: bool, aim: Aim)

  /** One entry of the controller's log. */
  datatype Event =
    // the controller running a state's Enter, Exit, Update or FixedUpdate
    | Entered(state: StateKind)
    | Exited(state: StateKind)
    | Updated(state: StateKind)
    | FixedUpdated(state: StateKind)
    // calls on the effect controller
    | InitEffects
    | PlayReadyEffect
    | StopReadyEffect
    | PlayDragEffect
    | StopDragEffect
    | PlayThrowEffect(target: Vec)
    | PlayDryEffect
    // calls on the sound controller
    | PlayReadySound
    | PlayUnreadySound
    | PlayDrySound
    | PlayDragSound
    | StopDragSound
    | PlayThrowSound
    | PlayReleaseSound
    // calls on the current body
    | BodyLocked(body: Body?, locked: bool)
    | BodyForce(body: Body?, force: Vec, mode: ForceMode)
    | BodyMoved(body: Body?, target: Vec)

  predicate IsBodyEvent(e: Event) { e.BodyLocked? || e.BodyForce? || e.BodyMoved? }

  /** The controller's state that the states read and write: the current
      state (none before Awake) and the current body (`CurrentGravibody`). */
  datatype Config = Config(state: Option<StateKind>, target: Body?)

  /** The configuration after a call, with the events the call logged. */
  datatype Outcome = Outcome(config: Config, events: seq<Event>)

  /** Orders the re-entrant calls: a transient state's Enter calls SetState(Idle). */
  function Rank(k: StateKind): nat { if IsTransient(k) then 1 else 0 }

  /** What each state's `Exit` does; only Ready and Drag override it. */
  function Exit(k: StateKind, target: Body?): seq<Event>
  {
    match k
    case Ready => [StopReadyEffect, PlayUnreadySound]
    case Drag => [BodyLocked(target, false), StopDragEffect, StopDragSound]
    case _ => []
  }

  /** `SetState`: the old state's Exit (if there is an old state), then the
      new state becomes current, then its Enter runs. */
  function SetState(c: Config, s: StateKind, aim: Aim): Outcome
    decreases Rank(s), 1
  {
    var exit := if c.state.Some? then [Exited(c.state.value)] + Exit(c.state.value, c.target) else [];
    var o := Enter(c.(state := Some(s)), s, aim);
    Outcome(o.config, exit + [Entered(s)] + o.events)
  }

  /** What each state's `Enter` does; Throw and DryShot end by calling SetState(Idle). */
  function Enter(c: Config, s: StateKind, aim: Aim): Outcome
    decreases Rank(s), 0
  {
    match s
    case Idle => Outcome(c.(target := null), [])
    case Ready => Outcome(c, [PlayReadyEffect, PlayReadySound])
    case Drag => Outcome(c, [BodyLocked(c.target, true), PlayDragEffect, PlayDragSound])
    case Throw =>
      var o := SetState(c, Idle, aim);
      Outcome(o.config, [BodyForce(c.target, ThrowForce(aim), Impulse),
                         PlayThrowEffect(ThrowEffectTarget(aim)), PlayThrowSound] + o.events)
    case DryShot =>
      var o := SetState(c, Idle, aim);
      Outcome(o.config, [PlayDryEffect, PlayDrySound] + o.events)
  }

  /** Idle's `Update`: acquire a body and become Ready, or dry-fire on a press. */
  function IdleUpdate(c: Config, input: FrameInput): Outcome
  {
    var body := Acquired(input.hit);
    if body != null then SetState(c.(target := body), Ready, input.aim)
    else if input.rightPressed || input.leftPressed then SetState(c, DryShot, input.aim)
    else Outcome(c, [])
  }

  /** Ready's `Update`: lose the body, retarget, or grab (right) or throw (left). */
  function ReadyUpdate(c: Config, input: FrameInput): Outcome
  {
    var body := Acquired(input.hit);
    if body == null then SetState(c, Idle, input.aim)
    else if body != c.target then Outcome(c.(target := body), [])
    else if input.rightPressed then SetState(c, Drag, input.aim)
    else if input.leftPressed then SetState(c, Throw, input.aim)
    else Outcome(c, [])
  }

  /** Drag's `Update`: release (right) or throw (left). */
  function DragUpdate(c: Config, input: FrameInput): Outcome
  {
    if input.rightPressed then
      var o := SetState(c, Idle, input.aim);
      Outcome(o.config, [PlayReleaseSound] + o.events)
    else if input.leftPressed then SetState(c, Throw, input.aim)
    else Outcome(c, [])
  }

  /** State `k`'s Update; Throw and DryShot keep the empty default. */
  function StateUpdate(c: Config, k: StateKind, input: FrameInput): Outcome
  {
    match k
    case Idle => IdleUpdate(c, input)
    case Ready => ReadyUpdate(c, input)
    case Drag => DragUpdate(c, input)
    case _ => Outcome(c, [])
  }

  /** The controller's `Update`: the current state's Update, if there is a current state. */
  function Update(c: Config, input: FrameInput): Outcome
  {
    match c.state
    case None => Outcome(c, [])
    case Some(k) =>
      var o := StateUpdate(c, k, input);
      Outcome(o.config, [Updated(k)] + o.events)
  }

  /** The controller's `FixedUpdate`: only Drag does anything, homing the body to the drag point. */
  function FixedUpdate(c: Config, aim: Aim): Outcome
  {
    match c.state
    case None => Outcome(c, [])
    case Some(k) =>
      Outcome(c, [FixedUpdated(k)] + if k == Drag then [BodyMoved(c.target, DragPoint(aim))] else [])
  }

  /** The controller's `Awake`: initialise the effects, then enter Idle. */
  function Awake(c: Config, aim: Aim): Outcome
  {
    var o := SetState(c, Idle, aim);
    Outcome(o.config, [InitEffects] + o.events)
  }

  /** The configurations the controller is in between ticks: never in a
      transient state, a body in Ready and Drag, none in Idle. */
  predicate Good(c: Config)
  {
    && (c.state.Some? ==> !IsTransient(c.state.value))
    && (c.state == Some(Ready) || c.state == Some(Drag) ==> c.target != null)
    && (c.state == Some(Idle) ==> c.target == null)
  }

  /** What one logged event does to body `b`, seen as a value. */
  function Effect(e: Event, b: Body, v: BodyView): BodyView
  {
    match e
    case BodyLocked(x, locked) =>
      if x == b then v.(locked := locked, useGravity := !locked) else v
    case BodyForce(x, force, mode) =>
      if x == b then v.(applied := v.applied + [AppliedForce(Scale(force, b.mass), mode)]) else v
    case BodyMoved(x, target) =>
      if x == b then v.(velocity := HomingVelocity(Sub(target, v.position))) else v
    case _ => v
  }

  /** What a log does to body `b`, event by event. */
  function Replay(events: seq<Event>, b: Body, v: BodyView): BodyView
    decreases |events|
  {
    if events == [] then v else Replay(events[1..], b, Effect(events[0], b, v))
  }

  /** Replaying two logs one after the other is replaying their concatenation. */
  lemma {:induction false} ReplayAppend(a: seq<Event>, c: seq<Event>, b: Body, v: BodyView)
    ensures Replay(a + c, b, v) == Replay(c, b, Replay(a, b, v))
    decreases |a|
  {
    if a == [] {
      assert a + c == c;
    } else {
      assert (a + c)[0] == a[0];
      assert (a + c)[1..] == a[1..] + c;
      ReplayAppend(a[1..], c, b, Effect(a[0], b, v));
    }
  }

  /** Events that touch no body leave every body as it was. */
  lemma {:induction false} ReplayInert(events: seq<Event>, b: Body, v: BodyView)
    requires forall i :: 0 <= i < |events| ==> !IsBodyEvent(events[i])
    ensures Replay(events, b, v) == v
    decreases |events|
  {
    if events != [] {
      ReplayInert(events[1..], b, v);
    }
  }
}
