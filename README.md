# Gravity gun: interaction state machine and body override

A Dafny model of the core of a Unity "gravity gun". The gun's controller holds a
current state (Idle, Ready, Drag, Throw or DryShot) and one reference to the body
it is aiming at (`CurrentGravibody`). It hands every frame's `Update` and every
physics step's `FixedUpdate` to the current state. `SetState` runs the old
state's `Exit`, makes the new state current and runs its `Enter`. Throw and
DryShot call `SetState(Idle)` again from inside their own `Enter`. The grabbed
body (`Gravibody`) has three operations:

- a `Locked` flag that switches the rigid body's gravity off while it is set;
- `AddForce`, which scales the force by the body's mass;
- `Move`, a homing step toward a point with a speed clamp of 100.

The project has four modules, one per file:

- `gravibody.dfy` (module `Gravibody`) holds:
  - vectors over the reals;
  - a velocity in polar form (a heading and a signed speed), so that `normalized` and `magnitude` need no square root;
  - the homing law `HomingVelocity` and its lemmas;
  - `class Body` with the `SetLocked`, `AddForce` and `Move` methods.
- `gravigun_state.dfy` (module `GravigunState`) is the reference model as values.
  - A `Config` is the current state plus the current body.
  - Every operation returns an `Outcome`: the new configuration and a log of `Event`s. The log holds:
    - a marker for each `Enter`/`Exit`/`Update`/`FixedUpdate` the controller runs;
    - every call on the effect controller and the sound controller;
    - every call on the body.
  - `SetState` and `Enter` call each other re-entrantly, exactly like the program.
  - `Replay` folds the body calls of a log over one body's state.
- `gravigun_properties.dfy` (module `GravigunProperties`) holds the lemmas about the reference model:
  - exit-before-entry ordering, the transient states, and what each state does on a frame;
  - trigger priority and target handling;
  - "a body is locked exactly while it is dragged";
  - invariants of any run of ticks (`Run`), and the whole lifetime from `Awake`.
- `gravigun_controller.dfy` (module `GravigunController`) is the controller as the program runs it.
  - `class Controller` has the fields `currentState`, `currentGravibody`, `states` and `log`.
  - There is one method per `Enter`/`Update`/`FixedUpdate`/`Exit` of each state, and one per controller operation.
  - Each method's postcondition equates the new fields, the new log and the new state of the current body with the corresponding reference function.
  - `Update` and `FixedUpdate` keep `Valid()`. Under `Valid()` the configuration is good, and every body the controller has dragged is locked exactly while it is being dragged, with gravity off exactly while it is locked.

Inputs from the engine are parameters:

- the ray cast's result, `RayHit`: a miss, or a hit with the collider's body component, which may be null;
- the two mouse-button presses of the frame;
- the camera pose, `Aim`.

From Drag, `SetState(Throw)` runs Drag's `Exit` first, so the body is unlocked before Throw's impulse and no release sound is played (`DragThrows`).

## Model

| member | source | states |
|---|---|---|
| Gravibody.Body.SetLocked | Code/Gravibody.cs:18-22 | after the setter, the getter returns the value and `useGravity == !Locked`; nothing else of the body changes |
| Gravibody.SetLockedTwice | Code/Gravibody.cs:21 | setting `Locked` twice to one value leaves the body as setting it once does |
| Gravibody.Body.AddForce | Code/Gravibody.cs:14 | the rigid body receives the force times the body's mass, with the same force mode; nothing else changes |
| Gravibody.Body.Move | Code/Gravibody.cs:24-33 | the velocity becomes the homing velocity toward the target, and its speed is at most 100; position, `Locked` and gravity are unchanged |
| Gravibody.HomingSpeedIsClamped | Code/Gravibody.cs:29-32 | the homing speed is between 0 and 100 for every displacement |
| Gravibody.HomingLaw | Code/Gravibody.cs:26-32 | away from the target, the speed is d²·10 when that is at most 100 and exactly 100 otherwise, and the direction is the unit vector toward the target |
| Gravibody.HomingFarTargetIsClamped | Code/Gravibody.cs:26-32 | a body 10 units beyond the point along z moves at speed 100 straight back toward it |
| Gravibody.HomingNearTargetIsUnclamped | Code/Gravibody.cs:26-32 | a body 2 units from the point moves at speed 40 toward it |
| GravigunState.EachStateCreatedOnce | Code/GravigunController.cs:39-43 | Awake's state list holds each of the five states exactly once |
| GravigunState.ReplayAppend | Code/GravigunController.cs:50-55 | replaying two logs one after the other equals replaying their concatenation |
| GravigunState.ReplayInert | Code/GravigunState.cs:11-14 | calls on effects and sounds and dispatch markers leave every body unchanged |
| GravigunProperties.SetStateSettles | Code/GravigunController.cs:50-55 | SetState(s) ends in s, or in Idle when s is Throw or DryShot; Idle clears the current body and every other state keeps it |
| GravigunProperties.SetStateExitsBeforeEntering | Code/GravigunController.cs:50-55 | the old state's exit marker opens the log, followed by exactly that state's Exit effects and then the new state's entry marker, with no exit or entry between them; with no old state the log opens with the entry |
| GravigunProperties.TransientExitsItself | Code/GravigunController.cs:53-54 | because the new state is current before its Enter, a transient state's nested SetState(Idle) exits that transient state and the call ends in Idle with no body |
| GravigunProperties.SetStateThrow | Code/GravigunState.cs:149-159 | the whole log of SetState(Throw): exit, entry, impulse, throw effect, throw sound, Throw's exit, Idle's entry |
| GravigunProperties.SetStateDryShot | Code/GravigunState.cs:166-174 | the whole log of SetState(DryShot): exit, entry, dry effect, dry sound, DryShot's exit, Idle's entry |
| GravigunProperties.IdleEnterClears | Code/GravigunState.cs:41-45 | entering Idle always leaves the current body null |
| GravigunProperties.IdleAcquires | Code/GravigunState.cs:51-55 | Idle with a body found: the body becomes current before Ready is entered, and the outcome is Ready with that body |
| GravigunProperties.IdleDryShot | Code/GravigunState.cs:56-62 | Idle with no body and a press of either button: dry effect then dry sound, and back in Idle with no body |
| GravigunProperties.IdleWaits | Code/GravigunState.cs:47-64 | Idle with no body and no press changes nothing |
| GravigunProperties.IdleUpdateTouchesNoBody | Code/GravigunState.cs:47-64 | Idle's Update makes no call on any body |
| GravigunProperties.ReadyLosesTarget | Code/GravigunState.cs:83 | Ready, probe misses: Ready's exit effects, then Idle with no body |
| GravigunProperties.ReadyRetargets | Code/GravigunState.cs:84 | Ready, another body: only the current body changes; the state stays Ready, no entry effect is replayed, and the buttons are ignored |
| GravigunProperties.ReadyTriggerPriority | Code/GravigunState.cs:85-89 | Ready, same body: right press grabs (Drag) even when left is also pressed; left press alone throws; no press changes nothing |
| GravigunProperties.DragReleases | Code/GravigunState.cs:118-122 | Drag, right press: release sound, then Drag's exit unlocks the body, then Idle with no body |
| GravigunProperties.DragThrows | Code/GravigunState.cs:123-126 | Drag, left press only: Drag's exit unlocks the body before Throw's impulse, and no release sound is logged |
| GravigunProperties.ThrowEnterLogs | Code/GravigunState.cs:149-159 | Throw's Enter logs one impulse of CameraDirection·200 in Impulse mode, then the throw effect aimed at CameraPosition + CameraDirection·25, then the throw sound, and no later body call; it ends in Idle with no body |
| GravigunProperties.ThrowImpulseScalesWithMass | Code/GravigunState.cs:153 | the thrown body receives CameraDirection·200 scaled by its mass, in Impulse mode, and nothing else |
| GravigunProperties.UpdateNeverMoves | Code/GravigunState.cs:129-133 | no frame Update moves a body |
| GravigunProperties.FixedUpdateMovesOnlyInDrag | Code/GravigunController.cs:58 | with no current state a physics step does nothing; otherwise the current state's fixed-update marker comes first and no other tick marker follows; the configuration is kept; in Drag it moves the current body toward the drag point, in any other state it makes no body call |
| GravigunProperties.UpdateDispatches | Code/GravigunController.cs:57 | Update does nothing without a current state; otherwise the current state's update marker comes first and no other tick marker follows |
| GravigunProperties.SetStateLogsNoTicks | Code/GravigunController.cs:50-55 | SetState logs no tick marker and moves no body |
| GravigunProperties.NoTickMarkers | Code/GravigunState.cs:47-127 | no state's Update logs a tick marker or moves a body |
| GravigunProperties.AwakeStartsIdle | Code/GravigunController.cs:34-46 | Awake initialises the effects, then enters Idle with no body and runs no Exit |
| GravigunProperties.ReplayKeepsPosition | Code/Gravibody.cs:14-33 | no body call changes a body's position: a force is only handed over and a move sets the velocity |
| GravigunProperties.ReplayWithoutLocks | Code/Gravibody.cs:18-22 | only a `Locked` call changes whether a body is locked or uses gravity |
| GravigunProperties.ReplayKeepsGravityLinked | Code/Gravibody.cs:21 | every body call keeps `useGravity == !Locked` once it holds |
| GravigunProperties.ExitDragReplay | Code/GravigunState.cs:135-142 | Drag's Exit leaves the body unlocked with gravity on |
| GravigunProperties.EnterDragReplay | Code/GravigunState.cs:105-112 | Drag's Enter leaves the body locked with gravity off |
| GravigunProperties.ExitUnlocks | Code/GravigunState.cs:135-142 | if only the dragged body was locked, no body is locked after the old state's Exit |
| GravigunProperties.SetStateLockAgreement | Code/GravigunController.cs:50-55 | SetState keeps "a body is locked exactly while it is the current body in Drag" |
| GravigunProperties.EnterLockAgreement | Code/GravigunState.cs:105-112 | starting with the body unlocked, after Enter the body is locked exactly when Drag holds it |
| GravigunProperties.SteadyEnterLockAgreement | Code/GravigunState.cs:41-112 | from an unlocked body, the Enter of Idle, Ready or Drag locks it exactly when Drag holds it |
| GravigunProperties.TransientEnterSplit | Code/GravigunState.cs:149-174 | a Throw or DryShot Enter ends as its nested SetState(Idle) does, and what it logs before that call neither locks nor unlocks a body |
| GravigunProperties.UpdateLockAgreement | Code/GravigunState.cs:114-127 | a frame keeps "a body is locked exactly while it is the current body in Drag" |
| GravigunProperties.FixedUpdateLockAgreement | Code/GravigunState.cs:129-133 | a physics step keeps "a body is locked exactly while it is the current body in Drag" |
| GravigunProperties.FixedUpdateNeverLocks | Code/GravigunState.cs:129-133 | a physics step never locks or unlocks a body and never switches its gravity, whatever the configuration |
| GravigunProperties.UpdateKeepsGood | Code/GravigunController.cs:50-58 | from a good configuration, after a frame the state is never Throw or DryShot; Ready and Drag have a body, and Idle has none |
| GravigunProperties.DragKeepsTarget | Code/GravigunState.cs:114-133 | nothing in Drag changes the current body |
| GravigunProperties.UpdateKeepsDragged | Code/GravigunState.cs:79-90 | a frame that ends in Drag drags the body that was already current |
| GravigunProperties.DragOnlyFromReady | Code/GravigunState.cs:87 | only Ready enters Drag, on a right press with the probe still on the current body |
| GravigunProperties.UpdateGrabLinks | Code/GravigunState.cs:109 | a frame that grabs a body leaves it locked with gravity off |
| GravigunProperties.BodiesPresentAppend | Code/GravigunController.cs:26 | two logs that call only actual bodies concatenate to one that does |
| GravigunProperties.SetStateBodiesPresent | Code/GravigunController.cs:50-55 | SetState calls no null body, provided a body is current whenever Drag is left or Drag or Throw is entered |
| GravigunProperties.StepBodiesPresent | Code/GravigunController.cs:57-58 | from a good configuration, neither a frame nor a physics step calls a null body |
| GravigunProperties.StepTicksSettled | Code/GravigunController.cs:57-58 | from a good configuration, a tick reaches only Idle, Ready or Drag |
| GravigunProperties.TicksSettledAppend | Code/GravigunController.cs:57-58 | two logs that tick only settled states concatenate to one that does |
| GravigunProperties.RunInvariants | Code/GravigunController.cs:57-58 | over any run of frames and physics steps from a good configuration: the configuration stays good; Throw and DryShot are never ticked; no null body is called; every body is locked exactly while it is dragged, given that this held at the start |
| GravigunProperties.Lifetime | Code/GravigunController.cs:34-58 | Awake followed by any ticks keeps every body locked exactly while it is dragged and never ticks a transient state |
| GravigunProperties.ReadyRoundTrip | Code/GravigunState.cs:79-98 | Idle → Ready → Idle by losing the target unsets the body again, and the ready effect started on entry is stopped on exit |
| GravigunController.Controller.constructor | Code/GravigunController.cs:26 | a fresh controller has no state and no body, has dragged no body yet, and satisfies the invariant |
| GravigunController.Controller.Awake | Code/GravigunController.cs:34-46 | creates the five states in order, then behaves as the reference Awake: effects initialised, Idle entered, invariant established |
| GravigunController.Controller.TryGetBody | Code/GravigunState.cs:21-34 | reports a body exactly when the ray hit a collider with a body component, and returns that component |
| GravigunController.Controller.SetState | Code/GravigunController.cs:50-55 | fields, log and current body end as the reference SetState says; only the current body may change, and only when Drag is left or Drag or Throw is entered |
| GravigunController.Controller.ExitCurrent | Code/GravigunController.cs:52 | exit marker and the current state's Exit when there is a current state; nothing otherwise |
| GravigunController.Controller.EnterState | Code/GravigunController.cs:54 | runs the new state's Enter as the reference Enter says |
| GravigunController.Controller.IdleEnter | Code/GravigunState.cs:41-45 | clears the current body and nothing else |
| GravigunController.Controller.ReadyEnter | Code/GravigunState.cs:71-77 | logs the ready effect, then the ready sound |
| GravigunController.Controller.ReadyExit | Code/GravigunState.cs:92-98 | logs stopping the ready effect, then the unready sound |
| GravigunController.Controller.DragEnter | Code/GravigunState.cs:105-112 | locks the current body (gravity off), then logs the drag effect and drag sound |
| GravigunController.Controller.DragExit | Code/GravigunState.cs:135-142 | unlocks the current body (gravity on), then logs stopping the drag effect and drag sound |
| GravigunController.Controller.ThrowEnter | Code/GravigunState.cs:149-159 | adds the mass-scaled impulse to the current body, logs effect and sound, then re-enters Idle from inside Enter |
| GravigunController.Controller.DryShotEnter | Code/GravigunState.cs:166-174 | logs the dry effect and sound, then re-enters Idle from inside Enter, touching no body |
| GravigunController.Controller.IdleUpdate | Code/GravigunState.cs:47-64 | behaves as the reference Idle update, touching no body |
| GravigunController.Controller.ReadyUpdate | Code/GravigunState.cs:79-90 | behaves as the reference Ready update |
| GravigunController.Controller.DragUpdate | Code/GravigunState.cs:114-127 | behaves as the reference Drag update |
| GravigunController.Controller.DragFixedUpdate | Code/GravigunState.cs:129-133 | one homing step of the current body toward the drag point |
| GravigunController.Controller.UpdateCurrent | Code/GravigunController.cs:57 | update marker and the current state's Update when there is a current state; nothing otherwise |
| GravigunController.Controller.Update | Code/GravigunController.cs:57 | behaves as the reference Update and keeps the invariant: the configuration stays good, and every dragged body is locked exactly while dragged, with gravity off exactly while locked; the dragged bodies grow by the current body exactly when the frame ends in Drag |
| GravigunController.Controller.FixedUpdate | Code/GravigunController.cs:58 | behaves as the reference FixedUpdate and keeps the invariant |

## Left out

- Code/Lightning.cs is not part of this model: it is line-renderer drawing with random jitter and timing, and has no state-machine logic.
- Code/GravigunEffectController.cs and Code/GravigunSoundController.cs are not part of this model.
  - Their `Init`, `Play*` and `Stop*` calls appear only as opaque log events.
  - Animator parameters, audio sources, coroutines and looping are not modelled.
- `Physics.Raycast` and `TryGetComponent` are not modelled. Their result is an input (`RayHit`), so the 10-unit `Range` does not constrain anything in the model.
- The mouse-button edges are boolean inputs of each frame.
- The camera transform is an input of each tick (`Aim`). The model does not capture that Awake reads `Camera.main`.
- Floating-point arithmetic is not modelled.
  - Vectors are over the reals.
  - Velocity is kept in polar form, which avoids square roots.
  - Unity's small-vector threshold in `normalized` is not modelled. The model's zero-distance homing speed of 0 is one choice, not a claim about Unity.
- Gravibody.HomingLaw: states the law for `sqrMagnitude > 0`, which over the reals is the same as distance d > 0.
- Physics integration is not modelled. Forces are only recorded in `applied`, and position is never advanced.
- Null dereferences are not modelled as exceptions.
  - The methods for Drag's Enter, Update, FixedUpdate and Exit and for Throw's Enter require a current body where the program would dereference it.
  - Ready's Update never dereferences the current body, it only compares it. Its method still requires one, because Ready is only ever entered with a body: `Good` states that, and `UpdateKeepsGood` proves it is kept.
  - `StepBodiesPresent` and `RunInvariants` prove that such a call never happens from a good configuration.
- `Gravibody.Awake`, which calls `GetComponent`, is not modelled, and neither are the `Position`/`Velocity` getters; these values are plain fields here.
- Unity's overloaded `==` for destroyed objects is not modelled; bodies compare by reference.
- GravigunController.Controller.Awake: requires a fresh controller (no state and no body), because the engine calls Awake once.
- GravigunController.Controller.Update: with several controllers sharing a body, `Valid` covers only the bodies this controller has dragged.
