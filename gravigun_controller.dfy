/** The gravity-gun controller as the program runs it: one object whose
    fields are the current state, the current body, the five state objects
    and the log of calls it has made. Each state's Enter, Update,
    FixedUpdate and Exit is a method that changes those fields and the
    current body exactly as the reference model in GravigunState says, and
    `SetState` calls the transient states' `Enter` re-entrantly, as the
    program does. */
module GravigunController {
  import opened Gravibody
  import opened GravigunState
  import opened GravigunProperties

  /** The body, if any, as a frame. */
  function Held(b: Body?): set<Body>
  {
    if b == null then {} else {b}
  }

  /** The bodies SetState(s) may change from configuration `c`: the current
      body, when Drag is left or Drag or Throw is entered. */
  function Touched(c: Config, s: StateKind): set<Body>
  {
    if c.state == Some(Drag) || s == Drag || s == Throw then Held(c.target) else {}
  }

  /** What the model sees of a possibly absent body. */
  function ViewOf(b: Body?): BodyView
    reads b
  {
    if b == null then BodyView(ZERO, REST, false, true, []) else b.View()
  }

  /** Regrouping a log that grew by two pieces, or by three. */
  lemma LogAppend(l: seq<Event>, a: seq<Event>, b: seq<Event>)
    ensures l + a + b == l + (a + b)
  {
  }

  lemma LogAppend3(l: seq<Event>, a: seq<Event>, b: seq<Event>, c: seq<Event>)
    ensures l + a + b + c == l + (a + b + c)
  {
  }

  /** SetState's log replayed on a body is its exit log, then its entry
      marker, then its Enter's log, replayed one after the other. */
  lemma SetStateComposes(c: Config, s: StateKind, aim: Aim, b: Body, v: BodyView, w: BodyView, x: BodyView)
    requires w == Replay(ExitLog(c), b, v)
    requires x == Replay(Enter(c.(state := Some(s)), s, aim).events, b, w)
    ensures x == Replay(SetState(c, s, aim).events, b, v)
  {
    var o := Enter(c.(state := Some(s)), s, aim);
    ReplayAppend(ExitLog(c), [Entered(s)], b, v);
    ReplayAppend(ExitLog(c) + [Entered(s)], o.events, b, v);
    assert [Entered(s)][1..] == [];
    assert SetState(c, s, aim).events == ExitLog(c) + [Entered(s)] + o.events;
  }

  class Controller {
    /** `_currentState`: none until Awake runs. */
    var currentState: Option<StateKind>
    /** `CurrentGravibody`. */
    var currentGravibody: Body?
    /** The state objects Awake creates, in creation order. */
    var states: seq<StateKind>
    /** Every call made on the effect controller, the sound controller and
        the current body, with the dispatch markers, oldest first. */
    var log: seq<Event>
    /** The bodies this controller has ever dragged. */
    ghost var Grabbed: set<Body>

    function Configuration(): Config
      reads this
    {
      Config(currentState, currentGravibody)
    }

    /** Between ticks: a good configuration, the five states created once
        Awake has run, and every body ever dragged locked exactly while it is
        being dragged, with gravity off exactly while it is locked. */
    ghost predicate Valid()
      reads this, Grabbed
    {
      && Good(Configuration())
      && (currentState.Some? ==> states == StateInstances())
      && (currentState == Some(Drag) ==> currentGravibody in Grabbed)
      && forall b :: b in Grabbed ==> b.locked == DraggedIn(Configuration(), b) && b.GravityLinked()
    }

    /** A controller before Awake: no state, no body, nothing logged. */
    constructor ()
      ensures Configuration() == Config(None, null) && states == [] && log == []
      ensures Grabbed == {}
      ensures Valid()
    {
      currentState := None;
      currentGravibody := null;
      states := [];
      log := [];
      Grabbed := {};
    }

    /** `Awake`: initialise the effects, create the five states, enter Idle. */
    method Awake(aim: Aim)
      requires Valid() && currentState.None? && currentGravibody == null
      modifies this`states, this`currentState, this`currentGravibody, this`log
      ensures Valid()
      ensures states == StateInstances()
      ensures Configuration() == GravigunState.Awake(old(Configuration()), aim).config
      ensures log == old(log) + GravigunState.Awake(old(Configuration()), aim).events
    {
      log := log + [InitEffects];
      states := StateInstances();
      SetState(Idle, aim);
      SetStateSettles(old(Configuration()), Idle, aim);
    }

    /** `TryGetBody`: the body component of what the probe hit, if any. */
    method TryGetBody(hit: RayHit) returns (found: bool, body: Body?)
      ensures found <==> body != null
      ensures found <==> hit.Hit? && hit.component != null
      ensures found ==> body == hit.component
    {
      body := null;
      if hit.Hit? {
        body := hit.component;
        if body != null {
          return true, body;
        }
      }
      return false, body;
    }

    /** `SetState`: the current state's Exit, if there is a current state;
        then `s` becomes current; then its Enter runs. */
    method SetState(s: StateKind, aim: Aim)
      requires (currentState == Some(Drag) || s == Drag || s == Throw) ==> currentGravibody != null
      modifies this`currentState, this`currentGravibody, this`log, Touched(Configuration(), s)
      ensures Configuration() == GravigunState.SetState(old(Configuration()), s, aim).config
      ensures log == old(log) + GravigunState.SetState(old(Configuration()), s, aim).events
      ensures old(currentGravibody) != null ==>
        old(currentGravibody).View() ==
        Replay(GravigunState.SetState(old(Configuration()), s, aim).events, old(currentGravibody), old(currentGravibody.View()))
      decreases Rank(s), 2
    {
      ghost var c := Configuration();
      ghost var b := currentGravibody;
      ghost var v := ViewOf(b);
      ExitCurrent();
      ghost var w := ViewOf(b);
      currentState := Some(s);
      log := log + [Entered(s)];
      EnterState(s, aim);
      SetStateUnfold(c, s, aim);
      ghost var o := GravigunState.Enter(c.(state := Some(s)), s, aim);
      assert Configuration() == o.config;
      assert log == old(log) + ExitLog(c) + [Entered(s)] + o.events;
      LogAppend3(old(log), ExitLog(c), [Entered(s)], o.events);
      if b != null {
        assert w == Replay(ExitLog(c), b, v);
        assert b.View() == Replay(o.events, b, w);
        SetStateComposes(c, s, aim, b, v, w, b.View());
      }
    }

    /** `_currentState?.Exit()`: the exit marker and the current state's
        Exit, if there is a current state; only Ready and Drag do anything. */
    method ExitCurrent()
      requires currentState == Some(Drag) ==> currentGravibody != null
      modifies this`log, if currentState == Some(Drag) then Held(currentGravibody) else {}
      ensures Configuration() == old(Configuration())
      ensures log == old(log) + ExitLog(old(Configuration()))
      ensures currentGravibody != null ==>
        currentGravibody.View() == Replay(ExitLog(old(Configuration())), currentGravibody, old(currentGravibody.View()))
    {
      if currentState.Some? {
        var k := currentState.value;
        log := log + [Exited(k)];
        ghost var e := ExitLog(Configuration());
        assert e == [Exited(k)] + Exit(k, currentGravibody);
        if currentGravibody != null {
          assert Replay(e, currentGravibody, old(currentGravibody.View())) ==
            Replay(Exit(k, currentGravibody), currentGravibody, old(currentGravibody.View()));
        }
        match k {
          case Ready =>
            ReadyExit();
            if currentGravibody != null {
              ReplayInert(Exit(k, currentGravibody), currentGravibody, currentGravibody.View());
            }
          case Drag =>
            DragExit();
            ExitDragReplay(currentGravibody, old(currentGravibody.View()));
          case _ =>
            if currentGravibody != null {
              ReplayInert(Exit(k, currentGravibody), currentGravibody, currentGravibody.View());
            }
        }
      }
    }

    /** The new state's Enter. */
    method EnterState(s: StateKind, aim: Aim)
      requires currentState == Some(s)
      requires s == Drag || s == Throw ==> currentGravibody != null
      modifies this`currentState, this`currentGravibody, this`log, if s == Drag || s == Throw then Held(currentGravibody) else {}
      ensures Configuration() == GravigunState.Enter(old(Configuration()), s, aim).config
      ensures log == old(log) + GravigunState.Enter(old(Configuration()), s, aim).events
      ensures old(currentGravibody) != null ==>
        old(currentGravibody).View() ==
        Replay(GravigunState.Enter(old(Configuration()), s, aim).events, old(currentGravibody), old(currentGravibody.View()))
      decreases Rank(s), 1
    {
      ghost var c := Configuration();
      ghost var b := currentGravibody;
      match s {
        case Idle => IdleEnter();
        case Ready =>
          ReadyEnter();
          if b != null {
            ReplayInert(GravigunState.Enter(c, s, aim).events, b, b.View());
          }
        case Drag =>
          DragEnter();
          EnterDragReplay(b, aim, old(b.View()));
        case Throw =>
          ThrowEnter(aim);
          ThrowImpulseScalesWithMass(c, aim, b, old(b.View()));
        case DryShot =>
          DryShotEnter(aim);
          SetStateDryShot(c, aim);
          if b != null {
            ReplayInert(GravigunState.Enter(c, s, aim).events, b, b.View());
          }
      }
    }

    /** Idle's Enter: clear the current body. */
    method IdleEnter()
      modifies this`currentState, this`currentGravibody, this`log
      ensures log == old(log)
      ensures Configuration() == old(Configuration()).(target := null)
    {
      currentGravibody := null;
    }

    /** Ready's Enter: the ready effect, then the ready sound. */
    method ReadyEnter()
      modifies this`currentState, this`currentGravibody, this`log
      ensures Configuration() == old(Configuration())
      ensures log == old(log) + [PlayReadyEffect, PlayReadySound]
    {
      log := log + [PlayReadyEffect];
      log := log + [PlayReadySound];
    }

    /** Ready's Exit: stop the ready effect, then the unready sound. */
    method ReadyExit()
      modifies this`log
      ensures Configuration() == old(Configuration())
      ensures log == old(log) + [StopReadyEffect, PlayUnreadySound]
    {
      log := log + [StopReadyEffect];
      log := log + [PlayUnreadySound];
    }

    /** Drag's Enter: lock the current body, then the drag effect and sound. */
    method DragEnter()
      requires currentGravibody != null
      modifies this`currentState, this`currentGravibody, this`log, currentGravibody
      ensures Configuration() == old(Configuration())
      ensures log == old(log) + [BodyLocked(currentGravibody, true), PlayDragEffect, PlayDragSound]
      ensures currentGravibody.View() == old(currentGravibody.View()).(locked := true, useGravity := false)
    {
      currentGravibody.SetLocked(true);
      log := log + [BodyLocked(currentGravibody, true)];
      log := log + [PlayDragEffect];
      log := log + [PlayDragSound];
    }

    /** Drag's Exit: unlock the current body, then stop the drag effect and sound. */
    method DragExit()
      requires currentGravibody != null
      modifies this`log, currentGravibody
      ensures Configuration() == old(Configuration())
      ensures log == old(log) + [BodyLocked(currentGravibody, false), StopDragEffect, StopDragSound]
      ensures currentGravibody.View() == old(currentGravibody.View()).(locked := false, useGravity := true)
    {
      currentGravibody.SetLocked(false);
      log := log + [BodyLocked(currentGravibody, false)];
      log := log + [StopDragEffect];
      log := log + [StopDragSound];
    }

    /** Throw's Enter: the impulse on the current body, the throw effect and
        sound, then back to Idle from inside Enter. */
    method ThrowEnter(aim: Aim)
      requires currentState == Some(Throw) && currentGravibody != null
      modifies this`currentState, this`currentGravibody, this`log, currentGravibody
      ensures Configuration() == GravigunState.Enter(old(Configuration()), Throw, aim).config
      ensures log == old(log) + GravigunState.Enter(old(Configuration()), Throw, aim).events
      ensures old(currentGravibody).View() ==
        old(currentGravibody.View()).(applied := old(currentGravibody.applied) + [AppliedForce(Scale(ThrowForce(aim), old(currentGravibody).mass), Impulse)])
      decreases 1, 0
    {
      var body := currentGravibody;
      body.AddForce(ThrowForce(aim), Impulse);
      log := log + [BodyForce(body, ThrowForce(aim), Impulse)];
      log := log + [PlayThrowEffect(ThrowEffectTarget(aim))];
      log := log + [PlayThrowSound];
      ghost var pre := [BodyForce(body, ThrowForce(aim), Impulse), PlayThrowEffect(ThrowEffectTarget(aim)), PlayThrowSound];
      assert log == old(log) + pre;
      SetState(Idle, aim);
      LogAppend(old(log), pre, GravigunState.SetState(old(Configuration()), Idle, aim).events);
    }

    /** DryShot's Enter: the dry effect and sound, then back to Idle from inside Enter. */
    method DryShotEnter(aim: Aim)
      requires currentState == Some(DryShot)
      modifies this`currentState, this`currentGravibody, this`log
      ensures Configuration() == GravigunState.Enter(old(Configuration()), DryShot, aim).config
      ensures log == old(log) + GravigunState.Enter(old(Configuration()), DryShot, aim).events
      decreases 1, 0
    {
      log := log + [PlayDryEffect];
      log := log + [PlayDrySound];
      assert log == old(log) + [PlayDryEffect, PlayDrySound];
      SetState(Idle, aim);
      LogAppend(old(log), [PlayDryEffect, PlayDrySound], GravigunState.SetState(old(Configuration()), Idle, aim).events);
    }

    /** Idle's Update: acquire a body and become Ready, or dry-fire on a press. */
    method IdleUpdate(input: FrameInput)
      requires currentState == Some(Idle)
      modifies this`currentState, this`currentGravibody, this`log
      ensures Configuration() == GravigunState.IdleUpdate(old(Configuration()), input).config
      ensures log == old(log) + GravigunState.IdleUpdate(old(Configuration()), input).events
    {
      var found, body := TryGetBody(input.hit);
      if found {
        currentGravibody := body;
        SetState(Ready, input.aim);
      } else if input.rightPressed || input.leftPressed {
        SetState(DryShot, input.aim);
      }
    }

    /** Ready's Update: lose the body, retarget, or grab (right) or throw (left). */
    method ReadyUpdate(input: FrameInput)
      requires currentState == Some(Ready) && currentGravibody != null
      modifies this`currentState, this`currentGravibody, this`log, currentGravibody
      ensures Configuration() == GravigunState.ReadyUpdate(old(Configuration()), input).config
      ensures log == old(log) + GravigunState.ReadyUpdate(old(Configuration()), input).events
      ensures old(currentGravibody).View() ==
        Replay(GravigunState.ReadyUpdate(old(Configuration()), input).events, old(currentGravibody), old(currentGravibody.View()))
    {
      var found, body := TryGetBody(input.hit);
      if !found {
        SetState(Idle, input.aim);
      } else if body != currentGravibody {
        currentGravibody := body;
      } else if input.rightPressed {
        SetState(Drag, input.aim);
      } else if input.leftPressed {
        SetState(Throw, input.aim);
      }
    }

    /** Drag's Update: release with a sound (right) or throw (left). */
    method DragUpdate(input: FrameInput)
      requires currentState == Some(Drag) && currentGravibody != null
      modifies this`currentState, this`currentGravibody, this`log, currentGravibody
      ensures Configuration() == GravigunState.DragUpdate(old(Configuration()), input).config
      ensures log == old(log) + GravigunState.DragUpdate(old(Configuration()), input).events
      ensures old(currentGravibody).View() ==
        Replay(GravigunState.DragUpdate(old(Configuration()), input).events, old(currentGravibody), old(currentGravibody.View()))
    {
      ghost var c := Configuration();
      ghost var b := currentGravibody;
      ghost var v := b.View();
      if input.rightPressed {
        log := log + [PlayReleaseSound];
        SetState(Idle, input.aim);
        ghost var e := GravigunState.SetState(c, Idle, input.aim).events;
        LogAppend(old(log), [PlayReleaseSound], e);
        ReplayAppend([PlayReleaseSound], e, b, v);
        assert GravigunState.DragUpdate(c, input).events == [PlayReleaseSound] + e;
      } else if input.leftPressed {
        SetState(Throw, input.aim);
      }
    }

    /** Drag's FixedUpdate: one homing step of the current body toward the drag point. */
    method DragFixedUpdate(aim: Aim)
      requires currentGravibody != null
      modifies currentGravibody
      ensures currentGravibody.View() ==
        old(currentGravibody.View()).(velocity := HomingVelocity(Sub(DragPoint(aim), old(currentGravibody.position))))
    {
      currentGravibody.Move(DragPoint(aim));
    }

    /** `_currentState?.Update()`: the update marker and the current
        state's Update, if there is a current state. */
    method UpdateCurrent(input: FrameInput)
      requires currentState == Some(Ready) || currentState == Some(Drag) ==> currentGravibody != null
      modifies this`currentState, this`currentGravibody, this`log,
        if currentState == Some(Ready) || currentState == Some(Drag) then Held(currentGravibody) else {}
      ensures Configuration() == GravigunState.Update(old(Configuration()), input).config
      ensures log == old(log) + GravigunState.Update(old(Configuration()), input).events
      ensures old(currentGravibody) != null ==>
        old(currentGravibody).View() ==
        Replay(GravigunState.Update(old(Configuration()), input).events, old(currentGravibody), old(currentGravibody.View()))
    {
      ghost var c := Configuration();
      ghost var b := currentGravibody;
      ghost var v := ViewOf(b);
      if currentState.Some? {
        var k := currentState.value;
        log := log + [Updated(k)];
        match k {
          case Idle => IdleUpdate(input);
          case Ready => ReadyUpdate(input);
          case Drag => DragUpdate(input);
          case _ =>
        }
        ghost var o := StateUpdate(c, k, input);
        LogAppend(old(log), [Updated(k)], o.events);
        if b != null {
          if k == Idle {
            IdleUpdateTouchesNoBody(c, input);
            ReplayInert(o.events, b, b.View());
          }
          ReplayAppend([Updated(k)], o.events, b, v);
        }
      }
    }

    /** `Update`: the current state's Update, if there is a current state.
        Keeps the invariant: every body ever dragged is locked exactly while
        it is being dragged. */
    method Update(input: FrameInput)
      requires Valid()
      modifies this`currentState, this`currentGravibody, this`log, this`Grabbed, Held(currentGravibody)
      ensures Valid()
      ensures Grabbed == old(Grabbed) + if currentState == Some(Drag) then Held(currentGravibody) else {}
      ensures Configuration() == GravigunState.Update(old(Configuration()), input).config
      ensures log == old(log) + GravigunState.Update(old(Configuration()), input).events
      ensures old(currentGravibody) != null ==>
        old(currentGravibody).View() ==
        Replay(GravigunState.Update(old(Configuration()), input).events, old(currentGravibody), old(currentGravibody.View()))
    {
      ghost var c := Configuration();
      ghost var b := currentGravibody;
      ghost var v := ViewOf(b);
      UpdateCurrent(input);
      if currentState == Some(Drag) {
        Grabbed := Grabbed + Held(currentGravibody);
      }
      ghost var o := GravigunState.Update(c, input);
      UpdateKeepsGood(c, input);
      UpdateKeepsDragged(c, input);
      forall x | x in Grabbed
        ensures x.locked == DraggedIn(Configuration(), x) && x.GravityLinked()
      {
        if x == b {
          if x in old(Grabbed) {
            UpdateLockAgreement(c, input, x, v);
            ReplayKeepsGravityLinked(o.events, x, v);
          } else {
            UpdateGrabLinks(c, input, x, v);
          }
        }
      }
    }

    /** `FixedUpdate`: the current state's FixedUpdate, if there is a current state. */
    method FixedUpdate(aim: Aim)
      requires Valid()
      modifies this`currentState, this`currentGravibody, this`log, Held(currentGravibody)
      ensures Valid()
      ensures Configuration() == GravigunState.FixedUpdate(old(Configuration()), aim).config
      ensures log == old(log) + GravigunState.FixedUpdate(old(Configuration()), aim).events
      ensures old(currentGravibody) != null ==>
        old(currentGravibody).View() ==
        Replay(GravigunState.FixedUpdate(old(Configuration()), aim).events, old(currentGravibody), old(currentGravibody.View()))
    {
      ghost var b := currentGravibody;
      ghost var v := if b != null then b.View() else BodyView(ZERO, REST, false, true, []);
      if currentState.Some? {
        var k := currentState.value;
        log := log + [FixedUpdated(k)];
        if k == Drag {
          log := log + [BodyMoved(currentGravibody, DragPoint(aim))];
          DragFixedUpdate(aim);
        }
      }
      if b != null && currentState == Some(Drag) {
        assert GravigunState.FixedUpdate(old(Configuration()), aim).events ==
          [FixedUpdated(Drag)] + [BodyMoved(b, DragPoint(aim))];
        ReplayAppend([FixedUpdated(Drag)], [BodyMoved(b, DragPoint(aim))], b, v);
      }
    }
  }
}
