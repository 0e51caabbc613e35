/** Properties of the reference model of the gravity gun: the ordering of
    exit and entry, where the transient states come to rest, what each state
    does on a frame, trigger priority, which calls move or lock the body, and
    the invariants a run of ticks keeps. */
module GravigunProperties {
  import opened Gravibody
  import opened GravigunState

  /** Where SetState(s) comes to rest: the transient states fall through to Idle. */
  function Settle(s: StateKind): StateKind { if IsTransient(s) then Idle else s }

  /** SetState(s) ends in s, or in Idle when s is transient; entering Idle
      clears the current body and every other state keeps it. */
  lemma SetStateSettles(c: Config, s: StateKind, aim: Aim)
    ensures SetState(c, s, aim).config.state == Some(Settle(s))
    ensures SetState(c, s, aim).config.target == if Settle(s) == Idle then null else c.target
  {
  }

  /** SetState runs the old state's Exit before the new state's Enter: the log
      opens with the old state's exit marker (when there is an old state),
      then exactly that state's Exit effects, then the new state's entry
      marker, with no other exit or entry between them. */
  lemma SetStateExitsBeforeEntering(c: Config, s: StateKind, aim: Aim)
    ensures var e := SetState(c, s, aim).events;
      && (c.state.None? ==> |e| > 0 && e[0] == Entered(s))
      && (c.state.Some? ==>
            && |e| > 0 && e[0] == Exited(c.state.value)
            && exists i :: 0 < i < |e| && e[i] == Entered(s) &&
                 e[1..i] == Exit(c.state.value, c.target) &&
                 forall j :: 0 < j < i ==> !e[j].Exited? && !e[j].Entered?)
  {
    if c.state.Some? {
      var e := SetState(c, s, aim).events;
      var i := 1 + |Exit(c.state.value, c.target)|;
      assert e[i] == Entered(s);
      assert e[1..i] == Exit(c.state.value, c.target);
    }
  }

  /** Because the new state is current before its Enter runs, the nested
      SetState(Idle) of a transient state exits that transient state: the log
      ends with its exit marker and Idle's entry marker. */
  lemma TransientExitsItself(c: Config, s: StateKind, aim: Aim)
    requires IsTransient(s)
    ensures var e := SetState(c, s, aim).events;
      |e| >= 2 && e[|e| - 2..] == [Exited(s), Entered(Idle)]
    ensures SetState(c, s, aim).config == Config(Some(Idle), null)
  {
  }

  /** The exit events of the current state, as SetState logs them. */
  function ExitLog(c: Config): seq<Event>
  {
    if c.state.Some? then [Exited(c.state.value)] + Exit(c.state.value, c.target) else []
  }

  /** SetState, one level unfolded. */
  lemma SetStateUnfold(c: Config, s: StateKind, aim: Aim)
    ensures var o := Enter(c.(state := Some(s)), s, aim);
      SetState(c, s, aim) == Outcome(o.config, ExitLog(c) + [Entered(s)] + o.events)
  {
  }

  /** Drag's Exit seen as a log: the body ends unlocked with gravity on. */
  lemma ExitDragReplay(b: Body, v: BodyView)
    ensures Replay(Exit(Drag, b), b, v) == v.(locked := false, useGravity := true)
  {
    var e := Exit(Drag, b);
    assert e[1..] == [StopDragEffect, StopDragSound];
    ReplayInert(e[1..], b, Effect(e[0], b, v));
  }

  /** Drag's Enter seen as a log: the body ends locked with gravity off. */
  lemma EnterDragReplay(b: Body, aim: Aim, v: BodyView)
    ensures Replay(Enter(Config(Some(Drag), b), Drag, aim).events, b, v) == v.(locked := true, useGravity := false)
  {
    var e := Enter(Config(Some(Drag), b), Drag, aim).events;
    assert e[1..] == [PlayDragEffect, PlayDragSound];
    ReplayInert(e[1..], b, Effect(e[0], b, v));
  }

  /** SetState(Throw) written out: exit, entry, impulse, effect, sound, then
      Throw's own exit and Idle's entry. */
  lemma SetStateThrow(c: Config, aim: Aim)
    ensures SetState(c, Throw, aim) ==
      Outcome(Config(Some(Idle), null),
              ExitLog(c) + [Entered(Throw), BodyForce(c.target, ThrowForce(aim), Impulse),
                            PlayThrowEffect(ThrowEffectTarget(aim)), PlayThrowSound,
                            Exited(Throw), Entered(Idle)])
  {
    var t := c.(state := Some(Throw));
    assert SetState(t, Idle, aim) == Outcome(Config(Some(Idle), null), [Exited(Throw), Entered(Idle)]);
  }

  /** SetState(DryShot) written out: exit, entry, dry effect, dry sound, then
      DryShot's own exit and Idle's entry. */
  lemma SetStateDryShot(c: Config, aim: Aim)
    ensures SetState(c, DryShot, aim) ==
      Outcome(Config(Some(Idle), null),
              ExitLog(c) + [Entered(DryShot), PlayDryEffect, PlayDrySound, Exited(DryShot), Entered(Idle)])
  {
    var t := c.(state := Some(DryShot));
    assert SetState(t, Idle, aim) == Outcome(Config(Some(Idle), null), [Exited(DryShot), Entered(Idle)]);
  }

  /** Idle's Enter always clears the current body. */
  lemma IdleEnterClears(c: Config, aim: Aim)
    ensures SetState(c, Idle, aim).config.target == null
  {
  }

  // ---------------------------------------------------------------------
  // One frame in each state

  /** Idle, probe finds a body: the body becomes current, then Ready is entered. */
  lemma IdleAcquires(c: Config, input: FrameInput)
    requires c.state == Some(Idle)
    requires Acquired(input.hit) != null
    ensures var o := Update(c, input);
      && o.config == Config(Some(Ready), Acquired(input.hit))
      && o.events == [Updated(Idle), Exited(Idle), Entered(Ready), PlayReadyEffect, PlayReadySound]
  {
  }

  /** Idle, no body and a press of either button: a dry shot (effect, then
      sound) and back to Idle with no body. */
  lemma IdleDryShot(c: Config, input: FrameInput)
    requires c.state == Some(Idle)
    requires Acquired(input.hit) == null
    requires input.rightPressed || input.leftPressed
    ensures var o := Update(c, input);
      && o.config == Config(Some(Idle), null)
      && o.events == [Updated(Idle), Exited(Idle), Entered(DryShot), PlayDryEffect, PlayDrySound,
                      Exited(DryShot), Entered(Idle)]
  {
  }

  /** Idle, no body and no press: nothing changes. */
  lemma IdleWaits(c: Config, input: FrameInput)
    requires c.state == Some(Idle)
    requires Acquired(input.hit) == null
    requires !input.rightPressed && !input.leftPressed
    ensures Update(c, input) == Outcome(c, [Updated(Idle)])
  {
  }

  /** Ready, probe misses: Ready's exit effects, then Idle with no body. */
  lemma ReadyLosesTarget(c: Config, input: FrameInput)
    requires c.state == Some(Ready)
    requires Acquired(input.hit) == null
    ensures var o := Update(c, input);
      && o.config == Config(Some(Idle), null)
      && o.events == [Updated(Ready), Exited(Ready), StopReadyEffect, PlayUnreadySound, Entered(Idle)]
  {
  }

  /** Ready, probe finds another body: retarget only; the state stays Ready,
      nothing is replayed, and the buttons are ignored this frame. */
  lemma ReadyRetargets(c: Config, input: FrameInput)
    requires c.state == Some(Ready)
    requires Acquired(input.hit) != null && Acquired(input.hit) != c.target
    ensures Update(c, input) == Outcome(Config(Some(Ready), Acquired(input.hit)), [Updated(Ready)])
  {
  }

  /** Ready, same body: the right button wins and grabs; otherwise the left
      button throws; otherwise nothing happens. */
  lemma ReadyTriggerPriority(c: Config, input: FrameInput)
    requires c.state == Some(Ready)
    requires c.target != null && Acquired(input.hit) == c.target
    ensures var o := Update(c, input);
      && (input.rightPressed ==>
            && o.config == Config(Some(Drag), c.target)
            && o.events == [Updated(Ready), Exited(Ready), StopReadyEffect, PlayUnreadySound,
                            Entered(Drag), BodyLocked(c.target, true), PlayDragEffect, PlayDragSound])
      && (!input.rightPressed && input.leftPressed ==>
            && o.config == Config(Some(Idle), null)
            && o.events == [Updated(Ready), Exited(Ready), StopReadyEffect, PlayUnreadySound,
                            Entered(Throw), BodyForce(c.target, ThrowForce(input.aim), Impulse),
                            PlayThrowEffect(ThrowEffectTarget(input.aim)), PlayThrowSound,
                            Exited(Throw), Entered(Idle)])
      && (!input.rightPressed && !input.leftPressed ==> o == Outcome(c, [Updated(Ready)]))
  {
    assert ReadyUpdate(c, input) ==
      if input.rightPressed then SetState(c, Drag, input.aim)
      else if input.leftPressed then SetState(c, Throw, input.aim)
      else Outcome(c, []);
    assert Update(c, input) == Outcome(ReadyUpdate(c, input).config, [Updated(Ready)] + ReadyUpdate(c, input).events);
    if input.rightPressed {
      assert ExitLog(c) == [Exited(Ready), StopReadyEffect, PlayUnreadySound];
      assert SetState(c, Drag, input.aim) == Outcome(Config(Some(Drag), c.target), ExitLog(c) +
        [Entered(Drag), BodyLocked(c.target, true), PlayDragEffect, PlayDragSound]);
    } else if input.leftPressed {
      SetStateThrow(c, input.aim);
    }
  }

  /** Drag, right button: the release sound, then Drag's Exit unlocks the body, then Idle. */
  lemma DragReleases(c: Config, input: FrameInput)
    requires c.state == Some(Drag)
    requires input.rightPressed
    ensures var o := Update(c, input);
      && o.config == Config(Some(Idle), null)
      && o.events == [Updated(Drag), PlayReleaseSound, Exited(Drag), BodyLocked(c.target, false),
                      StopDragEffect, StopDragSound, Entered(Idle)]
  {
  }

  /** Drag, left button only: Drag's Exit unlocks the body before Throw
      applies the impulse, and no release sound is played. */
  lemma DragThrows(c: Config, input: FrameInput)
    requires c.state == Some(Drag)
    requires !input.rightPressed && input.leftPressed
    ensures var o := Update(c, input);
      && o.config == Config(Some(Idle), null)
      && o.events == [Updated(Drag), Exited(Drag), BodyLocked(c.target, false), StopDragEffect, StopDragSound,
                      Entered(Throw), BodyForce(c.target, ThrowForce(input.aim), Impulse),
                      PlayThrowEffect(ThrowEffectTarget(input.aim)), PlayThrowSound,
                      Exited(Throw), Entered(Idle)]
      && PlayReleaseSound !in o.events
  {
    SetStateThrow(c, input.aim);
  }

  /** Throw's Enter: exactly one impulse of CameraDirection * 200 on the
      current body, then the throw effect aimed 25 units along the camera
      ray, then the throw sound; and it ends in Idle with no body. */
  lemma ThrowEnterLogs(c: Config, aim: Aim)
    ensures var o := Enter(c.(state := Some(Throw)), Throw, aim);
      && o.config == Config(Some(Idle), null)
      && o.events[..3] == [BodyForce(c.target, Scale(aim.forward, 200.0), Impulse),
                           PlayThrowEffect(Add(aim.position, Scale(aim.forward, 25.0))), PlayThrowSound]
      && forall i :: 3 <= i < |o.events| ==> !IsBodyEvent(o.events[i])
  {
  }

  /** The body receives the throw impulse scaled by its mass, in impulse mode. */
  lemma ThrowImpulseScalesWithMass(c: Config, aim: Aim, b: Body, v: BodyView)
    requires c.target == b
    ensures var o := Enter(c.(state := Some(Throw)), Throw, aim);
      Replay(o.events, b, v) == v.(applied := v.applied + [AppliedForce(Scale(Scale(aim.forward, 200.0), b.mass), Impulse)])
  {
    var o := Enter(c.(state := Some(Throw)), Throw, aim);
    assert o.events == [BodyForce(b, ThrowForce(aim), Impulse)] + o.events[1..];
    ReplayInert(o.events[1..], b, Effect(o.events[0], b, v));
  }

  /** No frame update moves a body. */
  lemma UpdateNeverMoves(c: Config, input: FrameInput)
    ensures forall i :: 0 <= i < |Update(c, input).events| ==> !Update(c, input).events[i].BodyMoved?
  {
    if c.state.Some? {
      NoTickMarkers(c, c.state.value, input);
      var e := StateUpdate(c, c.state.value, input).events;
      assert Update(c, input).events == [Updated(c.state.value)] + e;
    }
  }

  /** A physics tick runs only the current state's FixedUpdate, and nothing
      without a current state; it changes nothing but, in Drag, homes the
      current body to the drag point. */
  lemma FixedUpdateMovesOnlyInDrag(c: Config, aim: Aim)
    ensures FixedUpdate(c, aim).config == c
    ensures c.state.None? ==> FixedUpdate(c, aim) == Outcome(c, [])
    ensures var e := FixedUpdate(c, aim).events;
      c.state.Some? ==>
        && |e| > 0 && e[0] == FixedUpdated(c.state.value)
        && forall i :: 0 < i < |e| ==> !e[i].Updated? && !e[i].FixedUpdated?
    ensures var e := FixedUpdate(c, aim).events;
      && (c.state == Some(Drag) ==> e == [FixedUpdated(Drag), BodyMoved(c.target, DragPoint(aim))])
      && (c.state != Some(Drag) ==> forall i :: 0 <= i < |e| ==> !IsBodyEvent(e[i]))
  {
  }

  /** Update runs only the current state's Update, and nothing without a current state. */
  lemma UpdateDispatches(c: Config, input: FrameInput)
    ensures var e := Update(c, input).events;
      && (c.state.None? ==> Update(c, input) == Outcome(c, []))
      && (c.state.Some? ==>
            && |e| > 0 && e[0] == Updated(c.state.value)
            && forall i :: 0 < i < |e| ==> !e[i].Updated? && !e[i].FixedUpdated?)
  {
    if c.state.Some? {
      NoTickMarkers(c, c.state.value, input);
    }
  }

  /** A log with no tick marker and no move of a body. */
  predicate Quiet(e: seq<Event>)
  {
    forall i :: 0 <= i < |e| ==> !e[i].Updated? && !e[i].FixedUpdated? && !e[i].BodyMoved?
  }

  /** The markers SetState logs are only exit and entry markers, and it moves no body. */
  lemma SetStateLogsNoTicks(c: Config, s: StateKind, aim: Aim)
    ensures Quiet(SetState(c, s, aim).events)
  {
    if IsTransient(s) {
      if s == Throw { SetStateThrow(c, aim); } else { SetStateDryShot(c, aim); }
    }
  }

  /** A state's Update logs no tick marker and moves no body. */
  lemma NoTickMarkers(c: Config, k: StateKind, input: FrameInput)
    ensures Quiet(StateUpdate(c, k, input).events)
  {
    var aim := input.aim;
    var body := Acquired(input.hit);
    match k
    case Idle =>
      if body != null {
        SetStateLogsNoTicks(c.(target := body), Ready, aim);
      } else if input.rightPressed || input.leftPressed {
        SetStateLogsNoTicks(c, DryShot, aim);
      }
    case Ready =>
      if body == null {
        SetStateLogsNoTicks(c, Idle, aim);
      } else if body != c.target {
      } else if input.rightPressed {
        SetStateLogsNoTicks(c, Drag, aim);
      } else if input.leftPressed {
        SetStateLogsNoTicks(c, Throw, aim);
      }
    case Drag =>
      if input.rightPressed {
        SetStateLogsNoTicks(c, Idle, aim);
        var e := SetState(c, Idle, aim).events;
        assert StateUpdate(c, Drag, input).events == [PlayReleaseSound] + e;
        assert Quiet([PlayReleaseSound] + e) by {
          forall i | 0 <= i < |[PlayReleaseSound] + e|
            ensures !([PlayReleaseSound] + e)[i].Updated? && !([PlayReleaseSound] + e)[i].FixedUpdated?
                    && !([PlayReleaseSound] + e)[i].BodyMoved?
          {
            if i > 0 { assert ([PlayReleaseSound] + e)[i] == e[i - 1]; }
          }
        }
      } else if input.leftPressed {
        SetStateLogsNoTicks(c, Throw, aim);
      }
    case _ =>
  }

  /** Awake initialises the effects and then enters Idle with no body. */
  lemma AwakeStartsIdle(aim: Aim)
    ensures Awake(Config(None, null), aim) == Outcome(Config(Some(Idle), null), [InitEffects, Entered(Idle)])
  {
  }

  // ---------------------------------------------------------------------
  // Locking: a body is locked exactly while it is being dragged

  /** Body `b` is the body the controller is dragging. */
  predicate DraggedIn(c: Config, b: Body) { c.state == Some(Drag) && c.target == b }

  /** Only a lock event changes whether a body is locked. */
  lemma {:induction false} ReplayWithoutLocks(events: seq<Event>, b: Body, v: BodyView)
    requires forall i :: 0 <= i < |events| ==> !events[i].BodyLocked?
    ensures Replay(events, b, v).locked == v.locked
    ensures Replay(events, b, v).useGravity == v.useGravity
    decreases |events|
  {
    if events != [] {
      ReplayWithoutLocks(events[1..], b, Effect(events[0], b, v));
    }
  }

  /** No call on a body changes its position: forces are only recorded and
      a move sets the velocity. */
  lemma {:induction false} ReplayKeepsPosition(events: seq<Event>, b: Body, v: BodyView)
    ensures Replay(events, b, v).position == v.position
    decreases |events|
  {
    if events != [] {
      ReplayKeepsPosition(events[1..], b, Effect(events[0], b, v));
    }
  }

  /** Every call on a body keeps `useGravity == !Locked` once it holds. */
  lemma {:induction false} ReplayKeepsGravityLinked(events: seq<Event>, b: Body, v: BodyView)
    requires v.useGravity == !v.locked
    ensures var w := Replay(events, b, v); w.useGravity == !w.locked
    decreases |events|
  {
    if events != [] {
      ReplayKeepsGravityLinked(events[1..], b, Effect(events[0], b, v));
    }
  }

  /** The exit log leaves no body locked, given that only the dragged body was. */
  lemma ExitUnlocks(c: Config, b: Body, v: BodyView)
    requires v.locked == DraggedIn(c, b)
    ensures Replay(ExitLog(c), b, v).locked == false
  {
    if c.state == Some(Drag) {
      var e := ExitLog(c);
      assert e == [Exited(Drag), BodyLocked(c.target, false)] + [StopDragEffect, StopDragSound];
      ReplayAppend([Exited(Drag), BodyLocked(c.target, false)], [StopDragEffect, StopDragSound], b, v);
      var two := [Exited(Drag), BodyLocked(c.target, false)];
      assert two[1..] == [BodyLocked(c.target, false)] && two[1..][1..] == [];
      var w := Effect(BodyLocked(c.target, false), b, Effect(Exited(Drag), b, v));
      assert Replay(two, b, v) == Replay([], b, w);
      assert !w.locked;
      ReplayWithoutLocks([StopDragEffect, StopDragSound], b, Replay(two, b, v));
    } else {
      ReplayWithoutLocks(ExitLog(c), b, v);
    }
  }

  /** SetState keeps "locked exactly while dragged": the old state's Exit
      unlocks the dragged body, and only Drag's Enter locks one. */
  lemma SetStateLockAgreement(c: Config, s: StateKind, aim: Aim, b: Body, v: BodyView)
    requires v.locked == DraggedIn(c, b)
    ensures var o := SetState(c, s, aim); Replay(o.events, b, v).locked == DraggedIn(o.config, b)
    decreases Rank(s), 1
  {
    var pre := ExitLog(c) + [Entered(s)];
    var o := Enter(c.(state := Some(s)), s, aim);
    assert SetState(c, s, aim).events == pre + o.events;
    ReplayAppend(pre, o.events, b, v);
    ReplayAppend(ExitLog(c), [Entered(s)], b, v);
    ExitUnlocks(c, b, v);
    ReplayWithoutLocks([Entered(s)], b, Replay(ExitLog(c), b, v));
    EnterLockAgreement(c.(state := Some(s)), s, aim, b, Replay(pre, b, v));
  }

  /** After Enter, a body that was unlocked is locked exactly when Drag holds it. */
  lemma EnterLockAgreement(c: Config, s: StateKind, aim: Aim, b: Body, v: BodyView)
    requires c.state == Some(s) && !v.locked
    ensures var o := Enter(c, s, aim); Replay(o.events, b, v).locked == DraggedIn(o.config, b)
    decreases Rank(s), 0
  {
    if IsTransient(s) {
      TransientEnterSplit(c, s, aim, b, v);
      SetStateLockAgreement(c, Idle, aim, b, Replay(TransientPrefix(c, s, aim), b, v));
    } else {
      SteadyEnterLockAgreement(c, s, aim, b, v);
    }
  }

  /** Enter of Idle, Ready or Drag locks a body exactly when Drag holds it. */
  lemma SteadyEnterLockAgreement(c: Config, s: StateKind, aim: Aim, b: Body, v: BodyView)
    requires c.state == Some(s) && !IsTransient(s) && !v.locked
    ensures var o := Enter(c, s, aim); Replay(o.events, b, v).locked == DraggedIn(o.config, b)
  {
    var o := Enter(c, s, aim);
    if s == Drag {
      assert o.events == [BodyLocked(c.target, true)] + [PlayDragEffect, PlayDragSound];
      ReplayAppend([BodyLocked(c.target, true)], [PlayDragEffect, PlayDragSound], b, v);
      ReplayWithoutLocks([PlayDragEffect, PlayDragSound], b, Replay([BodyLocked(c.target, true)], b, v));
    } else {
      ReplayWithoutLocks(o.events, b, v);
    }
  }

  /** What a transient state's Enter logs before its nested SetState(Idle). */
  function TransientPrefix(c: Config, s: StateKind, aim: Aim): seq<Event>
  {
    if s == Throw then [BodyForce(c.target, ThrowForce(aim), Impulse), PlayThrowEffect(ThrowEffectTarget(aim)), PlayThrowSound]
    else [PlayDryEffect, PlayDrySound]
  }

  /** A transient state's Enter is its prefix, which locks and unlocks
      nothing, followed by SetState(Idle). */
  lemma TransientEnterSplit(c: Config, s: StateKind, aim: Aim, b: Body, v: BodyView)
    requires IsTransient(s)
    ensures Enter(c, s, aim).config == SetState(c, Idle, aim).config
    ensures Replay(Enter(c, s, aim).events, b, v) ==
      Replay(SetState(c, Idle, aim).events, b, Replay(TransientPrefix(c, s, aim), b, v))
    ensures Replay(TransientPrefix(c, s, aim), b, v).locked == v.locked
  {
    var pre := TransientPrefix(c, s, aim);
    assert Enter(c, s, aim).events == pre + SetState(c, Idle, aim).events;
    ReplayAppend(pre, SetState(c, Idle, aim).events, b, v);
    ReplayWithoutLocks(pre, b, v);
  }

  /** Idle's Update makes no call on any body. */
  lemma IdleUpdateTouchesNoBody(c: Config, input: FrameInput)
    requires c.state == Some(Idle)
    ensures var e := IdleUpdate(c, input).events; forall i :: 0 <= i < |e| ==> !IsBodyEvent(e[i])
  {
    var body := Acquired(input.hit);
    if body != null {
      SetStateUnfold(c.(target := body), Ready, input.aim);
      assert SetState(c.(target := body), Ready, input.aim).events ==
        [Exited(Idle), Entered(Ready), PlayReadyEffect, PlayReadySound];
    } else if input.rightPressed || input.leftPressed {
      SetStateDryShot(c, input.aim);
    }
  }

  /** A frame keeps "locked exactly while dragged" for every body. */
  lemma UpdateLockAgreement(c: Config, input: FrameInput, b: Body, v: BodyView)
    requires v.locked == DraggedIn(c, b)
    ensures var o := Update(c, input); Replay(o.events, b, v).locked == DraggedIn(o.config, b)
  {
    if c.state.Some? {
      var k := c.state.value;
      var aim := input.aim;
      var o := match k
        case Idle => IdleUpdate(c, input)
        case Ready => ReadyUpdate(c, input)
        case Drag => DragUpdate(c, input)
        case _ => Outcome(c, []);
      assert Update(c, input).events == [Updated(k)] + o.events;
      ReplayAppend([Updated(k)], o.events, b, v);
      ReplayWithoutLocks([Updated(k)], b, v);
      var w := Replay([Updated(k)], b, v);
      var body := Acquired(input.hit);
      if k == Idle && body != null {
        SetStateLockAgreement(c.(target := body), Ready, aim, b, w);
      } else if k == Drag && input.rightPressed {
        ReplayAppend([PlayReleaseSound], SetState(c, Idle, aim).events, b, w);
        ReplayWithoutLocks([PlayReleaseSound], b, w);
        SetStateLockAgreement(c, Idle, aim, b, Replay([PlayReleaseSound], b, w));
      } else {
        SetStateLockAgreement(c, Idle, aim, b, w);
        SetStateLockAgreement(c, Drag, aim, b, w);
        SetStateLockAgreement(c, Throw, aim, b, w);
        SetStateLockAgreement(c, DryShot, aim, b, w);
      }
    }
  }

  /** A physics tick never locks or unlocks a body. */
  lemma FixedUpdateLockAgreement(c: Config, aim: Aim, b: Body, v: BodyView)
    requires v.locked == DraggedIn(c, b)
    ensures var o := FixedUpdate(c, aim); Replay(o.events, b, v).locked == DraggedIn(o.config, b)
  {
    FixedUpdateNeverLocks(c, aim, b, v);
  }

  /** A physics step never locks or unlocks a body, nor switches its gravity. */
  lemma FixedUpdateNeverLocks(c: Config, aim: Aim, b: Body, v: BodyView)
    ensures Replay(FixedUpdate(c, aim).events, b, v).locked == v.locked
    ensures Replay(FixedUpdate(c, aim).events, b, v).useGravity == v.useGravity
  {
    ReplayWithoutLocks(FixedUpdate(c, aim).events, b, v);
  }

  /** A frame leaves the controller between ticks in a good configuration:
      never transient, a body in Ready and Drag, none in Idle. */
  lemma UpdateKeepsGood(c: Config, input: FrameInput)
    requires Good(c)
    ensures Good(Update(c, input).config)
  {
    var aim := input.aim;
    SetStateSettles(c.(target := Acquired(input.hit)), Ready, aim);
    SetStateSettles(c, Idle, aim);
    SetStateSettles(c, Drag, aim);
    SetStateSettles(c, Throw, aim);
    SetStateSettles(c, DryShot, aim);
  }

  /** Nothing in Drag changes the current body: a frame that stays in Drag
      keeps the body it started with. */
  lemma DragKeepsTarget(c: Config, input: FrameInput)
    requires c.state == Some(Drag)
    ensures Update(c, input).config.state == Some(Drag) ==> Update(c, input).config == c
    ensures FixedUpdate(c, input.aim).config == c
  {
    SetStateSettles(c, Idle, input.aim);
    SetStateSettles(c, Throw, input.aim);
  }

  /** A frame that ends in Drag drags the body that was current before it. */
  lemma UpdateKeepsDragged(c: Config, input: FrameInput)
    requires Good(c)
    ensures var o := Update(c, input);
      o.config.state == Some(Drag) ==> o.config.target == c.target && c.target != null
  {
    var aim := input.aim;
    SetStateSettles(c.(target := Acquired(input.hit)), Ready, aim);
    SetStateSettles(c, Idle, aim);
    SetStateSettles(c, Drag, aim);
    SetStateSettles(c, Throw, aim);
    SetStateSettles(c, DryShot, aim);
  }

  /** Only Ready enters Drag, on a right press with the probe still on the current body. */
  lemma DragOnlyFromReady(c: Config, input: FrameInput)
    requires Good(c) && c.state != Some(Drag)
    requires Update(c, input).config.state == Some(Drag)
    ensures c.state == Some(Ready) && c.target != null
    ensures Acquired(input.hit) == c.target && input.rightPressed
  {
    var aim := input.aim;
    SetStateSettles(c.(target := Acquired(input.hit)), Ready, aim);
    SetStateSettles(c, Idle, aim);
    SetStateSettles(c, Throw, aim);
    SetStateSettles(c, DryShot, aim);
  }

  /** A frame that grabs a body leaves it locked with gravity off, whatever
      it was before. */
  lemma UpdateGrabLinks(c: Config, input: FrameInput, b: Body, v: BodyView)
    requires Good(c) && c.state != Some(Drag)
    requires Update(c, input).config == Config(Some(Drag), b)
    ensures var w := Replay(Update(c, input).events, b, v); w.locked && !w.useGravity
  {
    DragOnlyFromReady(c, input);
    var aim := input.aim;
    var t := c.(state := Some(Drag));
    var enter := Enter(t, Drag, aim).events;
    SetStateUnfold(c, Drag, aim);
    assert ReadyUpdate(c, input) == SetState(c, Drag, aim);
    var pre := [Updated(Ready)] + ExitLog(c) + [Entered(Drag)];
    assert Update(c, input).events == pre + enter;
    ReplayAppend(pre, enter, b, v);
    assert t == Config(Some(Drag), b);
    EnterDragReplay(b, aim, Replay(pre, b, v));
  }

  /** Every call on a body in the log is made on an actual body. */
  predicate BodiesPresent(e: seq<Event>)
  {
    forall i :: 0 <= i < |e| && IsBodyEvent(e[i]) ==> e[i].body != null
  }

  lemma BodiesPresentAppend(a: seq<Event>, c: seq<Event>)
    requires BodiesPresent(a) && BodiesPresent(c)
    ensures BodiesPresent(a + c)
  {
    forall i | 0 <= i < |a + c| && IsBodyEvent((a + c)[i])
      ensures (a + c)[i].body != null
    {
      if i >= |a| {
        assert (a + c)[i] == c[i - |a|];
      }
    }
  }

  /** SetState touches only an actual body, as long as a body is current
      whenever Drag is left or Drag or Throw is entered. */
  lemma SetStateBodiesPresent(c: Config, s: StateKind, aim: Aim)
    requires (c.state == Some(Drag) || s == Drag || s == Throw) ==> c.target != null
    ensures BodiesPresent(SetState(c, s, aim).events)
  {
    var exit := ExitLog(c);
    assert BodiesPresent(exit);
    var o := Enter(c.(state := Some(s)), s, aim);
    if s == Throw {
      SetStateThrow(c, aim);
    } else if s == DryShot {
      SetStateDryShot(c, aim);
    } else {
      assert BodiesPresent(o.events);
      BodiesPresentAppend(exit + [Entered(s)], o.events);
      assert SetState(c, s, aim).events == exit + [Entered(s)] + o.events;
    }
  }

  /** In a good configuration no frame and no physics tick calls a null body. */
  lemma StepBodiesPresent(c: Config, input: FrameInput, aim: Aim)
    requires Good(c)
    ensures BodiesPresent(Update(c, input).events)
    ensures BodiesPresent(FixedUpdate(c, aim).events)
  {
    if c.state.Some? {
      var k := c.state.value;
      var o := match k
        case Idle => IdleUpdate(c, input)
        case Ready => ReadyUpdate(c, input)
        case Drag => DragUpdate(c, input)
        case _ => Outcome(c, []);
      assert Update(c, input).events == [Updated(k)] + o.events;
      var body := Acquired(input.hit);
      if k == Idle {
        if body != null {
          SetStateBodiesPresent(c.(target := body), Ready, input.aim);
        } else {
          SetStateBodiesPresent(c, DryShot, input.aim);
        }
      } else if k == Ready {
        SetStateBodiesPresent(c, Idle, input.aim);
        SetStateBodiesPresent(c, Drag, input.aim);
        SetStateBodiesPresent(c, Throw, input.aim);
      } else if k == Drag {
        SetStateBodiesPresent(c, Idle, input.aim);
        SetStateBodiesPresent(c, Throw, input.aim);
        if input.rightPressed {
          BodiesPresentAppend([PlayReleaseSound], SetState(c, Idle, input.aim).events);
        }
      }
      BodiesPresentAppend([Updated(k)], o.events);
    }
  }

  // ---------------------------------------------------------------------
  // Runs of ticks

  /** One tick of the engine: a frame (Update) or a physics step (FixedUpdate). */
  datatype Tick = Frame(input: FrameInput) | Physics(aim: Aim)

  function Step(c: Config, t: Tick): Outcome
  {
    match t
    case Frame(input) => Update(c, input)
    case Physics(aim) => FixedUpdate(c, aim)
  }

  /** Ticks one after the other, their logs concatenated. */
  function Run(c: Config, ticks: seq<Tick>): Outcome
    decreases |ticks|
  {
    if ticks == [] then Outcome(c, [])
    else
      var o := Step(c, ticks[0]);
      var r := Run(o.config, ticks[1..]);
      Outcome(r.config, o.events + r.events)
  }

  /** Only the current state is ticked, and it is never Throw or DryShot. */
  predicate TicksSettled(e: seq<Event>)
  {
    forall i :: 0 <= i < |e| && (e[i].Updated? || e[i].FixedUpdated?) ==> !IsTransient(e[i].state)
  }

  lemma StepTicksSettled(c: Config, t: Tick)
    requires Good(c)
    ensures TicksSettled(Step(c, t).events)
  {
    if t.Frame? {
      UpdateDispatches(c, t.input);
    }
  }

  lemma TicksSettledAppend(a: seq<Event>, c: seq<Event>)
    requires TicksSettled(a) && TicksSettled(c)
    ensures TicksSettled(a + c)
  {
    forall i | 0 <= i < |a + c| && ((a + c)[i].Updated? || (a + c)[i].FixedUpdated?)
      ensures !IsTransient((a + c)[i].state)
    {
      if i >= |a| {
        assert (a + c)[i] == c[i - |a|];
      }
    }
  }

  /** The invariants of a run from a good configuration: it ends good, only
      settled states are ticked, no call is made on a null body, and every
      body is locked exactly while it is being dragged. */
  lemma {:induction false} RunInvariants(c: Config, ticks: seq<Tick>, b: Body, v: BodyView)
    requires Good(c)
    requires v.locked == DraggedIn(c, b)
    ensures var r := Run(c, ticks);
      && Good(r.config)
      && TicksSettled(r.events)
      && BodiesPresent(r.events)
      && Replay(r.events, b, v).locked == DraggedIn(r.config, b)
    decreases |ticks|
  {
    if ticks != [] {
      var o := Step(c, ticks[0]);
      var w := Replay(o.events, b, v);
      if ticks[0].Frame? {
        var input := ticks[0].input;
        UpdateKeepsGood(c, input);
        UpdateLockAgreement(c, input, b, v);
        StepBodiesPresent(c, input, input.aim);
      } else {
        var aim := ticks[0].aim;
        FixedUpdateLockAgreement(c, aim, b, v);
        StepBodiesPresent(c, FrameInput(Miss, false, false, aim), aim);
      }
      StepTicksSettled(c, ticks[0]);
      RunInvariants(o.config, ticks[1..], b, w);
      var r := Run(o.config, ticks[1..]);
      TicksSettledAppend(o.events, r.events);
      BodiesPresentAppend(o.events, r.events);
      ReplayAppend(o.events, r.events, b, v);
    }
  }

  /** The controller's lifetime: Awake, then any ticks. With every body
      unlocked at the start, each body is locked exactly while the state is
      Drag with that body current, and the state is never transient between
      ticks. */
  lemma Lifetime(aim: Aim, ticks: seq<Tick>, b: Body, v: BodyView)
    requires !v.locked
    ensures var a := Awake(Config(None, null), aim); var r := Run(a.config, ticks);
      && Good(r.config)
      && TicksSettled(r.events)
      && BodiesPresent(a.events + r.events)
      && Replay(a.events + r.events, b, v).locked == DraggedIn(r.config, b)
  {
    var a := Awake(Config(None, null), aim);
    AwakeStartsIdle(aim);
    ReplayWithoutLocks(a.events, b, v);
    RunInvariants(a.config, ticks, b, Replay(a.events, b, v));
    var r := Run(a.config, ticks);
    BodiesPresentAppend(a.events, r.events);
    ReplayAppend(a.events, r.events, b, v);
  }

  /** Idle, then Ready on a body, then Idle again when the probe loses it:
      the current body is unset again, and the ready effect started on entry
      is stopped on exit. */
  lemma ReadyRoundTrip(b: Body, acquire: FrameInput, lose: FrameInput)
    requires Acquired(acquire.hit) == b && Acquired(lose.hit) == null
    ensures Run(Config(Some(Idle), null), [Frame(acquire), Frame(lose)]) ==
      Outcome(Config(Some(Idle), null),
              [Updated(Idle), Exited(Idle), Entered(Ready), PlayReadyEffect, PlayReadySound,
               Updated(Ready), Exited(Ready), StopReadyEffect, PlayUnreadySound, Entered(Idle)])
  {
    var c := Config(Some(Idle), null);
    IdleAcquires(c, acquire);
    var r := Config(Some(Ready), b);
    ReadyLosesTarget(r, lose);
    var ticks := [Frame(acquire), Frame(lose)];
    assert ticks[1..] == [Frame(lose)] && ticks[1..][1..] == [];
    assert Run(Config(Some(Idle), null), ticks[1..][1..]) == Outcome(Config(Some(Idle), null), []);
  }
}
