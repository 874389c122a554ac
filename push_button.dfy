/**
 * `MultiplexerPushButton8`: one input line read behind the multiplexer,
 * with a debounce and hold state machine per selector index.
 *
 * The class keeps the source's three length-8 arrays and updates them in
 * place; `Table()` is their value, and `OnMultiplexerChange` is proved to
 * compute `Debounce.Step` of it. The input pin is reduced to whether it
 * has been started and to the level passed to each tick; the user
 * callbacks are reduced to whether they are set, and each callback call is
 * appended to `log`.
 */
module PushButton {
  import Selector
  import Control
  import opened Debounce

  /** The callback calls made for the fired events: a `Pushed` reaches
      `f_pushed` only when it is set, a `Held` reaches `f_held` only when it
      is set; order is kept. */
  function Delivered(evs: seq<Event>, onPushed: bool, onHeld: bool): (calls: seq<Event>)
    ensures |calls| <= |evs|
    ensures forall e :: e in calls <==> e in evs && (if e.Pushed? then onPushed else onHeld)
  {
    if evs == [] then []
    else
      (if (if evs[0].Pushed? then onPushed else onHeld) then [evs[0]] else []) + Delivered(evs[1..], onPushed, onHeld)
  }

  lemma {:induction false} DeliveredAppend(a: seq<Event>, b: seq<Event>, onPushed: bool, onHeld: bool)
    ensures Delivered(a + b, onPushed, onHeld) == Delivered(a, onPushed, onHeld) + Delivered(b, onPushed, onHeld)
  {
    if a == [] {
      assert a + b == b;
    } else {
      assert (a + b)[0] == a[0] && (a + b)[1..] == a[1..] + b;
      DeliveredAppend(a[1..], b, onPushed, onHeld);
    }
  }

  /** The calls of one tick: those for the release check, then those for
      the hold check. */
  lemma {:induction false} LogOfStep(log0: seq<Event>, log1: seq<Event>, log2: seq<Event>, released: seq<Event>, held: seq<Event>,
                  onPushed: bool, onHeld: bool)
    requires log1 == log0 + Delivered(released, onPushed, onHeld)
    requires log2 == log1 + Delivered(held, onPushed, onHeld)
    ensures log2 == log0 + Delivered(released + held, onPushed, onHeld)
  {
    DeliveredAppend(released, held, onPushed, onHeld);
  }

  class MultiplexerPushButton8 {
    /** Identifies the callable this button registers with the controller. */
    const handle: nat
    /** The controller the button registers with. */
    const control: Control.MultiplexerControl8
    /** `MinTriggerAction`, in nanoseconds. */
    const minTrigger: nat
    /** `MinHeldAction`, in nanoseconds. */
    const minHeld: nat
    /** `ButtonLastPushed`. */
    const lastPushed: array<nat>
    /** `ButtonLastState`. */
    const lastState: array<bool>
    /** `ButtonCheckHeldState`. */
    const checkHeld: array<bool>
    /** The input pin has been started and not stopped since. */
    var inputStarted: bool
    /** `f_pushed` is set. */
    var onPushed: bool
    /** `f_held` is set. */
    var onHeld: bool
    /** The callback calls made so far. */
    var log: seq<Event>

    ghost predicate Valid()
      reads this, lastPushed, lastState, checkHeld
    {
      Shaped() && HeldImpliesActive(Table())
    }

    /** The three arrays as one value. */
    function Table(): (t: Table)
      reads this, lastPushed, lastState, checkHeld
      ensures t.stamps == lastPushed[..] && t.levels == lastState[..] && t.held == checkHeld[..]
    {
      Debounce.Table(lastPushed[..], lastState[..], checkHeld[..])
    }

    /** The two thresholds. */
    function Thresholds(): (cfg: Config)
      reads this
      ensures cfg.minTrigger == minTrigger && cfg.minHold == minHeld
    {
      Config(minTrigger, minHeld)
    }

    constructor(handle: nat, control: Control.MultiplexerControl8,
                minTrigger: nat := DefaultMinTrigger, minHold: nat := DefaultMinHold)
      ensures Valid() && fresh(lastPushed) && fresh(lastState) && fresh(checkHeld)
      ensures Table() == Initial()
      ensures this.handle == handle && this.control == control
      ensures this.minTrigger == minTrigger && this.minHeld == minHold
      ensures !inputStarted && !onPushed && !onHeld && log == []
    {
      this.handle := handle;
      this.control := control;
      this.minTrigger := minTrigger;
      this.minHeld := minHold;
      lastPushed := new nat[Selector.Channels](_ => 0);
      lastState := new bool[Selector.Channels](_ => false);
      checkHeld := new bool[Selector.Channels](_ => false);
      inputStarted := false;
      onPushed := false;
      onHeld := false;
      log := [];
      new;
      assert Table() == Initial();
    }

    /** `start`: starts the input pin and appends one callable reaching this
        button to the controller's observers, on every call; never fails. */
    method Start() returns (ok: bool)
      modifies this`inputStarted, control`changeNotify
      ensures ok && inputStarted
      ensures control.changeNotify == old(control.changeNotify) + [Control.Live(handle)]
    {
      inputStarted := true;
      control.changeNotify := control.changeNotify + [Control.Live(handle)];
      return true;
    }

    /** `stop`: stops the input pin only; the registered callable stays in
        the controller's list. Never fails. */
    method Stop() returns (ok: bool)
      modifies this`inputStarted
      ensures ok && !inputStarted
    {
      inputStarted := false;
      return true;
    }

    /** The array lengths and the distinct flag arrays, the shape every
        stage keeps. */
    ghost predicate Shaped()
      reads this
    {
      lastPushed.Length == Selector.Channels && lastState.Length == Selector.Channels &&
      checkHeld.Length == Selector.Channels && lastState != checkHeld
    }

    /** One notification at `index`, with `input` the level read from the
        input pin and `now` the clock reading: the arrays become the table
        `Debounce.Step` computes, and the callbacks that are set are called
        for the events it fires. */
    method OnMultiplexerChange(index: nat, input: bool, now: nat)
      requires Valid() && index < Selector.Channels
      modifies lastPushed, lastState, checkHeld, this`log
      ensures Valid()
      ensures Table() == Step(Thresholds(), old(Table()), index, input, now).table
      ensures log == old(log) + Delivered(Step(Thresholds(), old(Table()), index, input, now).events, onPushed, onHeld)
    {
      ghost var t0 := Table();
      ghost var cfg := Thresholds();
      ghost var log0 := log;
      ghost var released := Release(cfg, IdleReset(t0, index, now), index, input, now);
      ghost var held := Hold(cfg, Track(released.table, index, input, now), index, now);
      ResetIdle(index, now);
      CheckRelease(index, input, now);
      ghost var log1 := log;
      TrackLevel(index, input, now);
      CheckHold(index, now);
      LogOfStep(log0, log1, log, released.events, held.events, onPushed, onHeld);
      StepKeepsHeldImpliesActive(cfg, t0, index, input, now);
    }

    /** Resets the timer of every other channel that is not active. */
    method ResetIdle(index: nat, now: nat)
      requires Shaped() && index < Selector.Channels
      modifies lastPushed
      ensures Table() == IdleReset(old(Table()), index, now)
    {
      ghost var t0 := Table();
      var k := 0;
      while k < Selector.Channels
        invariant 0 <= k <= Selector.Channels
        invariant lastState[..] == t0.levels && checkHeld[..] == t0.held
        invariant forall j :: 0 <= j < Selector.Channels ==>
          lastPushed[j] == if j < k && j != index && !t0.levels[j] then now else t0.stamps[j]
      {
        if k != index && !lastState[k] {
          lastPushed[k] := now;
        }
        k := k + 1;
      }
    }

    /** The release check: a hold candidate read inactive after at least
        the trigger length is pushed. */
    method CheckRelease(index: nat, input: bool, now: nat)
      requires Shaped() && index < Selector.Channels
      modifies lastPushed, this`log
      ensures Table() == Release(Thresholds(), old(Table()), index, input, now).table
      ensures log == old(log) + Delivered(Release(Thresholds(), old(Table()), index, input, now).events, onPushed, onHeld)
    {
      if !input {
        var delta := now - lastPushed[index];
        if checkHeld[index] && delta >= minTrigger {
          lastPushed[index] := now;
          if onPushed {
            log := log + [Pushed(index, delta)];
          }
        }
      }
    }

    /** Level tracking: a change of level restarts the timer and makes the
        channel a hold candidate exactly when it became active. */
    method TrackLevel(index: nat, input: bool, now: nat)
      requires Shaped() && index < Selector.Channels
      modifies lastPushed, lastState, checkHeld
      ensures Table() == Track(old(Table()), index, input, now)
    {
      if lastState[index] != input {
        lastPushed[index] := now;
        lastState[index] := input;
        checkHeld[index] := input;
      }
    }

    /** The hold check: a hold candidate active for at least the hold
        length is held. */
    method CheckHold(index: nat, now: nat)
      requires Shaped() && index < Selector.Channels
      modifies lastPushed, checkHeld, this`log
      ensures Table() == Hold(Thresholds(), old(Table()), index, now).table
      ensures log == old(log) + Delivered(Hold(Thresholds(), old(Table()), index, now).events, onPushed, onHeld)
    {
      if checkHeld[index] {
        var timeHeld := now - lastPushed[index];
        if timeHeld >= minHeld {
          checkHeld[index] := false;
          lastPushed[index] := now;
          if onHeld {
            log := log + [Held(index, timeHeld)];
          }
        }
      }
    }
  }
}
