/**
 * The per-channel debounce and hold state machine of
 * `MultiplexerPushButton8::OnMultiplexerChange`, as functions of the
 * channel table, the scanned index, the level read from the input line and
 * the time of the tick.
 *
 * Times are steady-clock readings in nanoseconds since the clock's epoch
 * (`nat`); durations are differences of two readings and, like
 * `std::chrono::nanoseconds`, are signed (`int`).
 */
module Debounce {
  import Selector

  /** Constructor default of the minimum press length (2 ms). */
  const DefaultMinTrigger: nat := 2_000_000
  /** Constructor default of the hold length (750 ms). */
  const DefaultMinHold: nat := 750_000_000

  /** `MinTriggerAction` and `MinHeldAction`, in nanoseconds. */
  datatype Config = Config(minTrigger: nat, minHold: nat)

  /** The three per-channel arrays: `ButtonLastPushed` (last transition
      time), `ButtonLastState` (last level read) and `ButtonCheckHeldState`
      (hold candidate). */
  datatype Table = Table(stamps: seq<nat>, levels: seq<bool>, held: seq<bool>)

  /** A callback the state machine fires: `f_pushed` or `f_held`, with the
      channel index and the elapsed duration passed to it. */
  datatype Event = Pushed(index: nat, duration: int) | Held(index: nat, duration: int)

  /** The table and the events fired, in firing order, after a stage. */
  datatype StepResult = StepResult(table: Table, events: seq<Event>)

  /** One entry per selector index in each array. */
  predicate WellFormed(t: Table)
  {
    |t.stamps| == Selector.Channels && |t.levels| == Selector.Channels && |t.held| == Selector.Channels
  }

  /** A channel is a hold candidate only while its last level is active. */
  predicate HeldImpliesActive(t: Table)
    requires WellFormed(t)
  {
    forall k :: 0 <= k < Selector.Channels ==> t.held[k] ==> t.levels[k]
  }

  /** The table of a freshly constructed button: epoch timestamps, every
      level and hold flag false. */
  function Initial(): (t: Table)
    ensures WellFormed(t) && HeldImpliesActive(t)
    ensures forall k :: 0 <= k < Selector.Channels ==> t.stamps[k] == 0 && !t.levels[k] && !t.held[k]
  {
    Table(seq(Selector.Channels, k => 0), seq(Selector.Channels, k => false), seq(Selector.Channels, k => false))
  }

  /** The idle reset over the first `|stamps|` entries, one index at a
      time: the timestamp of every index other than `index` whose level is
      inactive becomes `now`. */
  function ResetStamps(stamps: seq<nat>, levels: seq<bool>, index: nat, now: nat): seq<nat>
    requires |stamps| <= |levels|
    decreases |stamps|
  {
    if stamps == [] then []
    else
      var k := |stamps| - 1;
      ResetStamps(stamps[..k], levels, index, now) + [if k != index && !levels[k] then now else stamps[k]]
  }

  /** Stage 1: every other channel whose last level is inactive has its
      timestamp set to `now`. */
  function IdleReset(t: Table, index: nat, now: nat): (r: Table)
    requires WellFormed(t) && index < Selector.Channels
    ensures WellFormed(r) && r.levels == t.levels && r.held == t.held
    ensures forall k :: 0 <= k < Selector.Channels ==>
      r.stamps[k] == if k != index && !t.levels[k] then now else t.stamps[k]
  {
    ResetStampsAt(t.stamps, t.levels, index, now);
    t.(stamps := ResetStamps(t.stamps, t.levels, index, now))
  }

  lemma {:induction false} ResetStampsAt(stamps: seq<nat>, levels: seq<bool>, index: nat, now: nat)
    requires |stamps| <= |levels|
    ensures |ResetStamps(stamps, levels, index, now)| == |stamps|
    ensures forall k :: 0 <= k < |stamps| ==>
      ResetStamps(stamps, levels, index, now)[k] == if k != index && !levels[k] then now else stamps[k]
    decreases |stamps|
  {
    if stamps != [] {
      var k := |stamps| - 1;
      ResetStampsAt(stamps[..k], levels, index, now);
    }
  }

  /** Stage 2, the release check: on an inactive read of a hold candidate
      whose elapsed time has reached the minimum press length, restart its
      timer and fire `Pushed` with the elapsed time. */
  function Release(cfg: Config, t: Table, index: nat, input: bool, now: nat): StepResult
    requires WellFormed(t) && index < Selector.Channels
  {
    var elapsed := now - t.stamps[index];
    if !input && t.held[index] && elapsed >= cfg.minTrigger then
      StepResult(t.(stamps := t.stamps[index := now]), [Pushed(index, elapsed)])
    else
      StepResult(t, [])
  }

  /** Stage 3, level tracking: when the read differs from the last level,
      restart the timer, record the level and make the channel a hold
      candidate exactly when it became active. */
  function Track(t: Table, index: nat, input: bool, now: nat): Table
    requires WellFormed(t) && index < Selector.Channels
  {
    if t.levels[index] != input then
      Table(t.stamps[index := now], t.levels[index := input], t.held[index := input])
    else
      t
  }

  /** Stage 4, the hold check: a hold candidate whose elapsed time has
      reached the hold length stops being one, restarts its timer and fires
      `Held` with the elapsed time. */
  function Hold(cfg: Config, t: Table, index: nat, now: nat): StepResult
    requires WellFormed(t) && index < Selector.Channels
  {
    var elapsed := now - t.stamps[index];
    if t.held[index] && elapsed >= cfg.minHold then
      StepResult(t.(stamps := t.stamps[index := now], held := t.held[index := false]), [Held(index, elapsed)])
    else
      StepResult(t, [])
  }

  /** One call of `OnMultiplexerChange` at `index`: the four stages in order. */
  function Step(cfg: Config, t: Table, index: nat, input: bool, now: nat): (r: StepResult)
    requires WellFormed(t) && index < Selector.Channels
    ensures WellFormed(r.table)
  {
    var released := Release(cfg, IdleReset(t, index, now), index, input, now);
    var held := Hold(cfg, Track(released.table, index, input, now), index, now);
    StepResult(held.table, released.events + held.events)
  }

  /** A tick keeps one entry per index, and afterwards the last level of the
      scanned channel is the level just read. */
  lemma {:induction false} StepTracksInput(cfg: Config, t: Table, index: nat, input: bool, now: nat)
    requires WellFormed(t) && index < Selector.Channels
    ensures WellFormed(Step(cfg, t, index, input, now).table)
    ensures Step(cfg, t, index, input, now).table.levels[index] == input
  {
  }

  /** A tick leaves the level and hold flag of every other channel alone;
      the other channels' timestamps move to `now` exactly when they are
      inactive. */
  lemma {:induction false} StepOtherChannels(cfg: Config, t: Table, index: nat, input: bool, now: nat, k: nat)
    requires WellFormed(t) && index < Selector.Channels
    requires k < Selector.Channels && k != index
    ensures WellFormed(Step(cfg, t, index, input, now).table)
    ensures Step(cfg, t, index, input, now).table.levels[k] == t.levels[k]
    ensures Step(cfg, t, index, input, now).table.held[k] == t.held[k]
    ensures Step(cfg, t, index, input, now).table.stamps[k] == if t.levels[k] then t.stamps[k] else now
  {
  }

  /** "Hold candidate implies active" holds of the initial table and every
      tick preserves it. */
  lemma {:induction false} StepKeepsHeldImpliesActive(cfg: Config, t: Table, index: nat, input: bool, now: nat)
    requires WellFormed(t) && HeldImpliesActive(t) && index < Selector.Channels
    ensures WellFormed(Step(cfg, t, index, input, now).table)
    ensures HeldImpliesActive(Step(cfg, t, index, input, now).table)
  {
    var r := Step(cfg, t, index, input, now).table;
    forall k | 0 <= k < Selector.Channels
      ensures r.held[k] ==> r.levels[k]
    {
      if k != index {
        StepOtherChannels(cfg, t, index, input, now, k);
      }
    }
  }

  /** `Pushed` fires exactly on an inactive read of a hold candidate whose
      time since its last transition has reached the minimum press length,
      and reports that time; a `Pushed` is never followed by a `Held` in
      the same tick. */
  lemma {:induction false} StepPushed(cfg: Config, t: Table, index: nat, input: bool, now: nat)
    requires WellFormed(t) && HeldImpliesActive(t) && index < Selector.Channels
    ensures (exists e :: e in Step(cfg, t, index, input, now).events && e.Pushed?) <==>
            !input && t.held[index] && now - t.stamps[index] >= cfg.minTrigger
    ensures !input && t.held[index] && now - t.stamps[index] >= cfg.minTrigger ==>
            Step(cfg, t, index, input, now).events == [Pushed(index, now - t.stamps[index])]
  {
    var evs := Step(cfg, t, index, input, now).events;
    if !input && t.held[index] && now - t.stamps[index] >= cfg.minTrigger {
      assert evs[0] in evs && evs[0].Pushed?;
    }
  }

  /** `Held` fires exactly on an active read of a channel that is a hold
      candidate after level tracking and whose elapsed time has reached the
      hold length; it reports that time and the channel is no longer a hold
      candidate. On the tick of a rising edge the elapsed time is zero, so
      only a zero hold length fires there. */
  lemma {:induction false} StepHeld(cfg: Config, t: Table, index: nat, input: bool, now: nat)
    requires WellFormed(t) && HeldImpliesActive(t) && index < Selector.Channels
    ensures (exists e :: e in Step(cfg, t, index, input, now).events && e.Held?) <==>
            input && (if t.levels[index] then t.held[index] && now - t.stamps[index] >= cfg.minHold
                      else cfg.minHold == 0)
    ensures input && t.levels[index] && t.held[index] && now - t.stamps[index] >= cfg.minHold ==>
            Step(cfg, t, index, input, now).events == [Held(index, now - t.stamps[index])] &&
            !Step(cfg, t, index, input, now).table.held[index]
  {
    var evs := Step(cfg, t, index, input, now).events;
    if input && (if t.levels[index] then t.held[index] && now - t.stamps[index] >= cfg.minHold
                 else cfg.minHold == 0) {
      assert evs[0] in evs && evs[0].Held?;
    }
  }

  /** At most one callback fires per tick, always for the scanned channel; a
      `Pushed` reports at least the minimum press length and a `Held` at
      least the hold length, and leaves the channel no longer a hold
      candidate. */
  lemma {:induction false} StepEventBounds(cfg: Config, t: Table, index: nat, input: bool, now: nat)
    requires WellFormed(t) && HeldImpliesActive(t) && index < Selector.Channels
    ensures |Step(cfg, t, index, input, now).events| <= 1
    ensures forall e :: e in Step(cfg, t, index, input, now).events ==>
      e.index == index &&
      (e.Pushed? ==> !input && e.duration >= cfg.minTrigger) &&
      (e.Held? ==> input && e.duration >= cfg.minHold && !Step(cfg, t, index, input, now).table.held[index])
  {
  }
}
