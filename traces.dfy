/**
 * Sequences of scan ticks fed to the debounce and hold state machine, and
 * what a whole button press produces on its channel.
 */
module Traces {
  import Selector
  import opened Debounce

  /** One call of `OnMultiplexerChange`: the scanned index, the level read
      and the clock reading. */
  datatype Tick = Tick(index: nat, input: bool, now: nat)

  /** Every tick scans an index in 0..7. */
  predicate Indexed(ticks: seq<Tick>)
    decreases |ticks|
  {
    ticks == [] || (ticks[0].index < Selector.Channels && Indexed(ticks[1..]))
  }

  /** One tick applied to a table. The scan controller only visits 0..7 and
      a button's table always has eight entries, so the second branch is
      never taken by a run of `Indexed` ticks from a well-formed table; it
      only makes the step total. */
  function Next(cfg: Config, t: Table, x: Tick): StepResult
  {
    if WellFormed(t) && x.index < Selector.Channels then Step(cfg, t, x.index, x.input, x.now)
    else StepResult(t, [])
  }

  /** Ticks applied in order by a step function: the final table and every
      event, in order. */
  function Fold(step: (Table, Tick) -> StepResult, t: Table, ticks: seq<Tick>): StepResult
    decreases |ticks|
  {
    if ticks == [] then StepResult(t, [])
    else
      var first := step(t, ticks[0]);
      var rest := Fold(step, first.table, ticks[1..]);
      StepResult(rest.table, first.events + rest.events)
  }

  /** Folding over two sequences one after the other is folding over their
      concatenation. */
  lemma {:induction false} FoldAppend(step: (Table, Tick) -> StepResult, t: Table, a: seq<Tick>, b: seq<Tick>)
    ensures Fold(step, t, a + b).table == Fold(step, Fold(step, t, a).table, b).table
    ensures Fold(step, t, a + b).events == Fold(step, t, a).events + Fold(step, Fold(step, t, a).table, b).events
    decreases |a|
  {
    if a == [] {
      assert a + b == b;
    } else {
      assert (a + b)[0] == a[0] && (a + b)[1..] == a[1..] + b;
      FoldAppend(step, step(t, a[0]).table, a[1..], b);
    }
  }

  /** The table after a sequence of ticks and every event fired, in order. */
  function Run(cfg: Config, t: Table, ticks: seq<Tick>): StepResult
  {
    Fold((s, x) => Next(cfg, s, x), t, ticks)
  }

  /** Running a sequence of scanned ticks from a well-formed table keeps it
      well formed: every tick is a real `Step`. */
  lemma {:induction false} RunWellFormed(cfg: Config, t: Table, ticks: seq<Tick>)
    requires WellFormed(t) && Indexed(ticks)
    ensures WellFormed(Run(cfg, t, ticks).table)
    decreases |ticks|
  {
    if ticks != [] {
      RunWellFormed(cfg, Next(cfg, t, ticks[0]).table, ticks[1..]);
    }
  }

  /** The events that concern channel `i`. */
  function EventsOf(evs: seq<Event>, i: nat): seq<Event>
  {
    if evs == [] then []
    else (if evs[0].index == i then [evs[0]] else []) + EventsOf(evs[1..], i)
  }

  /** `EventsOf` keeps exactly the events of channel `i`, and no more of
      them than there are events. */
  lemma {:induction false} EventsOfMembers(evs: seq<Event>, i: nat)
    ensures |EventsOf(evs, i)| <= |evs|
    ensures forall e :: e in EventsOf(evs, i) <==> e in evs && e.index == i
  {
    if evs != [] {
      EventsOfMembers(evs[1..], i);
      assert evs == [evs[0]] + evs[1..];
    }
  }

  lemma {:induction false} EventsOfAppend(a: seq<Event>, b: seq<Event>, i: nat)
    ensures EventsOf(a + b, i) == EventsOf(a, i) + EventsOf(b, i)
  {
    if a == [] {
      assert a + b == b;
    } else {
      var head := if a[0].index == i then [a[0]] else [];
      assert (a + b)[0] == a[0] && (a + b)[1..] == a[1..] + b;
      assert EventsOf(a + b, i) == head + EventsOf(a[1..] + b, i);
      assert EventsOf(a, i) == head + EventsOf(a[1..], i);
      EventsOfAppend(a[1..], b, i);
      assert head + (EventsOf(a[1..], i) + EventsOf(b, i)) == (head + EventsOf(a[1..], i)) + EventsOf(b, i);
    }
  }

  /** After a stretch with nothing for channel `i`, events of `i` only: the
      events of `i` are exactly those. */
  lemma {:induction false} EventsOfQuietThen(quiet: seq<Event>, own: seq<Event>, i: nat)
    requires EventsOf(quiet, i) == []
    requires forall k :: 0 <= k < |own| ==> own[k].index == i
    ensures EventsOf(quiet + own, i) == own
    decreases |own|
  {
    EventsOfAppend(quiet, own, i);
    if own != [] {
      assert own == [own[0]] + own[1..];
      EventsOfAppend([own[0]], own[1..], i);
      EventsOfQuietThen([], own[1..], i);
      assert [] + own[1..] == own[1..];
    }
  }

  lemma {:induction false} IndexedAppend(a: seq<Tick>, b: seq<Tick>)
    requires Indexed(a) && Indexed(b)
    ensures Indexed(a + b)
    decreases |a|
  {
    if a == [] {
      assert a + b == b;
    } else {
      assert (a + b)[0] == a[0] && (a + b)[1..] == a[1..] + b;
      IndexedAppend(a[1..], b);
    }
  }

  lemma {:induction false} RunAppend(cfg: Config, t: Table, a: seq<Tick>, b: seq<Tick>)
    ensures Run(cfg, t, a + b).table == Run(cfg, Run(cfg, t, a).table, b).table
    ensures Run(cfg, t, a + b).events == Run(cfg, t, a).events + Run(cfg, Run(cfg, t, a).table, b).events
  {
    FoldAppend((s, x) => Next(cfg, s, x), t, a, b);
  }

  /** A run starts with a real `Step` on its first tick. */
  lemma {:induction false} RunFirst(cfg: Config, t: Table, ticks: seq<Tick>)
    requires WellFormed(t) && ticks != [] && ticks[0].index < Selector.Channels
    ensures Run(cfg, t, ticks).table ==
            Run(cfg, Step(cfg, t, ticks[0].index, ticks[0].input, ticks[0].now).table, ticks[1..]).table
    ensures Run(cfg, t, ticks).events ==
            Step(cfg, t, ticks[0].index, ticks[0].input, ticks[0].now).events +
            Run(cfg, Step(cfg, t, ticks[0].index, ticks[0].input, ticks[0].now).table, ticks[1..]).events
  {
  }

  /** A run of one tick is that tick's `Step`. */
  lemma {:induction false} RunSingle(cfg: Config, t: Table, x: Tick)
    requires WellFormed(t) && x.index < Selector.Channels
    ensures Run(cfg, t, [x]) == Step(cfg, t, x.index, x.input, x.now)
  {
    RunFirst(cfg, t, [x]);
    assert [x][1..] == [];
    assert Step(cfg, t, x.index, x.input, x.now).events + [] == Step(cfg, t, x.index, x.input, x.now).events;
  }

  /** A run that ends with one more tick is the run without it followed by
      that tick's `Step`. */
  lemma {:induction false} RunLast(cfg: Config, t: Table, ticks: seq<Tick>, x: Tick)
    requires WellFormed(Run(cfg, t, ticks).table) && x.index < Selector.Channels
    ensures Run(cfg, t, ticks + [x]).table == Step(cfg, Run(cfg, t, ticks).table, x.index, x.input, x.now).table
    ensures Run(cfg, t, ticks + [x]).events ==
            Run(cfg, t, ticks).events + Step(cfg, Run(cfg, t, ticks).table, x.index, x.input, x.now).events
  {
    RunAppend(cfg, t, ticks, [x]);
    RunSingle(cfg, Run(cfg, t, ticks).table, x);
  }

  /** Any sequence of scanned ticks keeps "hold candidate implies active". */
  lemma {:induction false} RunKeepsHeldImpliesActive(cfg: Config, t: Table, ticks: seq<Tick>)
    requires WellFormed(t) && HeldImpliesActive(t) && Indexed(ticks)
    ensures WellFormed(Run(cfg, t, ticks).table)
    ensures HeldImpliesActive(Run(cfg, t, ticks).table)
    decreases |ticks|
  {
    if ticks != [] {
      var x := ticks[0];
      StepKeepsHeldImpliesActive(cfg, t, x.index, x.input, x.now);
      RunFirst(cfg, t, ticks);
      RunKeepsHeldImpliesActive(cfg, Step(cfg, t, x.index, x.input, x.now).table, ticks[1..]);
    }
  }

  /** While channel `i` stays active and, if it is a hold candidate, short of
      the hold length, ticks of any index leave its entries untouched and
      fire nothing for it: other channels' ticks skip active channels in the
      idle reset. */
  lemma {:induction false} QuietWhileActive(cfg: Config, t: Table, i: nat, ticks: seq<Tick>)
    requires WellFormed(t) && HeldImpliesActive(t) && Indexed(ticks)
    requires i < Selector.Channels && t.levels[i]
    requires forall k :: 0 <= k < |ticks| && ticks[k].index == i ==>
      ticks[k].input && (t.held[i] ==> ticks[k].now - t.stamps[i] < cfg.minHold)
    ensures WellFormed(Run(cfg, t, ticks).table)
    ensures Run(cfg, t, ticks).table.stamps[i] == t.stamps[i]
    ensures Run(cfg, t, ticks).table.levels[i]
    ensures Run(cfg, t, ticks).table.held[i] == t.held[i]
    ensures EventsOf(Run(cfg, t, ticks).events, i) == []
    decreases |ticks|
  {
    RunWellFormed(cfg, t, ticks);
    if ticks != [] {
      var x := ticks[0];
      var first := Step(cfg, t, x.index, x.input, x.now);
      RunFirst(cfg, t, ticks);
      StepKeepsHeldImpliesActive(cfg, t, x.index, x.input, x.now);
      StepEventBounds(cfg, t, x.index, x.input, x.now);
      if x.index != i {
        StepOtherChannels(cfg, t, x.index, x.input, x.now, i);
        assert EventsOf(first.events, i) == [];
      } else {
        assert ticks[0].index == i;
        StepHeld(cfg, t, x.index, x.input, x.now);
        StepPushed(cfg, t, x.index, x.input, x.now);
        assert first.table.stamps[i] == t.stamps[i] && first.table.held[i] == t.held[i];
        assert first.events == [];
      }
      forall k | 0 <= k < |ticks[1..]| && ticks[1..][k].index == i
        ensures ticks[1..][k].input && (first.table.held[i] ==> ticks[1..][k].now - first.table.stamps[i] < cfg.minHold)
      {
        assert ticks[1..][k] == ticks[k + 1];
      }
      QuietWhileActive(cfg, first.table, i, ticks[1..]);
      EventsOfAppend(first.events, Run(cfg, first.table, ticks[1..]).events, i);
    }
  }

  /** The tick that sees channel `i` go active from inactive restarts its
      timer at `t0`, makes it a hold candidate and, with a positive hold
      length, fires nothing. */
  lemma {:induction false} RisingEdge(cfg: Config, t: Table, i: nat, t0: nat)
    requires WellFormed(t) && HeldImpliesActive(t) && i < Selector.Channels && !t.levels[i]
    requires cfg.minHold > 0
    ensures WellFormed(Step(cfg, t, i, true, t0).table) && HeldImpliesActive(Step(cfg, t, i, true, t0).table)
    ensures Step(cfg, t, i, true, t0).table.stamps[i] == t0
    ensures Step(cfg, t, i, true, t0).table.levels[i]
    ensures Step(cfg, t, i, true, t0).table.held[i]
    ensures Step(cfg, t, i, true, t0).events == []
  {
    StepHeld(cfg, t, i, true, t0);
    StepPushed(cfg, t, i, true, t0);
    StepKeepsHeldImpliesActive(cfg, t, i, true, t0);
  }

  /** The tick that sees an active hold candidate `i` go inactive at `t1`
      fires `Pushed` with the time since its timer started exactly when that
      reaches the minimum press length, and leaves the channel inactive and
      not a hold candidate. */
  lemma {:induction false} FallingEdge(cfg: Config, t: Table, i: nat, t1: nat)
    requires WellFormed(t) && i < Selector.Channels && t.levels[i] && t.held[i]
    ensures WellFormed(Step(cfg, t, i, false, t1).table)
    ensures !Step(cfg, t, i, false, t1).table.levels[i] && !Step(cfg, t, i, false, t1).table.held[i]
    ensures Step(cfg, t, i, false, t1).events ==
            if t1 - t.stamps[i] >= cfg.minTrigger then [Pushed(i, t1 - t.stamps[i])] else []
  {
    var reset := IdleReset(t, i, t1);
    assert reset.stamps[i] == t.stamps[i] && reset.levels[i] && reset.held[i];
    var released := Release(cfg, reset, i, false, t1);
    assert released.table.levels[i];
    var tracked := Track(released.table, i, false, t1);
    assert !tracked.levels[i] && !tracked.held[i];
    assert Hold(cfg, tracked, i, t1) == StepResult(tracked, []);
  }

  /** The tick that reads an active hold candidate `i` still active at
      `th`, at least the hold length after its timer started, fires `Held`
      with that time and leaves the channel active and no longer a hold
      candidate. */
  lemma {:induction false} HoldFires(cfg: Config, t: Table, i: nat, th: nat)
    requires WellFormed(t) && HeldImpliesActive(t) && i < Selector.Channels && t.levels[i] && t.held[i]
    requires th - t.stamps[i] >= cfg.minHold
    ensures WellFormed(Step(cfg, t, i, true, th).table) && HeldImpliesActive(Step(cfg, t, i, true, th).table)
    ensures Step(cfg, t, i, true, th).table.levels[i] && !Step(cfg, t, i, true, th).table.held[i]
    ensures Step(cfg, t, i, true, th).events == [Held(i, th - t.stamps[i])]
  {
    var reset := IdleReset(t, i, th);
    assert reset.stamps[i] == t.stamps[i] && reset.levels[i] && reset.held[i];
    var released := Release(cfg, reset, i, true, th);
    assert released == StepResult(reset, []);
    assert Track(reset, i, true, th) == reset;
    StepKeepsHeldImpliesActive(cfg, t, i, true, th);
  }

  /** The first part of every press: the rising edge at `t0`, then active
      reads of `i` short of the hold length. The channel is then active, a
      hold candidate timed from `t0`, and nothing has fired for it. */
  lemma {:induction false} PressedPart(cfg: Config, t: Table, i: nat, t0: nat, mid: seq<Tick>)
    requires WellFormed(t) && HeldImpliesActive(t) && Indexed(mid)
    requires i < Selector.Channels && !t.levels[i] && cfg.minHold > 0
    requires forall k :: 0 <= k < |mid| && mid[k].index == i ==> mid[k].input && mid[k].now - t0 < cfg.minHold
    ensures WellFormed(Run(cfg, t, [Tick(i, true, t0)] + mid).table)
    ensures HeldImpliesActive(Run(cfg, t, [Tick(i, true, t0)] + mid).table)
    ensures Run(cfg, t, [Tick(i, true, t0)] + mid).table.stamps[i] == t0
    ensures Run(cfg, t, [Tick(i, true, t0)] + mid).table.levels[i]
    ensures Run(cfg, t, [Tick(i, true, t0)] + mid).table.held[i]
    ensures EventsOf(Run(cfg, t, [Tick(i, true, t0)] + mid).events, i) == []
  {
    var rise := [Tick(i, true, t0)];
    RunAppend(cfg, t, rise, mid);
    RunSingle(cfg, t, rise[0]);
    var r1 := Run(cfg, t, rise);
    RisingEdge(cfg, t, i, t0);
    QuietWhileActive(cfg, r1.table, i, mid);
    RunKeepsHeldImpliesActive(cfg, r1.table, mid);
    EventsOfAppend(r1.events, Run(cfg, r1.table, mid).events, i);
  }

  /** A press of channel `i` that goes active at `t0` and is read inactive
      at `t1`, with only active reads of `i` short of the hold length in
      between, reports exactly one `Pushed(i, t1 - t0)` when it lasted at
      least the minimum press length and nothing at all otherwise; the
      channel ends inactive and not a hold candidate. */
  lemma {:induction false} PressThenRelease(cfg: Config, t: Table, i: nat, t0: nat, mid: seq<Tick>, t1: nat)
    requires WellFormed(t) && HeldImpliesActive(t) && Indexed(mid)
    requires i < Selector.Channels && !t.levels[i] && cfg.minHold > 0
    requires forall k :: 0 <= k < |mid| && mid[k].index == i ==> mid[k].input && mid[k].now - t0 < cfg.minHold
    ensures WellFormed(Run(cfg, t, [Tick(i, true, t0)] + mid + [Tick(i, false, t1)]).table)
    ensures EventsOf(Run(cfg, t, [Tick(i, true, t0)] + mid + [Tick(i, false, t1)]).events, i) ==
            if t1 - t0 >= cfg.minTrigger then [Pushed(i, t1 - t0)] else []
    ensures !Run(cfg, t, [Tick(i, true, t0)] + mid + [Tick(i, false, t1)]).table.levels[i]
    ensures !Run(cfg, t, [Tick(i, true, t0)] + mid + [Tick(i, false, t1)]).table.held[i]
  {
    var pressed := [Tick(i, true, t0)] + mid;
    PressedPart(cfg, t, i, t0, mid);
    var r2 := Run(cfg, t, pressed);
    RunLast(cfg, t, pressed, Tick(i, false, t1));
    FallingEdge(cfg, r2.table, i, t1);
    EventsOfQuietThen(r2.events, Step(cfg, r2.table, i, false, t1).events, i);
  }

  /** A press of channel `i` that goes active at `t0`, is still read active
      at `th`, at least the hold length later, and is read inactive at `t1`
      reports `Held(i, th - t0)` and nothing else: the `Held` clears the
      hold candidate, so the release that follows fires no `Pushed`. Between
      the rising edge and `th` only active reads of `i` short of the hold
      length occur, and between `th` and `t1` only active reads of `i`. */
  lemma {:induction false} HoldThenRelease(cfg: Config, t: Table, i: nat, t0: nat, mid1: seq<Tick>, th: nat, mid2: seq<Tick>, t1: nat)
    requires WellFormed(t) && HeldImpliesActive(t) && Indexed(mid1) && Indexed(mid2)
    requires i < Selector.Channels && !t.levels[i] && cfg.minHold > 0
    requires forall k :: 0 <= k < |mid1| && mid1[k].index == i ==> mid1[k].input && mid1[k].now - t0 < cfg.minHold
    requires th - t0 >= cfg.minHold
    requires forall k :: 0 <= k < |mid2| && mid2[k].index == i ==> mid2[k].input
    ensures EventsOf(Run(cfg, t, [Tick(i, true, t0)] + mid1 + [Tick(i, true, th)] + mid2 + [Tick(i, false, t1)]).events, i) ==
            [Held(i, th - t0)]
  {
    var rise, hold, fall := [Tick(i, true, t0)], [Tick(i, true, th)], [Tick(i, false, t1)];
    HeldPart(cfg, t, i, t0, mid1, th);
    RunAppend(cfg, t, rise + mid1 + hold, mid2);
    RunAppend(cfg, t, rise + mid1 + hold + mid2, fall);
    var h := Run(cfg, t, rise + mid1 + hold);
    // Still active, no longer a hold candidate.
    QuietWhileActive(cfg, h.table, i, mid2);
    RunKeepsHeldImpliesActive(cfg, h.table, mid2);
    var r3 := Run(cfg, h.table, mid2);
    // The release tick fires nothing.
    RunSingle(cfg, r3.table, fall[0]);
    StepPushed(cfg, r3.table, i, false, t1);
    StepHeld(cfg, r3.table, i, false, t1);
    var last := Step(cfg, r3.table, i, false, t1);
    assert last.events == [];
    EventsOfAppend(h.events, r3.events, i);
    EventsOfAppend(h.events + r3.events, last.events, i);
  }

  /** The first part of a long press: the rising edge at `t0`, active reads
      short of the hold length, then an active read at `th`, at least the
      hold length after `t0`, which fires `Held(i, th - t0)` and leaves the
      channel active and no longer a hold candidate. */
  lemma {:induction false} HeldPart(cfg: Config, t: Table, i: nat, t0: nat, mid1: seq<Tick>, th: nat)
    requires WellFormed(t) && HeldImpliesActive(t) && Indexed(mid1)
    requires i < Selector.Channels && !t.levels[i] && cfg.minHold > 0
    requires forall k :: 0 <= k < |mid1| && mid1[k].index == i ==> mid1[k].input && mid1[k].now - t0 < cfg.minHold
    requires th - t0 >= cfg.minHold
    ensures WellFormed(Run(cfg, t, [Tick(i, true, t0)] + mid1 + [Tick(i, true, th)]).table)
    ensures HeldImpliesActive(Run(cfg, t, [Tick(i, true, t0)] + mid1 + [Tick(i, true, th)]).table)
    ensures Run(cfg, t, [Tick(i, true, t0)] + mid1 + [Tick(i, true, th)]).table.levels[i]
    ensures !Run(cfg, t, [Tick(i, true, t0)] + mid1 + [Tick(i, true, th)]).table.held[i]
    ensures EventsOf(Run(cfg, t, [Tick(i, true, t0)] + mid1 + [Tick(i, true, th)]).events, i) == [Held(i, th - t0)]
  {
    var pressed := [Tick(i, true, t0)] + mid1;
    PressedPart(cfg, t, i, t0, mid1);
    var r2 := Run(cfg, t, pressed);
    RunLast(cfg, t, pressed, Tick(i, true, th));
    HoldFires(cfg, r2.table, i, th);
    EventsOfQuietThen(r2.events, Step(cfg, r2.table, i, true, th).events, i);
  }
}
