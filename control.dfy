/**
 * `MultiplexerControl8`: the scan controller that owns the three select
 * lines, visits the selector indices 0..7 and notifies the registered
 * observers at each index.
 *
 * The background thread is abstracted: `running` stands for "a thread
 * object is present" (`thread_loop != nullptr`), `terminate` for the
 * `bTerminate` flag, and one iteration of the outer `while (!bTerminate)`
 * loop of `event_loop` is the method `Pass`, which returns the select-line
 * writes and the notifications it makes instead of performing them.
 */
module Control {
  import Selector

  /** Default sleep between two scan ticks, in nanoseconds (125 microseconds). */
  const DefaultScanInterval: nat := 125_000

  /** One slot of `change_notify`: a callable that is empty or that reaches
      the observer identified by `handle`. */
  datatype Observer = Empty | Live(handle: nat)

  /** One call of an observer: the selector index and its bit view, as the
      union passed by reference carries them, and the observer called. */
  datatype Notification = Notification(index: nat, lines: Selector.Lines, observer: nat)

  /** The handles of the non-empty slots, in slot order. */
  function LiveHandles(obs: seq<Observer>): seq<nat>
  {
    if obs == [] then []
    else LiveHandles(obs[..|obs| - 1]) + (match obs[|obs| - 1] case Empty => [] case Live(h) => [h])
  }

  /** What one scan tick at `index` notifies: every non-empty slot once, in
      slot order. */
  function TickNotes(obs: seq<Observer>, index: nat): seq<Notification>
    requires index < Selector.Channels
  {
    var hs := LiveHandles(obs);
    seq(|hs|, p requires 0 <= p < |hs| => Notification(index, Selector.Decompose(index), hs[p]))
  }

  /** The notifications of the first `n` ticks of a pass, indices 0..n-1. */
  function ScanNotes(obs: seq<Observer>, n: nat): seq<Notification>
    requires n <= Selector.Channels
  {
    if n == 0 then [] else ScanNotes(obs, n - 1) + TickNotes(obs, n - 1)
  }

  /** The select-line levels driven by the first `n` ticks of a pass. */
  function ScanLines(n: nat): seq<Selector.Lines>
    requires n <= Selector.Channels
  {
    if n == 0 then [] else ScanLines(n - 1) + [Selector.Decompose(n - 1)]
  }

  /** The non-empty slots, packed to the front in their order. */
  function LiveOnly(obs: seq<Observer>): seq<Observer>
  {
    if obs == [] then []
    else LiveOnly(obs[..|obs| - 1]) + (if obs[|obs| - 1].Live? then [obs[|obs| - 1]] else [])
  }

  /** `n` empty slots. */
  function Empties(n: nat): seq<Observer>
  {
    if n == 0 then [] else Empties(n - 1) + [Empty]
  }

  /** The observer list after `std::remove_if` removes the empty callables and
      its result is discarded: the survivors move to the front in order, the
      tail keeps moved-from (empty) callables, and no slot is erased. */
  function Compact(obs: seq<Observer>): seq<Observer>
  {
    var live := LiveOnly(obs);
    LiveOnlyLength(obs);
    live + Empties(|obs| - |live|)
  }

  lemma {:induction false} LiveOnlyLength(obs: seq<Observer>)
    ensures |LiveOnly(obs)| <= |obs|
  {
    if obs != [] { LiveOnlyLength(obs[..|obs| - 1]); }
  }

  lemma {:induction false} LiveHandlesAppend(a: seq<Observer>, b: seq<Observer>)
    ensures LiveHandles(a + b) == LiveHandles(a) + LiveHandles(b)
    decreases |b|
  {
    if b == [] {
      assert a + b == a;
    } else {
      assert (a + b)[..|a + b| - 1] == a + b[..|b| - 1];
      LiveHandlesAppend(a, b[..|b| - 1]);
    }
  }

  lemma {:induction false} LiveHandlesOfLiveOnly(obs: seq<Observer>)
    ensures LiveHandles(LiveOnly(obs)) == LiveHandles(obs)
  {
    if obs != [] {
      var init, last := obs[..|obs| - 1], obs[|obs| - 1];
      LiveHandlesOfLiveOnly(init);
      var tail := if last.Live? then [last] else [];
      LiveHandlesAppend(LiveOnly(init), tail);
      if last.Live? {
        assert LiveHandles(tail) == LiveHandles([]) + [last.handle];
      }
    }
  }

  lemma {:induction false} LiveHandlesOfEmpties(n: nat)
    ensures LiveHandles(Empties(n)) == []
  {
    if n > 0 {
      LiveHandlesOfEmpties(n - 1);
      EmptiesLength(n - 1);
      assert Empties(n)[..|Empties(n)| - 1] == Empties(n - 1);
    }
  }

  /** The discarded `remove_if` leaves the list length unchanged and keeps
      the non-empty callables in their order; so the next pass notifies
      exactly as this one did. */
  lemma {:induction false} CompactKeepsObservers(obs: seq<Observer>)
    ensures |Compact(obs)| == |obs|
    ensures LiveHandles(Compact(obs)) == LiveHandles(obs)
    ensures forall index :: 0 <= index < Selector.Channels ==> TickNotes(Compact(obs), index) == TickNotes(obs, index)
  {
    LiveOnlyLength(obs);
    var live := LiveOnly(obs);
    LiveHandlesAppend(live, Empties(|obs| - |live|));
    LiveHandlesOfEmpties(|obs| - |live|);
    LiveHandlesOfLiveOnly(obs);
    EmptiesLength(|obs| - |live|);
  }

  lemma {:induction false} EmptiesLength(n: nat)
    ensures |Empties(n)| == n
  {
    if n > 0 { EmptiesLength(n - 1); }
  }

  lemma {:induction false} ScanLinesAt(n: nat)
    requires n <= Selector.Channels
    ensures |ScanLines(n)| == n
    ensures forall k :: 0 <= k < n ==> ScanLines(n)[k] == Selector.Decompose(k)
  {
    if n > 0 { ScanLinesAt(n - 1); }
  }

  /** Position `p` of a run of blocks of width `w` lies in block `p / w` at
      offset `p % w`. */
  lemma {:induction false} BlockPosition(p: int, q: int, w: int)
    requires w > 0 && q >= 0 && q * w <= p < q * w + w
    ensures p / w == q && p % w == p - q * w
  {
    var k, r := p / w, p % w;
    assert p == k * w + r && 0 <= r < w;
    assert (k + 1) * w == k * w + w && (q + 1) * w == q * w + w;
    if k < q {
      MulMonotone(k + 1, q, w);
      assert false;
    } else if k > q {
      MulMonotone(q + 1, k, w);
      assert false;
    }
  }

  lemma {:induction false} MulMonotone(a: int, b: int, w: int)
    requires a <= b && w > 0
    ensures a * w <= b * w
  {
    assert b * w - a * w == (b - a) * w;
  }

  lemma {:induction false} ScanNotesLength(obs: seq<Observer>, n: nat)
    requires n <= Selector.Channels
    ensures |ScanNotes(obs, n)| == n * |LiveHandles(obs)|
  {
    if n > 0 {
      ScanNotesLength(obs, n - 1);
      var w := |LiveHandles(obs)|;
      assert (n - 1) * w + w == n * w;
    }
  }

  lemma {:induction false} ScanNotesAt(obs: seq<Observer>, n: nat, p: nat)
    requires n <= Selector.Channels
    requires p < n * |LiveHandles(obs)|
    ensures |ScanNotes(obs, n)| == n * |LiveHandles(obs)|
    ensures 0 < |LiveHandles(obs)| && p / |LiveHandles(obs)| < n
    ensures ScanNotes(obs, n)[p] == Notification(p / |LiveHandles(obs)|, Selector.Decompose(p / |LiveHandles(obs)|),
                                                 LiveHandles(obs)[p % |LiveHandles(obs)|])
  {
    ScanNotesLength(obs, n);
    ScanNotesLength(obs, n - 1);
    var w := |LiveHandles(obs)|;
    var prev := ScanNotes(obs, n - 1);
    assert (n - 1) * w + w == n * w;
    if p < |prev| {
      ScanNotesAt(obs, n - 1, p);
    } else {
      BlockPosition(p, n - 1, w);
    }
  }

  /** The `n` first ticks of a pass visit the indices 0..n-1 in increasing
      order and, at each index, call every non-empty observer once, in
      list order: notification `p` is observer `p % L` at index `p / L`,
      where `L` is the number of non-empty slots. */
  lemma {:induction false} ScanNotesOrder(obs: seq<Observer>, n: nat)
    requires n <= Selector.Channels
    ensures |ScanNotes(obs, n)| == n * |LiveHandles(obs)|
    ensures forall p :: 0 <= p < |ScanNotes(obs, n)| ==>
      p / |LiveHandles(obs)| < n && ScanNotes(obs, n)[p] ==
        Notification(p / |LiveHandles(obs)|, Selector.Decompose(p / |LiveHandles(obs)|), LiveHandles(obs)[p % |LiveHandles(obs)|])
  {
    ScanNotesLength(obs, n);
    forall p | 0 <= p < |ScanNotes(obs, n)|
      ensures p / |LiveHandles(obs)| < n && ScanNotes(obs, n)[p] ==
        Notification(p / |LiveHandles(obs)|, Selector.Decompose(p / |LiveHandles(obs)|), LiveHandles(obs)[p % |LiveHandles(obs)|])
    {
      ScanNotesAt(obs, n, p);
    }
  }

  /** Start and stop requests of the scan lifecycle. */
  datatype Request = StartRequest | StopRequest

  /** The lifecycle state: whether a scan thread is present and the value of
      the terminate flag. */
  datatype Lifecycle = Lifecycle(running: bool, terminate: bool)

  /** The state after one request, and the value the request returns. */
  function Apply(s: Lifecycle, r: Request): (Lifecycle, bool)
  {
    match r
    case StartRequest => if s.running then (s, false) else (Lifecycle(true, s.terminate), true)
    case StopRequest => if !s.running then (s, false) else (Lifecycle(false, true), true)
  }

  /** The state after a sequence of requests. */
  function Run(s: Lifecycle, rs: seq<Request>): Lifecycle
    decreases |rs|
  {
    if rs == [] then s else Run(Apply(s, rs[0]).0, rs[1..])
  }

  /** A start succeeds exactly when no scan is running, a stop exactly when
      one is; after either, a scan is running exactly when the request was a
      start. Only a successful stop touches the terminate flag, and only to
      set it. */
  lemma {:induction false} ApplyContract(s: Lifecycle, r: Request)
    ensures Apply(s, r).1 <==> (r.StartRequest? != s.running)
    ensures Apply(s, r).0.running <==> (if Apply(s, r).1 then r.StartRequest? else s.running)
    ensures Apply(s, r).0.terminate <==> s.terminate || (r.StopRequest? && s.running)
  {
  }

  /** Nothing ever clears the terminate flag. */
  lemma {:induction false} TerminateSticky(s: Lifecycle, rs: seq<Request>)
    requires s.terminate
    ensures Run(s, rs).terminate
    decreases |rs|
  {
    if rs != [] { TerminateSticky(Apply(s, rs[0]).0, rs[1..]); }
  }

  lemma {:induction false} RunAppend(s: Lifecycle, a: seq<Request>, b: seq<Request>)
    ensures Run(s, a + b) == Run(Run(s, a), b)
    decreases |a|
  {
    if a == [] {
      assert a + b == b;
    } else {
      assert (a + b)[0] == a[0] && (a + b)[1..] == a[1..] + b;
      var s' := Apply(s, a[0]).0;
      assert Run(s, a + b) == Run(s', a[1..] + b);
      assert Run(s, a) == Run(s', a[1..]);
      RunAppend(s', a[1..], b);
    }
  }

  /** What one pass of the event loop produces from a lifecycle state and an
      observer list: nothing once terminate is set, otherwise the eight
      select-line writes and the notifications of indices 0..7. */
  function PassOutput(terminate: bool, obs: seq<Observer>): (seq<Selector.Lines>, seq<Notification>)
  {
    if terminate then ([], []) else (ScanLines(Selector.Channels), ScanNotes(obs, Selector.Channels))
  }

  /** Once a running scan has been stopped, whatever starts and stops follow,
      every later pass drives no line and notifies no observer: a restart
      returns true but its loop runs no tick. */
  lemma {:induction false} SilentAfterStop(s: Lifecycle, before: seq<Request>, after: seq<Request>, obs: seq<Observer>)
    requires Run(s, before).running
    ensures PassOutput(Run(s, before + [StopRequest] + after).terminate, obs) == ([], [])
  {
    RunAppend(s, before, [StopRequest]);
    RunAppend(s, before + [StopRequest], after);
    assert Run(Run(s, before), [StopRequest]).terminate;
    TerminateSticky(Run(s, before + [StopRequest]), after);
  }

  /** The scan controller. */
  class MultiplexerControl8 {
    /** `change_notify`: the registered observers, in notification order. */
    var changeNotify: seq<Observer>
    /** A scan thread is present (`thread_loop != nullptr`). */
    var running: bool
    /** `bTerminate`. */
    var terminate: bool
    /** The sleep between ticks, in nanoseconds; only the thread uses it. */
    const sleepInterval: nat

    constructor(sleepInterval: nat := DefaultScanInterval)
      ensures changeNotify == [] && !running && !terminate
      ensures this.sleepInterval == sleepInterval
    {
      this.sleepInterval := sleepInterval;
      changeNotify := [];
      running := false;
      terminate := false;
    }

    /** `start`: refuses when a thread is present, otherwise creates one. */
    method Start() returns (ok: bool)
      modifies this`running
      ensures ok <==> !old(running)
      ensures running
      ensures (Lifecycle(running, terminate), ok) == Apply(old(Lifecycle(running, terminate)), StartRequest)
    {
      if running {
        return false;
      }
      running := true;
      return true;
    }

    /** `stop`: refuses when no thread is present, otherwise sets the
        terminate flag, joins the thread and drops it. */
    method Stop() returns (ok: bool)
      modifies this`running, this`terminate
      ensures ok <==> old(running)
      ensures !running
      ensures terminate <==> old(terminate) || old(running)
      ensures (Lifecycle(running, terminate), ok) == Apply(old(Lifecycle(running, terminate)), StopRequest)
    {
      if !running {
        return false;
      }
      terminate := true;
      running := false;
      return true;
    }

    /** One scan tick: drive the select lines from the bit view of `index`,
        then call every non-empty observer in list order. */
    method Tick(index: nat) returns (lines: Selector.Lines, notes: seq<Notification>)
      requires index < Selector.Channels
      ensures lines == Selector.Decompose(index) && Selector.Recombine(lines) == index
      ensures |notes| == |LiveHandles(changeNotify)|
      ensures forall p :: 0 <= p < |notes| ==> notes[p] == Notification(index, lines, LiveHandles(changeNotify)[p])
    {
      lines := Selector.Decompose(index);
      notes := [];
      var k := 0;
      while k < |changeNotify|
        invariant 0 <= k <= |changeNotify|
        invariant notes == TickNotes(changeNotify[..k], index)
      {
        assert changeNotify[..k + 1][..k] == changeNotify[..k];
        if changeNotify[k].Live? {
          notes := notes + [Notification(index, lines, changeNotify[k].handle)];
        }
        k := k + 1;
      }
      assert changeNotify[..k] == changeNotify;
    }

    /** One iteration of the event loop: unless terminate is set, eight ticks
        at indices 0..7 in order, then the `remove_if` compaction. */
    method Pass() returns (writes: seq<Selector.Lines>, notes: seq<Notification>)
      requires running
      modifies this`changeNotify
      ensures (writes, notes) == PassOutput(terminate, old(changeNotify))
      ensures changeNotify == if terminate then old(changeNotify) else Compact(old(changeNotify))
    {
      writes, notes := [], [];
      if terminate {
        return;
      }
      var index := 0;
      while index < Selector.Channels
        invariant 0 <= index <= Selector.Channels
        invariant changeNotify == old(changeNotify) && terminate == old(terminate)
        invariant writes == ScanLines(index)
        invariant notes == ScanNotes(changeNotify, index)
      {
        var lines, tickNotes := Tick(index);
        assert tickNotes == TickNotes(changeNotify, index);
        writes := writes + [lines];
        notes := notes + tickNotes;
        index := index + 1;
      }
      changeNotify := Compact(changeNotify);
    }
  }
}
