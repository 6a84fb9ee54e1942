/**
 * The play/pause-driven update scheduler of a video texture, as values.
 * `pending` counts animation-frame requests made and not yet delivered;
 * `updates` counts calls of the base texture's `update()` (the GPU upload).
 */
module Scheduler {
  datatype State = State(autoUpdate: bool, pending: nat, updates: nat)

  /** What the browser may deliver: the `play` and `pause` events and one animation frame. */
  datatype Signal = Play | Pause | Frame

  /** A freshly constructed texture: not updating, nothing requested. */
  const Idle: State := State(false, 0, 0)

  /** `_onPlayStart`: the first play signal requests a frame and turns updating on. */
  function PlayStart(s: State): State
  {
    if !s.autoUpdate then State(true, s.pending + 1, s.updates) else s
  }

  /** `_onPlayStop`: turns updating off; a frame already requested stays pending. */
  function PlayStop(s: State): State
  {
    s.(autoUpdate := false)
  }

  /** `_onUpdate`: while updating, requests the next frame and uploads once. */
  function OnUpdate(s: State): State
  {
    if s.autoUpdate then s.(pending := s.pending + 1, updates := s.updates + 1) else s
  }

  /** The browser delivering one pending frame request to `_onUpdate`. */
  function DeliverFrame(s: State): State
  {
    if s.pending == 0 then s else OnUpdate(s.(pending := s.pending - 1))
  }

  function Step(s: State, signal: Signal): State
  {
    match signal
    case Play => PlayStart(s)
    case Pause => PlayStop(s)
    case Frame => DeliverFrame(s)
  }

  /** The state after the signals, in order. */
  function Run(s: State, signals: seq<Signal>): State
    decreases |signals|
  {
    if signals == [] then s else Run(Step(s, signals[0]), signals[1..])
  }

  function Repeat(signal: Signal, n: nat): seq<Signal>
  {
    if n == 0 then [] else [signal] + Repeat(signal, n - 1)
  }

  function CountFrames(signals: seq<Signal>): nat
    decreases |signals|
  {
    if signals == [] then 0 else (if signals[0] == Frame then 1 else 0) + CountFrames(signals[1..])
  }

  /** While updating, a frame request is always outstanding. */
  predicate Live(s: State)
  {
    s.autoUpdate ==> s.pending >= 1
  }

  /** Every sequence of signals keeps a texture that updates subscribed to a frame. */
  lemma {:induction false} RunKeepsLive(s: State, signals: seq<Signal>)
    requires Live(s)
    ensures Live(Run(s, signals))
    decreases |signals|
  {
    if signals != [] {
      RunKeepsLive(Step(s, signals[0]), signals[1..]);
    }
  }

  /** Uploads never go backwards, and there is at most one per delivered frame. */
  lemma {:induction false} RunUpdatesBound(s: State, signals: seq<Signal>)
    ensures s.updates <= Run(s, signals).updates <= s.updates + CountFrames(signals)
    decreases |signals|
  {
    if signals != [] {
      RunUpdatesBound(Step(s, signals[0]), signals[1..]);
    }
  }

  /**
   * Any number of consecutive play signals act like one: updating is on and
   * exactly one frame request has been added, none when it was already on.
   */
  lemma {:induction false} RepeatedPlay(s: State, n: nat)
    requires n >= 1
    ensures Run(s, Repeat(Play, n)) == PlayStart(s)
    ensures Run(s, Repeat(Play, n)).autoUpdate
    ensures Run(s, Repeat(Play, n)).pending == s.pending + (if s.autoUpdate then 0 else 1)
    ensures Run(s, Repeat(Play, n)).updates == s.updates
    decreases n
  {
    if n > 1 {
      RepeatedPlay(PlayStart(s), n - 1);
    }
  }

  /** While updating, each delivered frame uploads once and replaces the request it consumed. */
  lemma {:induction false} PlayingFrames(s: State, n: nat)
    requires s.autoUpdate && s.pending >= 1
    ensures Run(s, Repeat(Frame, n)) == s.(updates := s.updates + n)
    decreases n
  {
    if n > 0 {
      PlayingFrames(DeliverFrame(s), n - 1);
    }
  }

  /** Once stopped, frames upload nothing and request nothing: the pending requests drain. */
  lemma {:induction false} StoppedFrames(s: State, n: nat)
    requires !s.autoUpdate
    ensures Run(s, Repeat(Frame, n)) == s.(pending := if n <= s.pending then s.pending - n else 0)
    decreases n
  {
    if n > 0 {
      StoppedFrames(DeliverFrame(s), n - 1);
    }
  }

  /** Pausing a texture with one request pending: the next frame drops it and uploads nothing. */
  lemma PauseThenFrame(s: State)
    requires s.autoUpdate && s.pending == 1
    ensures Run(s, [Pause, Frame]) == State(false, 0, s.updates)
  {
  }

  /** Play, two frames, pause, one more frame: two uploads, nothing left pending. */
  lemma PlaybackScenario()
    ensures Run(Idle, [Play, Frame, Frame, Pause, Frame]) == State(false, 0, 2)
  {
  }

  /**
   * `_onPlayStart` tests `autoUpdate` only, not whether a request is still
   * pending: play, pause and play again before a frame arrives leaves two
   * request chains, and from then on every chain uploads on every frame.
   */
  lemma PlayPausePlayTwoChains()
    ensures Run(Idle, [Play, Pause, Play]) == State(true, 2, 0)
    ensures Run(State(true, 2, 0), [Frame, Frame]) == State(true, 2, 2)
  {
  }
}
