/**
 * The readiness side of a video texture, as values: what `_onCanPlay` does
 * to the texture's load flags and size, and the guard that keeps the
 * "loaded" notification to one.
 */
module Loading {
  import opened Wrappers

  datatype Dims = Dims(width: int, height: int)

  /**
   * `hasLoaded` is the base texture's flag, `loaded` the texture's own
   * `__loaded` guard, `emits` the number of "loaded" notifications sent.
   */
  datatype State = State(hasLoaded: bool, loaded: bool, emits: nat, width: int, height: int)

  /**
   * The state right after construction. The base texture (not part of this
   * model) counts a complete source with a non-zero size as loaded and takes
   * that size; otherwise the size stays 0 until the video can play.
   */
  function Initial(sourceLoaded: bool, width: int, height: int): State
  {
    State(sourceLoaded, false, 0, if sourceLoaded then width else 0, if sourceLoaded then height else 0)
  }

  /**
   * `_onCanPlay`, given the video's intrinsic size when the texture still
   * holds its source and None when the source has been released.
   */
  function CanPlay(s: State, video: Option<Dims>): State
  {
    match video
    case None => s.(hasLoaded := true)
    case Some(d) => State(true, true, if s.loaded then s.emits else s.emits + 1, d.width, d.height)
  }

  /** The guard and the count agree: one notification once the guard is set, none before. */
  predicate Guarded(s: State)
  {
    s.emits == if s.loaded then 1 else 0
  }

  /** The state after a history of `_onCanPlay` calls, the last call last. */
  function CanPlayAll(s: State, calls: seq<Option<Dims>>): State
    decreases |calls|
  {
    if calls == [] then s else CanPlay(CanPlayAll(s, calls[..|calls| - 1]), calls[|calls| - 1])
  }

  /** Some call of the history saw the source. */
  predicate AnyPresent(calls: seq<Option<Dims>>)
  {
    exists i :: 0 <= i < |calls| && calls[i].Some?
  }

  /** The size reported by the last call that saw the source, or `d` when none did. */
  function LastDims(d: Dims, calls: seq<Option<Dims>>): Dims
    decreases |calls|
  {
    if calls == [] then d
    else if calls[|calls| - 1].Some? then calls[|calls| - 1].value
    else LastDims(d, calls[..|calls| - 1])
  }

  /**
   * Across any history of `_onCanPlay` calls: at most one "loaded"
   * notification, sent by the first call that sees the source; the guard is
   * never cleared; `hasLoaded` is set by any call; the size is the last one
   * read from the video.
   */
  lemma {:induction false} CanPlayAllSpec(s: State, calls: seq<Option<Dims>>)
    requires Guarded(s)
    ensures Guarded(CanPlayAll(s, calls))
    ensures CanPlayAll(s, calls).emits <= 1
    ensures CanPlayAll(s, calls).loaded <==> s.loaded || AnyPresent(calls)
    ensures s.loaded ==> CanPlayAll(s, calls).emits == s.emits
    ensures CanPlayAll(s, calls).hasLoaded <==> s.hasLoaded || calls != []
    ensures Dims(CanPlayAll(s, calls).width, CanPlayAll(s, calls).height) == LastDims(Dims(s.width, s.height), calls)
    decreases |calls|
  {
    if calls != [] {
      var prefix := calls[..|calls| - 1];
      CanPlayAllSpec(s, prefix);
      if AnyPresent(prefix) {
        var i :| 0 <= i < |prefix| && prefix[i].Some?;
        assert calls[i].Some?;
      }
      if calls[|calls| - 1].Some? {
        assert AnyPresent(calls);
      }
      if AnyPresent(calls) && !AnyPresent(prefix) {
        var i :| 0 <= i < |calls| && calls[i].Some?;
        if i < |prefix| {
          assert prefix[i].Some?;
        }
      }
    }
  }
}
