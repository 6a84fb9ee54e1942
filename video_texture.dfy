/**
 * A texture whose pixels come from a playing video element (`VideoBaseTexture`),
 * the video element it borrows, and the process-wide cache `fromVideo`
 * and `destroy` keep, here an explicit registry object.
 *
 * Not modelled, by design of the source file itself: `fromUrl`/`fromUrls`
 * build a DOM element and end by calling `VideoBaseTexture.textureFromVideo`,
 * which that file does not define, and their array branch passes the whole
 * array, not `videoSrc[i]`, to `createSource`.
 */
module VideoTexture {
  import opened Wrappers
  import ReadyState
  import Ids
  import Scheduler
  import Loading

  /** The events the texture listens for on its video. */
  datatype EventName = CanPlay | CanPlayThrough | Play | Pause

  /**
   * One registration on a video: the callback texture `owner` bound for `event`
   * (`_onCanPlay` for the two readiness events, `_onPlayStart` for play,
   * `_onPlayStop` for pause). A texture registers at most one per event.
   */
  datatype Listener = Listener(event: EventName, owner: VideoBaseTexture)

  function ReadinessListeners(t: VideoBaseTexture): set<Listener>
  {
    {Listener(CanPlay, t), Listener(CanPlayThrough, t)}
  }

  function PlaybackListeners(t: VideoBaseTexture): set<Listener>
  {
    {Listener(Play, t), Listener(Pause, t)}
  }

  /** The four listeners a texture registers on a video that is not yet complete. */
  function ListenersOf(t: VideoBaseTexture): set<Listener>
  {
    ReadinessListeners(t) + PlaybackListeners(t)
  }

  /** The `HTMLVideoElement` as far as the texture uses it. */
  class VideoSource {
    var readyState: int
    var width: int
    var height: int
    var videoWidth: int
    var videoHeight: int
    /** The `complete` flag the texture constructor sets for the base texture. */
    var complete: bool
    /** The `_pixiId` property `fromVideo` stores on the element. */
    var pixiId: Option<string>
    var listeners: set<Listener>
    /** How many times `play()` has been called. */
    var playCalls: nat

    constructor (readyState: int, width: int, height: int, videoWidth: int, videoHeight: int)
      ensures this.readyState == readyState && this.width == width && this.height == height
      ensures this.videoWidth == videoWidth && this.videoHeight == videoHeight
      ensures !complete && pixiId == None && listeners == {} && playCalls == 0
    {
      this.readyState := readyState;
      this.width := width;
      this.height := height;
      this.videoWidth := videoWidth;
      this.videoHeight := videoHeight;
      complete := false;
      pixiId := None;
      listeners := {};
      playCalls := 0;
    }

    /** `addEventListener`: registering the same callback twice for one event has no effect. */
    method AddEventListener(l: Listener)
      modifies this`listeners
      ensures listeners == old(listeners) + {l}
    {
      listeners := listeners + {l};
    }

    /** `removeEventListener`: removing a callback that is not registered has no effect. */
    method RemoveEventListener(l: Listener)
      modifies this`listeners
      ensures listeners == old(listeners) - {l}
    {
      listeners := listeners - {l};
    }

    method Play()
      modifies this`playCalls
      ensures playCalls == old(playCalls) + 1
    {
      playCalls := playCalls + 1;
    }
  }

  /** The message of the error the constructor throws without a source. */
  const NoSourceError: string := "No video source element specified."

  class VideoBaseTexture {
    /** The borrowed video; the base texture's `destroy` drops it. */
    var source: VideoSource?
    const scaleMode: int
    var hasLoaded: bool
    var width: int
    var height: int
    var autoUpdate: bool
    /** The `__loaded` guard of the "loaded" notification. */
    var loadedGuard: bool
    /** Animation-frame requests made and not yet delivered. */
    var pendingFrames: nat
    /** Calls of the base texture's `update()`. */
    var updates: nat
    /** "loaded" notifications sent by `_onCanPlay`. */
    var loadedEmits: nat

    function Sched(): Scheduler.State
      reads this
    {
      Scheduler.State(autoUpdate, pendingFrames, updates)
    }

    function Load(): Loading.State
      reads this
    {
      Loading.State(hasLoaded, loadedGuard, loadedEmits, width, height)
    }

    ghost predicate Valid()
      reads this
    {
      Scheduler.Live(Sched()) && Loading.Guarded(Load())
    }

    /**
     * The constructor, for a present source. A decodable source is marked
     * complete before the base texture sees it; only a source that is still
     * not complete gets the four listeners.
     */
    constructor (source: VideoSource, scaleMode: int)
      modifies source
      ensures this.source == source && this.scaleMode == scaleMode
      ensures source.complete == (old(source.complete) || ReadyState.Decodable(source.readyState, source.width, source.height))
      ensures source.listeners == old(source.listeners) + (if source.complete then {} else ListenersOf(this))
      ensures source.readyState == old(source.readyState) && source.width == old(source.width) && source.height == old(source.height)
      ensures source.videoWidth == old(source.videoWidth) && source.videoHeight == old(source.videoHeight)
      ensures source.pixiId == old(source.pixiId) && source.playCalls == old(source.playCalls)
      ensures Load() == Loading.Initial(source.complete && source.width != 0 && source.height != 0, source.width, source.height)
      ensures Sched() == Scheduler.Idle
      ensures Valid()
    {
      if ReadyState.Decodable(source.readyState, source.width, source.height) {
        source.complete := true;
      }
      // The base texture takes the source and, when it is complete and sized, its size.
      this.source := source;
      this.scaleMode := scaleMode;
      var sourceLoaded := source.complete && source.width != 0 && source.height != 0;
      hasLoaded := sourceLoaded;
      width := if sourceLoaded then source.width else 0;
      height := if sourceLoaded then source.height else 0;
      autoUpdate := false;
      loadedGuard := false;
      pendingFrames, updates, loadedEmits := 0, 0, 0;
      new;
      if !source.complete {
        source.AddEventListener(Listener(CanPlay, this));
        source.AddEventListener(Listener(CanPlayThrough, this));
        source.AddEventListener(Listener(Play, this));
        source.AddEventListener(Listener(Pause, this));
      }
    }

    /** `_onUpdate`: while updating, requests the next frame and uploads the current one. */
    method OnUpdate()
      modifies this
      ensures Sched() == Scheduler.OnUpdate(old(Sched()))
      ensures Scheduler.Live(Sched())
      ensures Load() == old(Load()) && source == old(source)
    {
      if autoUpdate {
        pendingFrames := pendingFrames + 1;  // request the next animation frame
        updates := updates + 1;              // the base texture's upload
      }
    }

    /**
     * The browser delivering one pending animation-frame request to
     * `_onUpdate`; nothing happens when none is pending.
     */
    method DeliverFrame()
      requires Valid()
      modifies this
      ensures Valid()
      ensures Sched() == Scheduler.DeliverFrame(old(Sched()))
      ensures Load() == old(Load()) && source == old(source)
    {
      if pendingFrames > 0 {
        pendingFrames := pendingFrames - 1;
        OnUpdate();
      }
    }

    /** `_onPlayStart`: turns updating on, requesting a frame only if it was off. */
    method OnPlayStart()
      requires Valid()
      modifies this
      ensures Valid()
      ensures Sched() == Scheduler.PlayStart(old(Sched()))
      ensures autoUpdate && pendingFrames == old(pendingFrames) + (if old(autoUpdate) then 0 else 1)
      ensures Load() == old(Load()) && source == old(source)
    {
      if !autoUpdate {
        pendingFrames := pendingFrames + 1;  // request the next animation frame
        autoUpdate := true;
      }
    }

    /** `_onPlayStop`: turns updating off. */
    method OnPlayStop()
      requires Valid()
      modifies this
      ensures Valid()
      ensures Sched() == Scheduler.PlayStop(old(Sched()))
      ensures !autoUpdate
      ensures Load() == old(Load()) && source == old(source)
    {
      autoUpdate := false;
    }

    /**
     * `_onCanPlay`: marks the texture loaded; with its source still held it
     * removes both readiness listeners, takes the video's intrinsic size,
     * starts playback and sends "loaded" unless the guard is already set.
     */
    method OnCanPlay()
      requires Valid()
      modifies this, source
      ensures Valid()
      ensures source == old(source)
      ensures Load() == Loading.CanPlay(old(Load()),
        if old(source) == null then None else Some(Loading.Dims(old(source.videoWidth), old(source.videoHeight))))
      ensures hasLoaded && (old(loadedGuard) ==> loadedGuard) && loadedEmits <= 1
      ensures Sched() == old(Sched())
      ensures source != null ==>
        && source.listeners == old(source.listeners) - ReadinessListeners(this)
        && source.playCalls == old(source.playCalls) + 1
        && width == source.videoWidth && height == source.videoHeight
        && source.readyState == old(source.readyState) && source.width == old(source.width)
        && source.height == old(source.height) && source.videoWidth == old(source.videoWidth)
        && source.videoHeight == old(source.videoHeight) && source.complete == old(source.complete)
        && source.pixiId == old(source.pixiId)
    {
      hasLoaded := true;
      if source != null {
        source.RemoveEventListener(Listener(CanPlay, this));
        source.RemoveEventListener(Listener(CanPlayThrough, this));
        width := source.videoWidth;
        height := source.videoHeight;
        source.Play();
        if !loadedGuard {
          loadedGuard := true;
          loadedEmits := loadedEmits + 1;  // the "loaded" notification
        }
      }
    }

    /**
     * `destroy`: when the source carries an id, removes that cache entry and
     * the id; then the base texture's `destroy` releases the source.
     * Listeners stay registered on the video.
     */
    method Destroy(registry: Registry)
      requires registry.Valid()
      modifies this, registry, source
      ensures registry.Valid() && registry.nextUid == old(registry.nextUid)
      ensures source == null
      ensures old(source) != null && old(source.pixiId).Some? ==>
        registry.cache == old(registry.cache) - {old(source.pixiId).value} && old(source).pixiId == None
      ensures !(old(source) != null && old(source.pixiId).Some?) ==> registry.cache == old(registry.cache)
      ensures old(source) != null ==>
        && old(source).listeners == old(source.listeners) && old(source).complete == old(source.complete)
        && old(source).playCalls == old(source.playCalls) && old(source).readyState == old(source.readyState)
        && old(source).width == old(source.width) && old(source).height == old(source.height)
        && old(source).videoWidth == old(source.videoWidth) && old(source).videoHeight == old(source.videoHeight)
        && old(source).pixiId == None
      ensures Sched() == old(Sched()) && Load() == old(Load())
    {
      if source != null && source.pixiId.Some? {
        registry.cache := registry.cache - {source.pixiId.value};
        source.pixiId := None;
      }
      // The base texture's own destruction releases the source.
      source := null;
    }
  }

  /**
   * The constructor with its error path: without a source it throws, and no
   * texture exists.
   */
  method Construct(source: VideoSource?, scaleMode: int) returns (r: Result<VideoBaseTexture, string>)
    modifies source
    ensures source == null ==> r == Failure(NoSourceError)
    ensures source != null ==>
      && r.Success? && fresh(r.value) && r.value.source == source && r.value.scaleMode == scaleMode
      && r.value.Valid() && r.value.Sched() == Scheduler.Idle
      && source.complete == (old(source.complete) || ReadyState.Decodable(source.readyState, source.width, source.height))
      && source.listeners == old(source.listeners) + (if source.complete then {} else ListenersOf(r.value))
      && source.readyState == old(source.readyState) && source.width == old(source.width) && source.height == old(source.height)
      && source.videoWidth == old(source.videoWidth) && source.videoHeight == old(source.videoHeight)
      && source.pixiId == old(source.pixiId) && source.playCalls == old(source.playCalls)
      && r.value.Load() == Loading.Initial(source.complete && source.width != 0 && source.height != 0, source.width, source.height)
  {
    if source == null {
      r := Failure(NoSourceError);
    } else {
      var t := new VideoBaseTexture(source, scaleMode);
      r := Success(t);
    }
  }

  /**
   * The browser firing event `e` on `src`, as seen by texture `t`: `t`'s
   * callback runs only when `t` registered one for `e` on `src`.
   */
  method Fire(src: VideoSource, t: VideoBaseTexture, e: EventName)
    requires t.Valid()
    modifies t, t.source
    ensures t.Valid() && t.source == old(t.source)
    ensures t.source != null ==>
      && t.source.complete == old(t.source.complete) && t.source.pixiId == old(t.source.pixiId)
      && t.source.readyState == old(t.source.readyState) && t.source.width == old(t.source.width)
      && t.source.height == old(t.source.height) && t.source.videoWidth == old(t.source.videoWidth)
      && t.source.videoHeight == old(t.source.videoHeight)
    ensures Listener(e, t) !in old(src.listeners) ==> t.Sched() == old(t.Sched())
    ensures Listener(e, t) !in old(src.listeners) || e == Play || e == Pause ==>
      t.Load() == old(t.Load()) &&
      (t.source != null ==> t.source.listeners == old(t.source.listeners) && t.source.playCalls == old(t.source.playCalls))
    ensures Listener(e, t) in old(src.listeners) && e == Play ==> t.Sched() == Scheduler.PlayStart(old(t.Sched()))
    ensures Listener(e, t) in old(src.listeners) && e == Pause ==> t.Sched() == Scheduler.PlayStop(old(t.Sched()))
    ensures Listener(e, t) in old(src.listeners) && (e == CanPlay || e == CanPlayThrough) ==>
      t.Sched() == old(t.Sched()) &&
      t.Load() == Loading.CanPlay(old(t.Load()),
        if old(t.source) == null then None else Some(Loading.Dims(old(t.source.videoWidth), old(t.source.videoHeight))))
      && (t.source != null ==>
        t.source.listeners == old(t.source.listeners) - ReadinessListeners(t) && t.source.playCalls == old(t.source.playCalls) + 1)
  {
    if Listener(e, t) in src.listeners {
      match e
      case CanPlay => t.OnCanPlay();
      case CanPlayThrough => t.OnCanPlay();
      case Play => t.OnPlayStart();
      case Pause => t.OnPlayStop();
    }
  }

  /** The shared texture cache as used for videos, with the counter that supplies fresh ids. */
  class Registry {
    var cache: map<string, VideoBaseTexture>
    var nextUid: nat

    constructor ()
      ensures cache == map[] && nextUid == 0 && Valid()
    {
      cache := map[];
      nextUid := 0;
    }

    /** `id` is one this registry has minted. */
    ghost predicate Issued(id: string)
      reads this
    {
      exists j :: 1 <= j <= nextUid && id == Ids.MintId(j)
    }

    /** Every key of the cache is an id minted here. */
    ghost predicate Valid()
      reads this
    {
      forall id :: id in cache ==> Issued(id)
    }

    /** The video carries no id, or one minted here. */
    ghost predicate Owns(video: VideoSource)
      reads this, video
    {
      video.pixiId.None? || Issued(video.pixiId.value)
    }

    /** The uuid source: the next value of a counter that starts at 0. */
    method Uuid() returns (n: nat)
      modifies this`nextUid
      ensures nextUid == old(nextUid) + 1 && n == nextUid
    {
      nextUid := nextUid + 1;
      n := nextUid;
    }

    /**
     * `fromVideo`: gives the video an id if it has none, then returns the
     * cached texture for that id, or constructs one and caches it. On a hit
     * `scaleMode` is ignored.
     */
    method FromVideo(video: VideoSource, scaleMode: int) returns (r: VideoBaseTexture)
      requires Valid() && Owns(video)
      modifies this, video
      ensures Valid() && Owns(video)
      ensures old(video.pixiId).Some? ==> video.pixiId == old(video.pixiId) && nextUid == old(nextUid)
      ensures old(video.pixiId).None? ==> nextUid == old(nextUid) + 1 && video.pixiId == Some(Ids.MintId(nextUid))
      ensures video.pixiId.Some? && video.pixiId.value in cache && cache[video.pixiId.value] == r
      ensures video.pixiId.value in old(cache) ==>
        old(video.pixiId).Some? && r == old(cache)[video.pixiId.value] && cache == old(cache) && unchanged(video)
      ensures video.pixiId.value !in old(cache) ==>
        && fresh(r) && r.source == video && r.scaleMode == scaleMode && r.Valid() && r.Sched() == Scheduler.Idle
        && cache == old(cache)[video.pixiId.value := r]
        && video.complete == (old(video.complete) || ReadyState.Decodable(video.readyState, video.width, video.height))
        && video.listeners == old(video.listeners) + (if video.complete then {} else ListenersOf(r))
        && video.playCalls == old(video.playCalls)
        && video.readyState == old(video.readyState) && video.width == old(video.width) && video.height == old(video.height)
        && video.videoWidth == old(video.videoWidth) && video.videoHeight == old(video.videoHeight)
        && r.Load() == Loading.Initial(video.complete && video.width != 0 && video.height != 0, video.width, video.height)
      ensures old(video.pixiId).None? ==> fresh(r)
    {
      if video.pixiId.None? {
        forall id | id in cache
          ensures id != Ids.MintId(nextUid + 1)
        {
          var j :| 1 <= j <= nextUid && id == Ids.MintId(j);
          Ids.MintIdInjective(j, nextUid + 1);
        }
        var n := Uuid();
        forall id | id in cache
          ensures Issued(id)
        {
          assert old(Issued(id));
          var j :| 1 <= j <= old(nextUid) && id == Ids.MintId(j);
        }
        assert Issued(Ids.MintId(n));
        video.pixiId := Some(Ids.MintId(n));
      }
      var id := video.pixiId.value;
      if id in cache {
        r := cache[id];
      } else {
        r := new VideoBaseTexture(video, scaleMode);
        cache := cache[id := r];
      }
    }
  }
}
