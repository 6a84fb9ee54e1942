/**
 * Clients of the model: the behaviours a user of the texture relies on,
 * derived from the contracts of the classes alone.
 */
module Scenarios {
  import opened Wrappers
  import opened VideoTexture
  import ReadyState
  import Scheduler
  import Ids

  /**
   * A video with enough data and a 640x480 size is complete at once and gets
   * no listeners, so its `play` event never reaches the texture.
   */
  method ReadyAtConstruction() returns (t: VideoBaseTexture)
    ensures t.source != null && t.source.complete && t.source.listeners == {}
    ensures t.hasLoaded && t.width == 640 && t.height == 480
    ensures !t.autoUpdate && t.pendingFrames == 0
  {
    var video := new VideoSource(ReadyState.HAVE_ENOUGH_DATA, 640, 480, 640, 480);
    t := new VideoBaseTexture(video, 0);
    Fire(video, t, Play);
  }

  /**
   * A video still buffering: `canplay` loads the texture, starts playback and
   * notifies once; the later `canplaythrough` finds its listener removed.
   */
  method BufferingThenCanPlay() returns (t: VideoBaseTexture)
    ensures t.source != null && !t.source.complete
    ensures t.source.listeners == PlaybackListeners(t)
    ensures t.source.playCalls == 1
    ensures t.hasLoaded && t.loadedGuard && t.loadedEmits == 1
    ensures t.width == 1280 && t.height == 720
  {
    var video := new VideoSource(ReadyState.HAVE_METADATA, 0, 0, 1280, 720);
    t := new VideoBaseTexture(video, 0);
    assert !t.hasLoaded;
    Fire(video, t, CanPlay);
    Fire(video, t, CanPlayThrough);
  }

  /** Play, two frames, pause, one more frame: two uploads and nothing left pending. */
  method PlayTwoFramesThenPause() returns (t: VideoBaseTexture)
    ensures t.updates == 2 && t.pendingFrames == 0 && !t.autoUpdate
  {
    var video := new VideoSource(ReadyState.HAVE_NOTHING, 0, 0, 320, 240);
    t := new VideoBaseTexture(video, 0);
    Fire(video, t, Play);
    Fire(video, t, Play);
    t.DeliverFrame();
    t.DeliverFrame();
    Fire(video, t, Pause);
    t.DeliverFrame();
  }

  /** Two `fromVideo` calls on one video give one texture; the second scale mode is ignored. */
  method SameVideoSameTexture() returns (a: VideoBaseTexture, b: VideoBaseTexture)
    ensures a == b && a.scaleMode == 1
  {
    var registry := new Registry();
    var video := new VideoSource(ReadyState.HAVE_CURRENT_DATA, 0, 0, 320, 240);
    a := registry.FromVideo(video, 1);
    b := registry.FromVideo(video, 2);
  }

  /**
   * After `destroy` the video has no id, so `fromVideo` mints a new one and
   * builds a new texture; a second `destroy` leaves the cache alone.
   */
  method DestroyThenFromVideo() returns (a: VideoBaseTexture, b: VideoBaseTexture, first: string, second: string)
    ensures a != b && first != second
    ensures first == Ids.MintId(1) && second == Ids.MintId(2)
  {
    var registry := new Registry();
    var video := new VideoSource(ReadyState.HAVE_CURRENT_DATA, 0, 0, 320, 240);
    a := registry.FromVideo(video, 0);
    first := video.pixiId.value;
    a.Destroy(registry);
    assert registry.cache == map[];
    a.Destroy(registry);
    assert registry.cache == map[];
    b := registry.FromVideo(video, 0);
    second := video.pixiId.value;
    Ids.MintIdInjective(1, 2);
  }

  /** Constructing without a source fails with the source's message. */
  method MissingSource() returns (r: Result<VideoBaseTexture, string>)
    ensures r == Failure(NoSourceError)
  {
    r := Construct(null, 0);
  }
}
