# VideoBaseTexture, modelled in Dafny

This project models `VideoBaseTexture` from pixi.js. It is a GPU texture whose pixels come
from a playing HTML video element. The model covers four things:

- **Readiness.** The constructor marks an already-decodable video `complete`. Otherwise it
  registers `canplay`, `canplaythrough`, `play` and `pause` listeners. `_onCanPlay` removes
  the two readiness listeners, takes the video's intrinsic size, starts playback, and sends
  the "loaded" notification at most once (the `__loaded` guard).
- **The update scheduler.** `_onPlayStart`, `_onPlayStop` and `_onUpdate` switch per-frame
  uploads on and off with `autoUpdate`. Each frame callback re-requests the next animation
  frame.
- **The identity cache.** `fromVideo` gives a video a `'video_' + uuid` id and returns the
  cached texture for that id, or creates and caches one. `destroy` removes the entry and the id.
- **MIME inference.** `createSource` computes the `<source>` type from the file extension of
  the path.

Modules:

- `Wrappers` (`wrappers.dfy`): `Option` and `Result`.
- `ReadyState` (`ready_state.dfy`): the media-element ready states. They are numbered as in
  section 4.8.11.7 ("Ready states") of the WHATWG HTML Living Standard. The module also holds
  the constructor's decodability test.
- `Mime` (`mime.dfy`): `lastIndexOf`, the extension, and the type string of `createSource`.
- `Ids` (`ids.dfy`): the decimal text of a counter value and the ids `fromVideo` mints. The
  proof shows minted ids are injective.
- `Scheduler` (`scheduler.dfy`): the play/pause/frame behaviour as values. `pending` counts
  outstanding `requestAnimationFrame` requests and `updates` counts `update()` calls. The
  lemmas cover any sequence of signals.
- `Loading` (`loading.dfy`): what `_onCanPlay` does to the load flags and size, as values.
  The lemmas cover any history of calls.
- `VideoTexture` (`video_texture.dfy`): three classes.
  - `VideoSource` is the video element: ready state, sizes, `complete`, `_pixiId`, the
    listener set and a count of `play()` calls.
  - `VideoBaseTexture` has the texture's fields plus counters. The counters stand in for
    pending frame requests, `update()` calls and "loaded" notifications.
  - `Registry` is the cache (`map<string, VideoBaseTexture>`) together with the `utils.uuid()`
    counter.

  Every method that changes a texture states its effect as a function of `Scheduler` or
  `Loading` applied to the old state. Each one preserves `Valid()`, the invariant that joins
  the two: updating implies a pending frame request, and the notification count equals the
  guard.
- `Scenarios` (`scenarios.dfy`): client methods built from the class contracts alone. They
  show the behaviours a user relies on.

Behaviour worth knowing: `_onPlayStart` tests only `autoUpdate`, not whether a frame request
is still pending. So play, pause and play again before the next frame leaves two request
chains. From then on each animation frame delivers both pending requests, so it uploads twice.
In `Scheduler`, a `Frame` signal stands for one delivered request, not one animation frame.
`Scheduler.PlayPausePlayTwoChains` exhibits this. Frame requests are not bounded by 1; what
the model proves is the invariant "updating implies at least one pending request"
(`Scheduler.RunKeepsLive`).

A reader might expect an explicit state field, or callbacks that do nothing after `destroy`;
the code has neither, and the model follows the code:

- The code has no explicit state field. "Ready" and "Destroyed" are read off `hasLoaded`,
  `complete` and the `source` reference.
- After `destroy`, only `_onCanPlay` checks for a missing source. `destroy` removes no
  listener, so `play`/`pause` and frame callbacks still change a destroyed texture.
- `_onCanPlay` calls `play()` on every call, not only the first.

## Model

| member | source | states |
|---|---|---|
| `VideoTexture.Construct` | src/core/textures/VideoBaseTexture.js:15-20 | With no source, construction fails with the source's error message and yields no texture. With a source, it yields a fresh texture on that source with the given scale mode, idle, whose listener registration follows the completeness rule. The source's ready state, sizes, id and play count are unchanged, and the texture's load state is the constructor's initial one. |
| `VideoTexture.VideoBaseTexture.constructor` | src/core/textures/VideoBaseTexture.js:22-48 | The source becomes `complete` exactly when it already was, or its ready state is HAVE_FUTURE_DATA or HAVE_ENOUGH_DATA with non-zero width and height. The four listeners are added exactly when the source is not complete. Nothing else on the source changes. The texture starts idle, with `__loaded` false; it counts as loaded, with the source's size, only when the source is complete and sized. |
| `VideoTexture.VideoBaseTexture.OnUpdate` | src/core/textures/VideoBaseTexture.js:54-61 | While `autoUpdate` holds: exactly one new frame request and one `update()`. Otherwise: nothing. A texture that updates is left with a pending request. |
| `VideoTexture.VideoBaseTexture.DeliverFrame` | src/core/textures/VideoBaseTexture.js:54-61 | The browser consumes one pending request and runs `_onUpdate`. With no request pending, nothing happens. |
| `VideoTexture.VideoBaseTexture.OnPlayStart` | src/core/textures/VideoBaseTexture.js:63-70 | Afterwards `autoUpdate` holds. Exactly one frame request is added if it was off, and none if it was already on. |
| `VideoTexture.VideoBaseTexture.OnPlayStop` | src/core/textures/VideoBaseTexture.js:72-75 | `autoUpdate` becomes false. Pending requests and load state are unchanged. |
| `VideoTexture.VideoBaseTexture.OnCanPlay` | src/core/textures/VideoBaseTexture.js:77-98 | `hasLoaded` is always set, and the `__loaded` guard is never cleared. With a source, three more things happen. Both readiness listeners of this texture are removed and nothing else is. Width and height become `videoWidth`/`videoHeight`, and `play()` is called once. "loaded" is sent only if the guard was unset, so at most one is ever sent. |
| `VideoTexture.VideoBaseTexture.Destroy` | src/core/textures/VideoBaseTexture.js:100-112 | If the source carries an id, exactly that cache key is removed and the id is cleared. Otherwise the cache is unchanged. The source reference is dropped. Afterwards the video carries no id; its listeners and other fields are untouched. |
| `VideoTexture.Registry.FromVideo` | src/core/textures/VideoBaseTexture.js:122-138 | An id is minted, as `'video_'` plus the next counter value, only when the video has none. An existing id is kept. Afterwards the cache maps the video's id to the returned texture. On a hit, the cached instance is returned and nothing changes, whatever the scale mode. On a miss, a fresh texture on that video with the given scale mode is inserted under the id and no other key changes; the video's ready state, sizes and play count are unchanged, and the texture starts idle in the constructor's initial load state. A freshly minted id always misses. |
| `VideoTexture.Registry.Uuid` | src/core/textures/VideoBaseTexture.js:126 | The counter advances by one and its new value is returned. |
| `VideoTexture.Fire` | src/core/textures/VideoBaseTexture.js:37-45 | An event reaches a texture's callback only if that texture registered a listener for it. Otherwise the texture and its source are unchanged. A registered `play`/`pause`/`canplay` runs `_onPlayStart`/`_onPlayStop`/`_onCanPlay`. |
| `VideoTexture.VideoSource.AddEventListener` | src/core/textures/VideoBaseTexture.js:39-44 | The listener set gains the listener; adding one twice has no further effect. |
| `VideoTexture.VideoSource.RemoveEventListener` | src/core/textures/VideoBaseTexture.js:83-84 | The listener set loses exactly that listener. |
| `VideoTexture.VideoSource.Play` | src/core/textures/VideoBaseTexture.js:89 | One more `play()` call is recorded. |
| `Mime.LastIndexOf` | src/core/textures/VideoBaseTexture.js:197 | The result is -1 or an index holding the character, and no later index holds it. |
| `Mime.Extension` | src/core/textures/VideoBaseTexture.js:197 | The extension contains no '.'. It is the whole path when the path has no '.'. Otherwise it is exactly the suffix after a '.', so it follows the last one. |
| `Mime.SourceType` | src/core/textures/VideoBaseTexture.js:193-198 | An explicit non-empty type is kept unchanged. A missing or empty one gives `"video/"` followed by the extension. |
| `Mime.InferredTypeOfDotted` | src/core/textures/VideoBaseTexture.js:197 | For any `stem + "." + ext` with no '.' in `ext`, the inferred type is `"video/" + ext`. |
| `Mime.DocumentedUrls` | src/core/textures/VideoBaseTexture.js:146-154 | The documented URLs `.../video.mp4` and `/video.webm` give `video/mp4` and `video/webm`. |
| `Mime.DotInDirectory` | src/core/textures/VideoBaseTexture.js:197 | `/media.v2/clip` gives `video/v2/clip`: the text after the last '.' is taken even across a '/'. |
| `Ids.Decimal` | src/core/textures/VideoBaseTexture.js:126 | The decimal text of a number is non-empty and consists of digits only. |
| `Ids.ParseDecimalOfDecimal` | src/core/textures/VideoBaseTexture.js:126 | Reading back the decimal text of `n` gives `n`. |
| `Ids.MintId` | src/core/textures/VideoBaseTexture.js:126 | Every minted id begins with `video_` and is longer than that prefix. |
| `Ids.IdNumberOfMintId` | src/core/textures/VideoBaseTexture.js:126 | The counter value can be recovered from a minted id. |
| `Ids.MintIdInjective` | src/core/textures/VideoBaseTexture.js:126 | Two minted ids are equal if and only if their counter values are. |
| `Scheduler.RunKeepsLive` | src/core/textures/VideoBaseTexture.js:54-75 | After any mix of play, pause and frame signals, a texture that updates still has a frame request pending. |
| `Scheduler.RunUpdatesBound` | src/core/textures/VideoBaseTexture.js:54-61 | Over any signal sequence, uploads never decrease and grow by at most the number of delivered frame requests (`Frame` signals). |
| `Scheduler.RepeatedPlay` | src/core/textures/VideoBaseTexture.js:63-70 | Any number n ≥ 1 of consecutive play signals equals one. `autoUpdate` then holds, and exactly one request was added (none if already updating), with no upload. |
| `Scheduler.PlayingFrames` | src/core/textures/VideoBaseTexture.js:54-61 | While updating, n delivered frames mean exactly n uploads, with the pending count unchanged. |
| `Scheduler.StoppedFrames` | src/core/textures/VideoBaseTexture.js:54-75 | Once stopped, n delivered frames upload nothing and request nothing. The pending count drops by n, down to 0. |
| `Scheduler.PauseThenFrame` | src/core/textures/VideoBaseTexture.js:54-75 | Take a texture that updates with one request pending. Pausing and then delivering a frame leaves it stopped, with no request pending and no new upload. |
| `Scheduler.PlaybackScenario` | src/core/textures/VideoBaseTexture.js:54-75 | Play, two frames, pause, then one frame gives exactly two uploads and leaves nothing pending. |
| `Scheduler.PlayPausePlayTwoChains` | src/core/textures/VideoBaseTexture.js:63-75 | Play, pause, play before any frame leaves two pending requests. Each later pair of frames then uploads twice and keeps both chains. |
| `Loading.CanPlayAllSpec` | src/core/textures/VideoBaseTexture.js:77-98 | Over any history of `_onCanPlay` calls: the guard is never cleared, and the notification count stays equal to the guard, at most one. Once the guard is set, no further notification is sent. The guard ends set exactly if it was set or some call saw the source. `hasLoaded` ends set exactly if it was or some call happened. The size is the one read by the last call that saw the source. |
| `Scenarios.ReadyAtConstruction` | src/core/textures/VideoBaseTexture.js:25-45 | A video at HAVE_ENOUGH_DATA and 640x480 is complete at once with no listeners. The texture is loaded at 640x480, and a `play` event leaves `autoUpdate` false. |
| `Scenarios.BufferingThenCanPlay` | src/core/textures/VideoBaseTexture.js:37-98 | On a buffering video, `canplay` sends "loaded" once, sets the size and calls `play()` once. A later `canplaythrough` finds its listener gone. Only the play/pause listeners remain. |
| `Scenarios.PlayTwoFramesThenPause` | src/core/textures/VideoBaseTexture.js:54-75 | Play, play, two frames, pause, then one frame gives two uploads, nothing pending and `autoUpdate` off. |
| `Scenarios.SameVideoSameTexture` | src/core/textures/VideoBaseTexture.js:122-138 | Two `fromVideo` calls on one video with different scale modes return the same texture, which keeps the first scale mode. |
| `Scenarios.DestroyThenFromVideo` | src/core/textures/VideoBaseTexture.js:100-138 | After `destroy`, and a second harmless `destroy`, `fromVideo` on the same video mints a different id and returns a different texture. |
| `Scenarios.MissingSource` | src/core/textures/VideoBaseTexture.js:17-20 | Constructing without a source gives the error "No video source element specified.". |

## Left out

- `fromUrl`/`fromUrls`: they only create DOM elements and call `load()`/`play()`. They also
  call `VideoBaseTexture.textureFromVideo`, which the file does not define, and their array
  branch passes the whole array, not `videoSrc[i]`, to `createSource`. Neither defect is
  modelled or fixed.
- `createSource`: the `<source>` element it builds is not modelled, only its type string.
- The base texture constructor is not part of this model. Following the comment at
  src/core/textures/VideoBaseTexture.js:22-23, the model treats a complete source with
  non-zero width and height as loaded, with that size, and otherwise leaves the size 0.
  "loaded" notifications the base texture may send are not counted. `loadedEmits` counts
  only those of `_onCanPlay`.
- `update()` (the GPU upload) is a counter. The base texture's `destroy` is modelled as
  dropping the source reference; releasing GPU resources is not modelled.
- `window.requestAnimationFrame` is a count of pending requests; real frame timing is not
  modelled. The event emitter's `emit` is a count. `utils.uuid()` is a counter starting at
  0 that this registry owns.
- `utils.BaseTextureCache` also holds non-video textures. The registry holds only the
  entries `fromVideo` makes.
- Registry.FromVideo: requires that a video's existing id, if any, was minted by this
  registry. The source has a single process-wide cache and counter, so an id set by hand or
  by another registry is not modelled.
- `_pixiId` is an `Option`. Its setting to `null` followed by `delete` is modelled as `None`.
  JavaScript's falsy empty id is not modelled, because minted ids are never empty.
- The scale mode is a required constructor argument, stored verbatim. In the source it is
  optional and is only passed on to the base texture, which is not part of this model.
- The video's ready state and size stay fixed in the model; buffering progress is external.
- With several listeners for one event, only one texture's callbacks are dispatched
  (`Fire`); the DOM's dispatch order across textures is not modelled. The `play`/`pause`
  events that `play()` later causes are delivered separately with `Fire`.
