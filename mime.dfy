/**
 * The type string `createSource` gives a `<source>` element: an explicit type
 * is kept, otherwise it is "video/" followed by the text after the last '.'
 * of the path. Building the DOM element itself is not modelled.
 */
module Mime {
  import opened Wrappers

  /** `String.prototype.lastIndexOf` for one character: the last index of `c`, or -1. */
  function LastIndexOf(s: string, c: char): (r: int)
    ensures -1 <= r < |s|
    ensures r >= 0 ==> s[r] == c
    ensures forall i :: r < i < |s| ==> s[i] != c
    decreases |s|
  {
    if s == [] then -1
    else if s[|s| - 1] == c then |s| - 1
    else LastIndexOf(s[..|s| - 1], c)
  }

  /**
   * The text after the last '.' of the path, or the whole path when it has
   * no '.' (the last index is then -1, so the text starts at 0).
   */
  function Extension(path: string): (ext: string)
    ensures '.' !in ext
    ensures '.' !in path ==> ext == path
    ensures '.' in path ==>
      |ext| < |path| && path[|path| - |ext| - 1] == '.' && path[|path| - |ext|..] == ext
  {
    path[LastIndexOf(path, '.') + 1..]
  }

  /** The type inferred from a path. */
  function InferredType(path: string): string
  {
    "video/" + Extension(path)
  }

  /**
   * The type `createSource` sets: `given` when it is truthy (present and not
   * the empty string), otherwise the inferred one.
   */
  function SourceType(path: string, given: Option<string>): (t: string)
    ensures given.Some? && given.value != "" ==> t == given.value
    ensures given.None? || given.value == "" ==>
      |t| >= 6 && t[..6] == "video/" && '.' !in t[6..] && t[6..] == Extension(path)
  {
    if given.None? || given.value == "" then InferredType(path) else given.value
  }

  /** A path made of a stem, a '.' and an extension without '.' infers that extension. */
  lemma InferredTypeOfDotted(stem: string, ext: string)
    requires '.' !in ext
    ensures InferredType(stem + "." + ext) == "video/" + ext
  {
    var path := stem + "." + ext;
    var k := LastIndexOf(path, '.');
    assert path[|stem|] == '.';
    assert forall i :: |stem| < i < |path| ==> path[i] == ext[i - |stem| - 1];
    assert k == |stem|;
    assert path[k + 1..] == ext;
  }

  /** The URL forms of the documentation comment above `fromUrl`. */
  lemma DocumentedUrls()
    ensures InferredType("http://mydomain.com/video.mp4") == "video/mp4"
    ensures InferredType("/video.webm") == "video/webm"
  {
  }

  /**
   * A path whose only '.' is in a directory name: everything after that '.',
   * '/' included, becomes the subtype.
   */
  lemma DotInDirectory()
    ensures InferredType("/media.v2/clip") == "video/v2/clip"
  {
  }
}
