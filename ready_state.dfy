/**
 * The ready states of a media element, as numbered in section 4.8.11.7
 * ("Ready states") of the WHATWG HTML Living Standard.
 */
module ReadyState {
  const HAVE_NOTHING: int := 0
  const HAVE_METADATA: int := 1
  const HAVE_CURRENT_DATA: int := 2
  const HAVE_FUTURE_DATA: int := 3
  const HAVE_ENOUGH_DATA: int := 4

  /**
   * The test the texture constructor makes before handing the element to the
   * base texture: enough data is buffered to play ahead, and the element has a
   * non-zero width and height (JavaScript truthiness of two numbers).
   */
  predicate Decodable(readyState: int, width: int, height: int)
  {
    (readyState == HAVE_ENOUGH_DATA || readyState == HAVE_FUTURE_DATA) && width != 0 && height != 0
  }
}
