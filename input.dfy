/**
 * The decisions the lightbox's input channels make: the horizontal swipe
 * (handleSwipe, main.js:586-596) and the global key handler (initKeyboardNav,
 * main.js:249-270).
 */
module Input {
  import opened Circular

  /** The minimum horizontal travel of a swipe, in pixels (main.js:587). */
  const SwipeThreshold: int := 50

  /**
   * The lightbox navigations handleSwipe makes, in the order it makes them,
   * for a touch that starts at `startX` and ends at `endX`. The two tests are
   * independent `if`s, as in main.js.
   */
  function SwipeCalls(startX: int, endX: int): (calls: seq<int>)
    ensures |calls| <= 1
    ensures forall k :: 0 <= k < |calls| ==> IsDirection(calls[k])
    ensures calls == [1] <==> endX < startX - SwipeThreshold
    ensures calls == [-1] <==> endX > startX + SwipeThreshold
    ensures calls == [] <==> -SwipeThreshold <= endX - startX <= SwipeThreshold
  {
    var next: seq<int> := if endX < startX - SwipeThreshold then [1] else [];
    var previous: seq<int> := if endX > startX + SwipeThreshold then [-1] else [];
    assert [1][0] != [-1][0];
    next + previous
  }

  /** Swiping back over the same distance asks for the opposite navigation. */
  lemma SwipeReversed(startX: int, endX: int)
    ensures SwipeCalls(endX, startX) == seq(|SwipeCalls(startX, endX)|, k requires 0 <= k < |SwipeCalls(startX, endX)| => -SwipeCalls(startX, endX)[k])
  {
  }

  /** What a key press does, given whether the lightbox modal is displayed. */
  datatype KeyAction =
    | Navigate(dir: int)           // navigateLightbox(dir)
    | ClickGalleryArrows(dir: int) // click every `.gallery-arrow.prev` (-1) or `.gallery-arrow.next` (+1)
    | Close                        // modal.style.display = "none"
    | Ignore

  /** The key handler's dispatch (main.js:254-268). */
  function KeyDispatch(key: string, lightboxOpen: bool): (a: KeyAction)
    ensures a.Navigate? <==> lightboxOpen && (key == "ArrowLeft" || key == "ArrowRight")
    ensures a.ClickGalleryArrows? <==> !lightboxOpen && (key == "ArrowLeft" || key == "ArrowRight")
    ensures a.Close? <==> key == "Escape" && lightboxOpen
    ensures (a.Navigate? || a.ClickGalleryArrows?) ==> IsDirection(a.dir)
    ensures (a.Navigate? || a.ClickGalleryArrows?) ==> (a.dir == -1 <==> key == "ArrowLeft")
    ensures a.Ignore? <==> !(key == "ArrowLeft" || key == "ArrowRight" || (key == "Escape" && lightboxOpen))
  {
    if key == "ArrowLeft" then
      if lightboxOpen then Navigate(-1) else ClickGalleryArrows(-1)
    else if key == "ArrowRight" then
      if lightboxOpen then Navigate(1) else ClickGalleryArrows(1)
    else if key == "Escape" && lightboxOpen then
      Close
    else
      Ignore
  }

  /** The arrow keys drive either the lightbox or the galleries, never both, and in the same direction. */
  lemma ArrowKeysAgree(key: string)
    requires key == "ArrowLeft" || key == "ArrowRight"
    ensures KeyDispatch(key, true).Navigate? && KeyDispatch(key, false).ClickGalleryArrows?
    ensures KeyDispatch(key, true).dir == KeyDispatch(key, false).dir
  {
  }
}
