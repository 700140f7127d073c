/** The image gallery: a main image with a counter, a strip of thumbnails,
    a fullscreen modal, and navigation by arrows, thumbnails and swipes. */
module Gallery {
  import opened Common
  import opened Text

  /** JavaScript's `a % n` for `n > 0`: the remainder takes the sign of `a`. */
  function JsRem(a: int, n: int): (r: int)
    requires n > 0
    ensures a >= 0 ==> 0 <= r < n
    ensures a < 0 ==> -n < r <= 0
  {
    if a >= 0 then a % n else -((-a) % n)
  }

  /** The index `next()` moves to among `n > 0` images. */
  function NextIndex(i: int, n: int): (r: int)
    requires n > 0
    ensures 0 <= i < n ==> 0 <= r < n && r == if i == n - 1 then 0 else i + 1
  {
    JsRem(i + 1, n)
  }

  /** The index `prev()` moves to among `n > 0` images. */
  function PrevIndex(i: int, n: int): (r: int)
    requires n > 0
    ensures 0 <= i < n ==> 0 <= r < n && r == if i == 0 then n - 1 else i - 1
  {
    JsRem(i - 1 + n, n)
  }

  /** From an index in range, `next` then `prev` comes back, and so does
      `prev` then `next`. */
  lemma NextPrevInverse(i: int, n: int)
    requires 0 <= i < n
    ensures PrevIndex(NextIndex(i, n), n) == i
    ensures NextIndex(PrevIndex(i, n), n) == i
  {
  }

  /** `k` presses of `next`. */
  function NextTimes(i: int, n: int, k: nat): int
    requires n > 0
  {
    if k == 0 then i else NextIndex(NextTimes(i, n, k - 1), n)
  }

  /** From an index in range, `k <= n` presses of `next` advance `k`
      places round the gallery. */
  lemma {:induction false} NextTimesAdvances(i: int, n: int, k: nat)
    requires 0 <= i < n && k <= n
    ensures NextTimes(i, n, k) == if i + k < n then i + k else i + k - n
  {
    if k > 0 {
      NextTimesAdvances(i, n, k - 1);
    }
  }

  /** A full round of `next` presses comes back to the start. */
  lemma NextRound(i: int, n: int)
    requires 0 <= i < n
    ensures NextTimes(i, n, n) == i
  {
    NextTimesAdvances(i, n, n);
  }

  /** `imagesValue[idx]`, `""` standing for `undefined`. */
  function ImageAt(images: seq<string>, idx: int): string
  {
    if 0 <= idx < |images| then images[idx] else ""
  }

  const SwipeThreshold: real := 50.0

  /** What a completed touch does: a drag of less than 50 pixels nothing,
      a leftward drag `next`, a rightward one `prev`. */
  datatype Swipe = NoSwipe | SwipeNext | SwipePrev

  function SwipeOf(touchStartX: real, touchEndX: real): (s: Swipe)
    ensures var diff := touchStartX - touchEndX;
      && (s == NoSwipe <==> -SwipeThreshold < diff < SwipeThreshold)
      && (s == SwipeNext <==> diff >= SwipeThreshold)
      && (s == SwipePrev <==> diff <= -SwipeThreshold)
  {
    var diff := touchStartX - touchEndX;
    var magnitude := if diff < 0.0 then -diff else diff;
    if magnitude < SwipeThreshold then NoSwipe
    else if diff > 0.0 then SwipeNext
    else SwipePrev
  }

  class GalleryController {
    const images: seq<string>
    const hasModal: bool
    const hasMainImage: bool
    const hasCounter: bool
    const hasFullscreenImage: bool

    var index: int
    var touchStartX: real
    var touchEndX: real
    var modalOpen: bool
    /** What is displayed: the main image's `src`, the counter's text, the
        fullscreen image's `src`, and which thumbnails are highlighted. */
    var mainSrc: string
    var counterText: string
    var fullscreenSrc: string
    var thumbHighlighted: seq<bool>

    /** The display after `updateDisplay()` from the state `index`. */
    ghost predicate Displays(idx: int, main0: string, counter0: string, full0: string, thumbs0: seq<bool>)
      reads this
    {
      var src := ImageAt(images, idx);
      if src == "" then
        mainSrc == main0 && counterText == counter0 && fullscreenSrc == full0 && thumbHighlighted == thumbs0
      else
        && idx >= 0
        && mainSrc == (if hasMainImage then src else main0)
        && counterText == (if hasCounter then NatToString(idx + 1) else counter0)
        && fullscreenSrc == (if hasFullscreenImage then src else full0)
        && |thumbHighlighted| == |thumbs0|
        && forall t :: 0 <= t < |thumbHighlighted| ==> (thumbHighlighted[t] <==> t == idx)
    }

    constructor(images: seq<string>, index: int, thumbnails: nat,
                hasModal: bool, hasMainImage: bool, hasCounter: bool, hasFullscreenImage: bool)
      ensures this.images == images && this.index == index && !modalOpen
      ensures this.hasModal == hasModal && this.hasMainImage == hasMainImage
      ensures this.hasCounter == hasCounter && this.hasFullscreenImage == hasFullscreenImage
      ensures touchStartX == 0.0 && touchEndX == 0.0
      ensures Displays(index, "", "", "", seq(thumbnails, _ => false))
    {
      this.images := images;
      this.hasModal := hasModal;
      this.hasMainImage := hasMainImage;
      this.hasCounter := hasCounter;
      this.hasFullscreenImage := hasFullscreenImage;
      this.index := index;
      touchStartX := 0.0;
      touchEndX := 0.0;
      modalOpen := false;
      mainSrc := "";
      counterText := "";
      fullscreenSrc := "";
      thumbHighlighted := seq(thumbnails, _ => false);
      new;
      UpdateDisplay();
    }

    /** `updateDisplay()`: for an index with an image, shows it and its
        1-based number and highlights its thumbnail; otherwise nothing. */
    method UpdateDisplay()
      modifies this
      ensures Displays(index, old(mainSrc), old(counterText), old(fullscreenSrc), old(thumbHighlighted))
      ensures index == old(index) && modalOpen == old(modalOpen)
      ensures touchStartX == old(touchStartX) && touchEndX == old(touchEndX)
    {
      var idx := index;
      var src := ImageAt(images, idx);
      if src == "" {
        return;
      }
      if hasMainImage {
        mainSrc := src;
      }
      if hasCounter {
        counterText := NatToString(idx + 1);
      }
      var thumbs := thumbHighlighted;
      var updated: seq<bool> := [];
      var t := 0;
      while t < |thumbs|
        invariant 0 <= t <= |thumbs|
        invariant |updated| == t
        invariant forall u :: 0 <= u < t ==> (updated[u] <==> u == idx)
      {
        updated := updated + [t == idx];
        t := t + 1;
      }
      thumbHighlighted := updated;
      if hasFullscreenImage {
        fullscreenSrc := src;
      }
    }

    /** `next()`: no images, no change; otherwise one image on, wrapping. */
    method Next()
      modifies this
      ensures |images| == 0 ==>
        index == old(index) && mainSrc == old(mainSrc) && counterText == old(counterText)
        && fullscreenSrc == old(fullscreenSrc) && thumbHighlighted == old(thumbHighlighted)
      ensures |images| > 0 ==>
        index == NextIndex(old(index), |images|)
        && Displays(index, old(mainSrc), old(counterText), old(fullscreenSrc), old(thumbHighlighted))
      ensures modalOpen == old(modalOpen) && touchStartX == old(touchStartX) && touchEndX == old(touchEndX)
    {
      if |images| == 0 {
        return;
      }
      index := NextIndex(index, |images|);
      UpdateDisplay();
    }

    /** `prev()`: no images, no change; otherwise one image back, wrapping. */
    method Prev()
      modifies this
      ensures |images| == 0 ==>
        index == old(index) && mainSrc == old(mainSrc) && counterText == old(counterText)
        && fullscreenSrc == old(fullscreenSrc) && thumbHighlighted == old(thumbHighlighted)
      ensures |images| > 0 ==>
        index == PrevIndex(old(index), |images|)
        && Displays(index, old(mainSrc), old(counterText), old(fullscreenSrc), old(thumbHighlighted))
      ensures modalOpen == old(modalOpen) && touchStartX == old(touchStartX) && touchEndX == old(touchEndX)
    {
      if |images| == 0 {
        return;
      }
      index := PrevIndex(index, |images|);
      UpdateDisplay();
    }

    /** `goTo(event)`: `paramIndex` is `params.index` when it is a number,
        `None` otherwise. */
    method GoTo(paramIndex: Option<int>)
      modifies this
      ensures paramIndex.None? ==>
        index == old(index) && mainSrc == old(mainSrc) && counterText == old(counterText)
        && fullscreenSrc == old(fullscreenSrc) && thumbHighlighted == old(thumbHighlighted)
      ensures paramIndex.Some? ==>
        index == paramIndex.value
        && Displays(index, old(mainSrc), old(counterText), old(fullscreenSrc), old(thumbHighlighted))
      ensures modalOpen == old(modalOpen) && touchStartX == old(touchStartX) && touchEndX == old(touchEndX)
    {
      if paramIndex.Some? {
        index := paramIndex.value;
        UpdateDisplay();
      }
    }

    /** `openFullscreen()`. */
    method OpenFullscreen()
      modifies this
      ensures !hasModal ==>
        modalOpen == old(modalOpen) && mainSrc == old(mainSrc) && counterText == old(counterText)
        && fullscreenSrc == old(fullscreenSrc) && thumbHighlighted == old(thumbHighlighted)
      ensures hasModal ==>
        modalOpen && Displays(index, old(mainSrc), old(counterText), old(fullscreenSrc), old(thumbHighlighted))
      ensures index == old(index) && touchStartX == old(touchStartX) && touchEndX == old(touchEndX)
    {
      if !hasModal {
        return;
      }
      modalOpen := true;
      UpdateDisplay();
    }

    /** `closeFullscreen()`, with the modal hidden at once rather than at
        the end of its fade. */
    method CloseFullscreen()
      modifies this
      ensures modalOpen == (old(modalOpen) && !hasModal)
      ensures index == old(index) && mainSrc == old(mainSrc) && counterText == old(counterText)
      ensures fullscreenSrc == old(fullscreenSrc) && thumbHighlighted == old(thumbHighlighted)
      ensures touchStartX == old(touchStartX) && touchEndX == old(touchEndX)
    {
      if !hasModal {
        return;
      }
      modalOpen := false;
    }

    /** `handleKeydown`: with the modal open, Escape closes it and the arrow
        keys step through the images. */
    method HandleKeydown(key: string)
      modifies this
      ensures var active := hasModal && old(modalOpen);
        && (active && key == "Escape" ==>
              !modalOpen && index == old(index) && mainSrc == old(mainSrc)
              && counterText == old(counterText) && fullscreenSrc == old(fullscreenSrc)
              && thumbHighlighted == old(thumbHighlighted))
        && (active && key in {"ArrowLeft", "ArrowRight"} && |images| == 0 ==>
              index == old(index) && mainSrc == old(mainSrc)
              && counterText == old(counterText) && fullscreenSrc == old(fullscreenSrc)
              && thumbHighlighted == old(thumbHighlighted))
        && (active && key == "ArrowLeft" && |images| > 0 ==>
              index == PrevIndex(old(index), |images|)
              && Displays(index, old(mainSrc), old(counterText), old(fullscreenSrc), old(thumbHighlighted)))
        && (active && key == "ArrowRight" && |images| > 0 ==>
              index == NextIndex(old(index), |images|)
              && Displays(index, old(mainSrc), old(counterText), old(fullscreenSrc), old(thumbHighlighted)))
        && (!active || key !in {"Escape", "ArrowLeft", "ArrowRight"} ==>
              modalOpen == old(modalOpen) && index == old(index) && mainSrc == old(mainSrc)
              && counterText == old(counterText) && fullscreenSrc == old(fullscreenSrc)
              && thumbHighlighted == old(thumbHighlighted))
      ensures key != "Escape" ==> modalOpen == old(modalOpen)
      ensures key !in {"ArrowLeft", "ArrowRight"} ==> index == old(index)
      ensures touchStartX == old(touchStartX) && touchEndX == old(touchEndX)
    {
      if !hasModal || !modalOpen {
        return;
      }
      if key == "Escape" {
        CloseFullscreen();
      } else if key == "ArrowLeft" {
        Prev();
      } else if key == "ArrowRight" {
        Next();
      }
    }

    /** `handleTouchStart`: `clientX` of the first touch, if any. */
    method HandleTouchStart(clientX: Option<real>)
      modifies this
      ensures touchStartX == if clientX.Some? then clientX.value else old(touchStartX)
      ensures index == old(index) && modalOpen == old(modalOpen) && touchEndX == old(touchEndX)
      ensures mainSrc == old(mainSrc) && counterText == old(counterText)
      ensures fullscreenSrc == old(fullscreenSrc) && thumbHighlighted == old(thumbHighlighted)
    {
      if clientX.Some? {
        touchStartX := clientX.value;
      }
    }

    /** `handleTouchEnd` and `handleSwipe`: a drag of 50 pixels or more to
        the left shows the next image, to the right the previous one. */
    method HandleTouchEnd(clientX: Option<real>)
      modifies this
      ensures touchEndX == if clientX.Some? then clientX.value else old(touchEndX)
      ensures var swipe := if clientX.Some? then SwipeOf(touchStartX, clientX.value) else NoSwipe;
        && (swipe == NoSwipe || |images| == 0 ==>
              index == old(index) && mainSrc == old(mainSrc) && counterText == old(counterText)
              && fullscreenSrc == old(fullscreenSrc) && thumbHighlighted == old(thumbHighlighted))
        && (swipe == SwipeNext && |images| > 0 ==>
              index == NextIndex(old(index), |images|)
              && Displays(index, old(mainSrc), old(counterText), old(fullscreenSrc), old(thumbHighlighted)))
        && (swipe == SwipePrev && |images| > 0 ==>
              index == PrevIndex(old(index), |images|)
              && Displays(index, old(mainSrc), old(counterText), old(fullscreenSrc), old(thumbHighlighted)))
      ensures modalOpen == old(modalOpen) && touchStartX == old(touchStartX)
    {
      if clientX.Some? {
        touchEndX := clientX.value;
        HandleSwipe();
      }
    }

    /** `handleSwipe()`. */
    method HandleSwipe()
      modifies this
      ensures var swipe := SwipeOf(touchStartX, touchEndX);
        && (swipe == NoSwipe || |images| == 0 ==>
              index == old(index) && mainSrc == old(mainSrc) && counterText == old(counterText)
              && fullscreenSrc == old(fullscreenSrc) && thumbHighlighted == old(thumbHighlighted))
        && (swipe == SwipeNext && |images| > 0 ==>
              index == NextIndex(old(index), |images|)
              && Displays(index, old(mainSrc), old(counterText), old(fullscreenSrc), old(thumbHighlighted)))
        && (swipe == SwipePrev && |images| > 0 ==>
              index == PrevIndex(old(index), |images|)
              && Displays(index, old(mainSrc), old(counterText), old(fullscreenSrc), old(thumbHighlighted)))
      ensures modalOpen == old(modalOpen) && touchStartX == old(touchStartX) && touchEndX == old(touchEndX)
    {
      var swipe := SwipeOf(touchStartX, touchEndX);
      if swipe == SwipeNext {
        Next();
      } else if swipe == SwipePrev {
        Prev();
      }
    }
  }
}
