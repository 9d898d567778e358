/**
 * The full-screen image viewer (src/components/ImageLightbox.tsx): its
 * keyboard dispatch, what it renders for a given index, and the effect that
 * locks page scrolling and listens for keys while it is open. The handlers
 * it calls back belong to the page that shows it (module PageLightbox).
 */
module ImageLightbox {
  import opened Wrappers
  import opened Navigation

  datatype Image = Image(src: string, alt: string, title: Option<string>, description: Option<string>)

  /** Which callback a key press triggers. */
  datatype Action = Close | Previous | Next | NoAction

  /** The "current / total" badge. */
  datatype Counter = Counter(position: int, total: nat)

  /**
   * What the component renders: nothing at all, an empty presence wrapper
   * while closed, or the overlay with its image, counter, arrow buttons and
   * help line.
   */
  datatype View =
    | RenderNothing
    | ClosedWrapper
    | Overlay(image: Image, counter: Option<Counter>, arrowButtons: bool, helpText: string)

  const EscapeKey := "Escape"
  const LeftKey := "ArrowLeft"
  const RightKey := "ArrowRight"
  const ArrowHelp := "Use arrow keys to navigate \U{2022} "
  const EscapeHelp := "Press ESC to close"

  /**
   * `handleKeyDown`, together with the rule that the listener exists only
   * while the viewer is open: Escape closes whatever the image count, the
   * arrows step only when there is more than one image, and every other key
   * does nothing.
   */
  function KeyAction(key: string, isOpen: bool, imageCount: nat): (a: Action)
    ensures !isOpen ==> a == NoAction
    ensures a == Close <==> isOpen && key == EscapeKey
    ensures a == Previous <==> isOpen && key == LeftKey && imageCount > 1
    ensures a == Next <==> isOpen && key == RightKey && imageCount > 1
    ensures key !in {EscapeKey, LeftKey, RightKey} ==> a == NoAction
  {
    if !isOpen then NoAction
    else if key == EscapeKey then Close
    else if key == LeftKey && imageCount > 1 then Previous
    else if key == RightKey && imageCount > 1 then Next
    else NoAction
  }

  /**
   * The rendered view. An index that addresses no image renders nothing;
   * otherwise the overlay appears while open, with the counter and arrow
   * buttons only when there are several images.
   */
  function Render(images: seq<Image>, currentIndex: int, isOpen: bool): (v: View)
    ensures v.RenderNothing? <==> !InRange(currentIndex, |images|)
    ensures v.Overlay? <==> isOpen && InRange(currentIndex, |images|)
    ensures v.Overlay? ==>
      && v.image == images[currentIndex]
      && (v.arrowButtons <==> |images| > 1)
      && (v.counter.Some? <==> |images| > 1)
      && (v.counter.Some? ==> v.counter.value == Counter(currentIndex + 1, |images|))
      && v.helpText == (if |images| > 1 then ArrowHelp else "") + EscapeHelp
  {
    if !InRange(currentIndex, |images|) then RenderNothing
    else if !isOpen then ClosedWrapper
    else
      var hasMultipleImages := |images| > 1;
      Overlay(images[currentIndex],
              if hasMultipleImages then Some(Counter(currentIndex + 1, |images|)) else None,
              hasMultipleImages,
              (if hasMultipleImages then ArrowHelp else "") + EscapeHelp)
  }

  /** A shown counter reads a position between 1 and the number of images, so it never says "0 / n". */
  lemma CounterInBounds(images: seq<Image>, currentIndex: int, isOpen: bool)
    requires Render(images, currentIndex, isOpen).Overlay?
    requires Render(images, currentIndex, isOpen).counter.Some?
    ensures 1 <= Render(images, currentIndex, isOpen).counter.value.position
    ensures Render(images, currentIndex, isOpen).counter.value.position
         <= Render(images, currentIndex, isOpen).counter.value.total
  {
  }

  /**
   * The open/close effect: while open the page body does not scroll and a
   * key listener is installed; its cleanup restores scrolling and removes the
   * listener. React runs the previous cleanup before the effect re-runs.
   */
  class LightboxEffect {
    var bodyOverflow: string
    var listening: bool
    var listenerImageCount: nat

    constructor (bodyOverflow: string)
      ensures this.bodyOverflow == bodyOverflow && !listening
    {
      this.bodyOverflow := bodyOverflow;
      listening := false;
      listenerImageCount := 0;
    }

    /** The effect's cleanup: scrolling back to '' and the listener gone. */
    method Cleanup()
      modifies this
      ensures !listening && bodyOverflow == ""
      ensures listenerImageCount == old(listenerImageCount)
    {
      bodyOverflow := "";
      listening := false;
    }

    /** The effect re-running after `isOpen` or the image count changed. */
    method Sync(isOpen: bool, imageCount: nat)
      modifies this
      ensures listening == isOpen
      ensures isOpen ==> bodyOverflow == "hidden" && listenerImageCount == imageCount
      ensures !isOpen ==> bodyOverflow == (if old(listening) then "" else old(bodyOverflow))
    {
      if listening {
        Cleanup();
      }
      if !isOpen {
        return;
      }
      bodyOverflow := "hidden";
      listenerImageCount := imageCount;
      listening := true;
    }

    /** A key press reaching the window: only an installed listener reacts. */
    method KeyDown(key: string) returns (a: Action)
      ensures !listening ==> a == NoAction
      ensures listening ==> a == KeyAction(key, true, listenerImageCount)
    {
      a := if listening then KeyAction(key, true, listenerImageCount) else NoAction;
    }
  }
}
