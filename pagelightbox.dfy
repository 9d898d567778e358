/**
 * The lightbox state kept by a page (src/app/page.tsx, and the identical code
 * in src/app/dadtrack/page.tsx): whether the viewer is open and which image
 * it shows. Each page fixes the number of images; the steps use JavaScript's
 * remainder, `(prev + 1) % n` and `(prev - 1 + n) % n`.
 */
module PageLightbox {
  import opened Navigation

  class LightboxState {
    const imageCount: Positive
    var lightboxOpen: bool
    var currentImageIndex: int

    /** The index addresses one of the page's images. */
    predicate Valid()
      reads this
    {
      InRange(currentImageIndex, imageCount)
    }

    /** Initially closed, on the first image. */
    constructor (imageCount: Positive)
      ensures this.imageCount == imageCount
      ensures !lightboxOpen && currentImageIndex == 0 && Valid()
    {
      this.imageCount := imageCount;
      lightboxOpen := false;
      currentImageIndex := 0;
    }

    /** `openLightbox(index)`: shows the given image. */
    method OpenLightbox(index: int)
      modifies this
      ensures lightboxOpen && currentImageIndex == index
      ensures Valid() <==> InRange(index, imageCount)
    {
      currentImageIndex := index;
      lightboxOpen := true;
    }

    /** `closeLightbox`: closes the viewer and keeps the index. */
    method CloseLightbox()
      modifies this
      ensures !lightboxOpen && currentImageIndex == old(currentImageIndex)
    {
      lightboxOpen := false;
    }

    /** `goToNext`: one image forward, wrapping from the last to the first. */
    method GoToNext()
      modifies this
      ensures lightboxOpen == old(lightboxOpen)
      ensures currentImageIndex == JsRem(old(currentImageIndex) + 1, imageCount)
      ensures old(Valid()) ==> Valid() && currentImageIndex == Succ(old(currentImageIndex), imageCount)
    {
      if Valid() {
        JsNextIsSucc(currentImageIndex, imageCount);
      }
      currentImageIndex := JsRem(currentImageIndex + 1, imageCount);
    }

    /** `goToPrevious`: one image back, wrapping from the first to the last. */
    method GoToPrevious()
      modifies this
      ensures lightboxOpen == old(lightboxOpen)
      ensures currentImageIndex == JsRem(old(currentImageIndex) - 1 + imageCount, imageCount)
      ensures old(Valid()) ==> Valid() && currentImageIndex == Pred(old(currentImageIndex), imageCount)
    {
      if Valid() {
        JsPrevIsPred(currentImageIndex, imageCount);
      }
      currentImageIndex := JsRem(currentImageIndex - 1 + imageCount, imageCount);
    }
  }
}
