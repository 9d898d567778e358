/**
 * The home page's screenshot lightbox (src/app/page.tsx): three screenshots
 * shown through the shared lightbox state and viewer.
 */
module HomePage {
  import opened Wrappers
  import opened Navigation
  import opened BasePath
  import opened ImageLightbox
  import opened PageLightbox

  const ScreenshotPaths: seq<string> := [
    "/images/dadtrack/1_homescreen_with_tip.png", "/images/dadtrack/2_monthly_recap.png",
    "/images/dadtrack/3_magazine_mode.png"]

  const ScreenshotAlts: seq<string> := [
    "DadTrack Home Timeline with AI Tip", "DadTrack Monthly Recap", "DadTrack Magazine Mode"]

  const ScreenshotTitles: seq<string> := [
    "AI-Powered Daily Tips", "Monthly AI Recaps", "Immersive Magazine Mode"]

  const ScreenshotDescriptions: seq<string> := [
    "Get personalized parenting tips powered by AI, right in your timeline",
    "Beautiful narrative summaries of your journaling journey each month",
    "Relive your moments with full-screen photos and dramatic typography"]

  /** The three screenshots, in order, their paths resolved against the base path. */
  function Screenshots(basePath: string): (shots: seq<Image>)
    ensures |shots| == 3
    ensures forall i :: 0 <= i < 3 ==>
      shots[i] == Image(GetAssetPath(basePath, ScreenshotPaths[i]), ScreenshotAlts[i],
                        Some(ScreenshotTitles[i]), Some(ScreenshotDescriptions[i]))
  {
    seq(3, i requires 0 <= i < 3 =>
      Image(GetAssetPath(basePath, ScreenshotPaths[i]), ScreenshotAlts[i],
            Some(ScreenshotTitles[i]), Some(ScreenshotDescriptions[i])))
  }

  /** The page's lightbox state: closed, on the first of its three screenshots. */
  method NewHomeLightbox(basePath: string) returns (state: LightboxState)
    ensures fresh(state)
    ensures state.imageCount == |Screenshots(basePath)| == 3
    ensures !state.lightboxOpen && state.currentImageIndex == 0
  {
    state := new LightboxState(|Screenshots(basePath)|);
  }

  /** Going back from the first screenshot shows the third; going on from the third shows the first. */
  lemma HomeWrapAround()
    ensures JsRem(0 - 1 + 3, 3) == 2 && Pred(0, 3) == 2
    ensures JsRem(2 + 1, 3) == 0 && Succ(2, 3) == 0
  {
  }

  /** Three steps forward return to the screenshot the viewer started on. */
  lemma HomeFullTurn(i: int)
    requires InRange(i, 3)
    ensures Advance(i, 3, 3) == i
  {
    FullTurn(i, 3);
  }

  /** Three presses of "next" on the page's state come back to the same screenshot. */
  method NextThreeTimes(state: LightboxState)
    requires state.imageCount == 3 && state.Valid()
    modifies state
    ensures state.Valid() && state.currentImageIndex == old(state.currentImageIndex)
    ensures state.lightboxOpen == old(state.lightboxOpen)
  {
    state.GoToNext();
    state.GoToNext();
    state.GoToNext();
  }

  /** Every index the page's state can reach shows a screenshot in the viewer. */
  lemma HomeEveryIndexShows(basePath: string, i: int)
    requires InRange(i, 3)
    ensures Render(Screenshots(basePath), i, true).Overlay?
    ensures Render(Screenshots(basePath), i, true).image == Screenshots(basePath)[i]
    ensures Render(Screenshots(basePath), i, true).counter == Some(Counter(i + 1, 3))
  {
  }
}
