/**
 * The DadTrack product page's feature lightbox (src/app/dadtrack/page.tsx):
 * six features, each shown through the shared lightbox state and viewer.
 */
module DadTrackPage {
  import opened Wrappers
  import opened Navigation
  import opened BasePath
  import opened ImageLightbox
  import opened PageLightbox

  datatype Feature = Feature(title: string, description: string, image: string)

  const FeatureTitles: seq<string> := [
    "Daily Dad Journal", "Multi-Child Support", "Magazine Mode",
    "Mood Tracking", "Advanced Filtering", "Settings & Customization"]

  const FeatureScreens: seq<string> := [
    "/images/dadtrack/add_journal_entry_screen.png", "/images/dadtrack/home_screen.png",
    "/images/dadtrack/magazine_mode_journal_entry.png", "/images/dadtrack/manage_mood_screen.png",
    "/images/dadtrack/filter_screen.png", "/images/dadtrack/settings_screen.png"]

  /**
   * The six features, their screenshot paths resolved against the base path.
   * The description texts are page copy and are passed in.
   */
  function Features(basePath: string, descriptions: seq<string>): (fs: seq<Feature>)
    requires |descriptions| == 6
    ensures |fs| == 6
    ensures forall i :: 0 <= i < 6 ==>
      fs[i] == Feature(FeatureTitles[i], descriptions[i], GetAssetPath(basePath, FeatureScreens[i]))
  {
    seq(6, i requires 0 <= i < 6 =>
      Feature(FeatureTitles[i], descriptions[i], GetAssetPath(basePath, FeatureScreens[i])))
  }

  /** The viewer's image for one feature: its screenshot, titled and captioned by the feature. */
  function FeatureImage(f: Feature): (img: Image)
    ensures img.src == f.image && img.alt == f.title
    ensures img.title == Some(f.title) && img.description == Some(f.description)
  {
    Image(f.image, f.title, Some(f.title), Some(f.description))
  }

  /** The viewer's image list: one image per feature, in the same order. */
  function LightboxImages(fs: seq<Feature>): (images: seq<Image>)
    ensures |images| == |fs|
    ensures forall i :: 0 <= i < |fs| ==> images[i] == FeatureImage(fs[i])
  {
    if fs == [] then [] else [FeatureImage(fs[0])] + LightboxImages(fs[1..])
  }

  /** The page's lightbox state: closed, on the first of its six features. */
  method NewDadTrackLightbox(basePath: string, descriptions: seq<string>) returns (state: LightboxState)
    requires |descriptions| == 6
    ensures fresh(state)
    ensures state.imageCount == |LightboxImages(Features(basePath, descriptions))| == 6
    ensures !state.lightboxOpen && state.currentImageIndex == 0
  {
    state := new LightboxState(|LightboxImages(Features(basePath, descriptions))|);
  }

  /** Going back from the first feature shows the sixth; going on from the sixth shows the first. */
  lemma DadTrackWrapAround()
    ensures JsRem(0 - 1 + 6, 6) == 5 && Pred(0, 6) == 5
    ensures JsRem(5 + 1, 6) == 0 && Succ(5, 6) == 0
  {
  }

  /** Six steps forward return to the feature the viewer started on. */
  lemma DadTrackFullTurn(i: int)
    requires InRange(i, 6)
    ensures Advance(i, 6, 6) == i
  {
    FullTurn(i, 6);
  }

  /** Six presses of "next" on the page's state come back to the same feature. */
  method NextSixTimes(state: LightboxState)
    requires state.imageCount == 6 && state.Valid()
    modifies state
    ensures state.Valid() && state.currentImageIndex == old(state.currentImageIndex)
    ensures state.lightboxOpen == old(state.lightboxOpen)
  {
    var k := 0;
    while k < 6
      invariant 0 <= k <= 6
      invariant state.Valid() && state.lightboxOpen == old(state.lightboxOpen)
      invariant state.currentImageIndex == Advance(old(state.currentImageIndex), k, 6)
    {
      state.GoToNext();
      k := k + 1;
    }
    FullTurn(old(state.currentImageIndex), 6);
  }

  /** Every index the page's state can reach shows that feature's screenshot in the viewer. */
  lemma EveryFeatureHasImage(fs: seq<Feature>, i: int)
    requires InRange(i, |fs|)
    ensures Render(LightboxImages(fs), i, true).Overlay?
    ensures Render(LightboxImages(fs), i, true).image.src == fs[i].image
    ensures Render(LightboxImages(fs), i, true).image.title == Some(fs[i].title)
  {
  }
}
