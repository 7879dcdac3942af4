/**
 * Client code that drives a Page through the scenarios the system is meant to
 * support, with what the contracts alone let a caller conclude, as assertions.
 */
module Scenarios {
  import opened Wrappers
  import opened Circular
  import opened Catalog
  import opened Localization
  import opened Site

  /** A page whose `sun` gallery element has four thumbnails showing the first four images. */
  method SunPage(dict: Dict) returns (page: Page)
    ensures fresh(page) && page.Valid() && page.dict == dict
    ensures page.batches == [] && !page.isOpen && page.lbGallery.None?
    ensures page.galleries == Galleries() && page.views.Keys == {"sun"}
    ensures |page.views["sun"].thumbs| == 4 && Sources(page.views["sun"]) == SunImages[..4]
  {
    GalleriesWellFormed();
    var thumbs := seq(4, j requires 0 <= j < 4 => Thumb(SunImages[j], Full));
    page := new Page(Galleries(), dict, {"hu", "en"}, map[], map["sun" := View(thumbs, ["", "", "", ""])], None);
    assert Sources(page.views["sun"]) == Sources(View(thumbs, []));
  }

  /** One forward rotation of `sun`, before any preload has settled: the cursor has moved, the old images are dimmed. */
  method OneRotation(dict: Dict) returns (page: Page)
    ensures fresh(page) && page.Valid() && page.dict == dict && "sun" in page.views
    ensures page.galleries["sun"] == Gallery(SunImages, 1)
    ensures page.batches == [Batch("sun", SunImages[1..5], 0, 0)]
    ensures |page.views["sun"].thumbs| == 4
    ensures Sources(page.views["sun"]) == SunImages[..4] && AllOpacity(page.views["sun"], Dim)
  {
    page := SunPage(dict);
    var v := page.views["sun"];
    page.Rotate("sun", 1);
    FadeKeepsSources(v);
    assert page.batches[0].targets == Window(SunImages, 1, 4) == SunImages[1..5];
  }

  /** Rotating `sun` forward and letting all four preloads load shows images 1 to 4. */
  method SunRotationCommits(dict: Dict) {
    var page := OneRotation(dict);
    var g := page.galleries["sun"];
    var v := page.views["sun"];
    var caption := Caption(dict, page.language, "sun");
    OutcomeCounts([true, true, true, true]);
    page.DeliverPreloads(0, [true, true, true, true]);
    assert page.views["sun"] == Committed(v, g, caption);
    CommitShowsWindow(v, g, caption);
    assert Window(SunImages, 1, 4) == SunImages[1..5];
    assert Sources(page.views["sun"]) == SunImages[1..5];
    assert AllOpacity(page.views["sun"], Full);
  }

  /** One failed preload: the batch never commits, the old images stay dimmed, yet the cursor has moved. */
  method SunRotationStalls(dict: Dict) {
    var page := OneRotation(dict);
    page.DeliverPreloads(0, [true, false, true, true]);
    OutcomeCounts([true, false, true, true]);
    assert ![true, false, true, true][1];
    assert Sources(page.views["sun"]) == SunImages[..4];
    assert AllOpacity(page.views["sun"], Dim);
    assert page.galleries["sun"].cursor == 1;
  }

  /** A preload that failed first: the three that load after it still leave the batch uncommitted. */
  method SunRotationFailureIsFinal(dict: Dict) {
    var page := OneRotation(dict);
    page.DeliverPreloads(0, [false]);
    page.DeliverPreloads(0, [true, true, true]);
    assert Sources(page.views["sun"]) == SunImages[..4];
    assert AllOpacity(page.views["sun"], Dim);
  }

  /** Two quick forward rotations of `sun`, before any preload has settled. */
  method TwoRotations(dict: Dict) returns (page: Page)
    ensures fresh(page) && page.Valid() && page.dict == dict && "sun" in page.views
    ensures page.galleries["sun"] == Gallery(SunImages, 2)
    ensures |page.batches| == 2 && page.batches[0] == Batch("sun", SunImages[1..5], 0, 0)
    ensures |page.views["sun"].thumbs| == 4
  {
    page := SunPage(dict);
    page.Rotate("sun", 1);
    page.Rotate("sun", 1);
    assert page.galleries["sun"] == Gallery(SunImages, 2);
    assert page.batches[0].targets == Window(SunImages, 1, 4) == SunImages[1..5];
  }

  /** The first batch to finish commits the window of the latest cursor, not the one it preloaded. */
  method InterleavedRotations(dict: Dict) {
    var page := TwoRotations(dict);
    var g := page.galleries["sun"];
    var v := page.views["sun"];
    var caption := Caption(dict, page.language, "sun");
    OutcomeCounts([true, true, true, true]);
    page.DeliverPreloads(0, [true, true, true, true]);
    assert page.views["sun"] == Committed(v, g, caption);
    CommitShowsWindow(v, g, caption);
    assert Window(SunImages, 2, 4) == SunImages[2..6];
    assert Sources(page.views["sun"]) == SunImages[2..6];
    assert Sources(page.views["sun"])[0] == SunImages[2] != SunImages[1] == page.batches[0].targets[0];
  }

  /** The 4-image `mandula` gallery opened at index 3: the next image is index 0. */
  method MandulaWraps(dict: Dict) {
    var page := SunPage(dict);
    GallerySizes();
    page.OpenLightbox("mandula", Some(3));
    page.NavigateLightbox(1);
    assert page.lbGallery == Some("mandula") && page.lbIndex == 0;
    assert page.lbPending[|page.lbPending| - 1] == MandulaImages[0];
  }

  /** Opening a gallery that does not exist leaves the lightbox closed. */
  method UnknownGalleryIgnored(dict: Dict) {
    var page := SunPage(dict);
    page.OpenLightbox("nope", None);
    assert !page.isOpen && page.lbGallery.None?;
  }

  /** Switching language with the lightbox open on `galgaguta` changes its caption and nothing it shows. */
  method LanguageSwitchWhileOpen(dict: Dict)
    requires "en" in dict
  {
    var page := SunPage(dict);
    GallerySizes();
    page.OpenLightbox("galgaguta", None);
    var index := page.lbIndex;
    page.SetLanguage("en");
    assert page.lbGallery == Some("galgaguta") && page.lbIndex == index;
    assert page.lbCaption == Caption(dict, "en", "galgaguta");
  }
}
