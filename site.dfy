/**
 * The page's shared state and the handlers that change it: the gallery
 * rotator (changeGallery, main.js:650-695), the lightbox session
 * (openLightbox, updateLightboxContent, navigateLightbox, main.js:542-645),
 * the key and swipe handlers that drive it (main.js:249-270, 586-596), and
 * setLanguage with its caption refresh (main.js:486-526).
 *
 * Image loads are not concurrent here: every `onload`/`onerror` a handler
 * arms becomes a method the browser calls later. A preload settles at most
 * once: a batch counts its loaded and its failed preloads, and a lightbox
 * load leaves `lbPending` when it settles.
 */
module Site {
  import opened Wrappers
  import opened Circular
  import opened Catalog
  import opened Localization
  import opened Input

  /** The inline opacity of a thumbnail: '0.3' while a rotation is pending (main.js:671), '1' after its commit (main.js:684). */
  datatype Opacity = Dim | Full

  /** One `.gallery-img` element: its `src` and its opacity. */
  datatype Thumb = Thumb(src: string, opacity: Opacity)

  /** The `.gallery-img` and `.festival-name` elements of one `<id>-gallery` element, in document order. */
  datatype View = View(thumbs: seq<Thumb>, captions: seq<string>)

  /**
   * One call of changeGallery that got as far as its preloads: the gallery,
   * the paths it preloads (`imagesToLoad`), its closure's `loadedCount`, and
   * the number of preloads that failed. A failure has no handler in main.js,
   * so `failed` is not program state: it records that the preload has settled
   * and will never call `onload`.
   */
  datatype Batch = Batch(galleryId: string, targets: seq<string>, loaded: nat, failed: nat)

  /** The sources a view shows, slot by slot. */
  function Sources(v: View): seq<string> {
    seq(|v.thumbs|, j requires 0 <= j < |v.thumbs| => v.thumbs[j].src)
  }

  predicate AllOpacity(v: View, o: Opacity) {
    forall j :: 0 <= j < |v.thumbs| ==> v.thumbs[j].opacity == o
  }

  /** The view with every thumbnail dimmed. */
  function FadedOut(v: View): View {
    v.(thumbs := seq(|v.thumbs|, j requires 0 <= j < |v.thumbs| => v.thumbs[j].(opacity := Dim)))
  }

  /**
   * The view after a batch commits: slot `j` shows the image `j` places after
   * the gallery's cursor, at full opacity, and the caption elements that have
   * a thumbnail of the same position get `caption` (main.js:681-690).
   */
  function Committed(v: View, g: Gallery, caption: string): View
    requires g.Valid()
  {
    var w := Window(g.images, g.cursor, |v.thumbs|);
    View(seq(|v.thumbs|, j requires 0 <= j < |v.thumbs| => Thumb(w[j], Full)),
         seq(|v.captions|, j requires 0 <= j < |v.captions| => if j < |v.thumbs| then caption else v.captions[j]))
  }

  /** The view with every caption element showing `caption` (main.js:516-518). */
  function Recaptioned(v: View, caption: string): View {
    v.(captions := seq(|v.captions|, j requires 0 <= j < |v.captions| => caption))
  }

  /** Fading changes no source: until its batch commits, a rotation leaves the old images on screen. */
  lemma FadeKeepsSources(v: View)
    ensures |FadedOut(v).thumbs| == |v.thumbs| && FadedOut(v).captions == v.captions
    ensures Sources(FadedOut(v)) == Sources(v) && AllOpacity(FadedOut(v), Dim)
  {
  }

  /** After a commit the view shows the window at the cursor, fully opaque, with the gallery's caption. */
  lemma CommitShowsWindow(v: View, g: Gallery, caption: string)
    requires g.Valid()
    ensures |Committed(v, g, caption).thumbs| == |v.thumbs|
    ensures Sources(Committed(v, g, caption)) == Window(g.images, g.cursor, |v.thumbs|)
    ensures AllOpacity(Committed(v, g, caption), Full)
    ensures forall j :: 0 <= j < |v.captions| && j < |v.thumbs| ==> Committed(v, g, caption).captions[j] == caption
  {
  }

  /** The number of successful loads among a sequence of preload outcomes. */
  function Successes(outcomes: seq<bool>): nat {
    if outcomes == [] then 0
    else Successes(outcomes[..|outcomes| - 1]) + (if outcomes[|outcomes| - 1] then 1 else 0)
  }

  /** The number of failed loads among a sequence of preload outcomes. */
  function Failures(outcomes: seq<bool>): nat {
    if outcomes == [] then 0
    else Failures(outcomes[..|outcomes| - 1]) + (if outcomes[|outcomes| - 1] then 0 else 1)
  }

  lemma {:induction false} OutcomeCounts(outcomes: seq<bool>)
    ensures Successes(outcomes) + Failures(outcomes) == |outcomes|
    ensures Successes(outcomes) == |outcomes| <==> forall k :: 0 <= k < |outcomes| ==> outcomes[k]
  {
    if outcomes != [] {
      OutcomeCounts(outcomes[..|outcomes| - 1]);
      assert forall k :: 0 <= k < |outcomes| - 1 ==> outcomes[..|outcomes| - 1][k] == outcomes[k];
    }
  }

  class Page {
    /** `translations` */
    const dict: Dict
    /** The languages that have a `.lang-btn-<code>` control on the page. */
    const langButtons: set<string>

    /** `currentLanguage` */
    var language: string
    /** The value stored under 'merkaba-lang' in localStorage. */
    var stored: Option<string>
    /** The languages whose control carries the class 'active'. */
    var activeButtons: set<string>
    /** The elements tagged with a text key: id to content. */
    var texts: map<string, string>

    /** `galleries` */
    var galleries: map<string, Gallery>
    /** The galleries whose `<id>-gallery` element is on the page, with what it shows. */
    var views: map<string, View>
    /** Every preload batch changeGallery has started, in the order it started them. */
    var batches: seq<Batch>

    /** `modal.style.display === "block"` */
    var isOpen: bool
    /** `currentLightboxGallery` (`null` is None) */
    var lbGallery: Option<string>
    /** `currentLightboxIndex` */
    var lbIndex: nat
    /** The modal carries the class 'lightbox-loading'. */
    var lbLoading: bool
    /** The `src` of the `lightbox-img` element. */
    var lbSrc: string
    /** The text of the `lightbox-caption-text` element. */
    var lbCaption: string
    /** The paths of the lightbox loads whose `onload`/`onerror` has not fired yet. */
    var lbPending: seq<string>
    /** The path of the last look-ahead preload (main.js:636-638). */
    var lbPrefetch: Option<string>

    /**
     * A batch belongs to a displayed gallery and preloads one image per
     * thumbnail, each of which has loaded, failed or not settled yet.
     */
    ghost predicate BatchFits(b: Batch)
      reads this
    {
      b.galleryId in views && b.loaded + b.failed <= |b.targets| == |views[b.galleryId].thumbs|
    }

    ghost predicate Valid()
      reads this
    {
      && WellFormed(galleries)
      && views.Keys <= galleries.Keys
      && (forall b :: 0 <= b < |batches| ==> BatchFits(batches[b]))
      && (lbGallery.Some? ==> lbGallery.value in galleries && lbIndex < |galleries[lbGallery.value].images|)
      && (isOpen ==> lbGallery.Some?)
    }

    /**
     * What updateLightboxContent leaves behind (main.js:608-639): the loading
     * flag set, one more load pending for the current image, the caption of the
     * session's gallery, and a look-ahead preload of the next image.
     */
    ghost predicate LightboxRefreshed(pending0: seq<string>)
      reads this
    {
      && lbGallery.Some? && lbGallery.value in galleries && lbIndex < |galleries[lbGallery.value].images|
      && var images := galleries[lbGallery.value].images;
         && lbLoading
         && lbPending == pending0 + [images[lbIndex]]
         && lbCaption == Caption(dict, language, lbGallery.value)
         && lbPrefetch == Some(images[(lbIndex + 1) % |images|])
    }

    /** Every displayed gallery's captions in language `lang`. */
    ghost function RecaptionAll(vs: map<string, View>, lang: string): map<string, View> {
      map id | id in vs :: Recaptioned(vs[id], Caption(dict, lang, id))
    }

    /**
     * The page after DOMContentLoaded as far as this model goes: `currentLanguage`
     * read from storage (main.js:2), the galleries at their initial cursors,
     * the lightbox closed with no session, then initLanguage (main.js:481-484).
     */
    constructor (catalog: map<string, Gallery>, dict: Dict, langButtons: set<string>,
                 texts: map<string, string>, views: map<string, View>, saved: Option<string>)
      requires WellFormed(catalog) && views.Keys <= catalog.Keys
      ensures Valid()
      ensures this.dict == dict && this.langButtons == langButtons
      ensures galleries == catalog && batches == []
      ensures !isOpen && lbGallery.None? && !lbLoading && lbPending == []
      ensures language == SavedLanguage(saved) && stored == Some(language)
      ensures activeButtons == if language in langButtons then {language} else {}
      ensures !Defined(dict, language) ==> this.texts == texts && this.views == views
      ensures Defined(dict, language) ==>
        this.texts == Rendered(texts, Entries(dict, language)) && this.views == RecaptionAll(views, language)
      ensures this.views.Keys == views.Keys
      ensures forall id :: id in views ==> this.views[id].thumbs == views[id].thumbs
      ensures lbIndex == 0 && lbSrc == "" && lbCaption == "" && lbPrefetch == None
    {
      this.dict := dict;
      this.langButtons := langButtons;
      language := SavedLanguage(saved);
      stored := saved;
      activeButtons := {};
      this.texts := texts;
      galleries := catalog;
      this.views := views;
      batches := [];
      isOpen := false;
      lbGallery := None;
      lbIndex := 0;
      lbLoading := false;
      lbSrc := "";
      lbCaption := "";
      lbPending := [];
      lbPrefetch := None;
      new;
      SetLanguage(SavedLanguage(saved));
    }

    // -------------------------------------------------------------------
    // Localization

    /**
     * setLanguage (main.js:486-505). The code is recorded and stored and the
     * controls highlighted before the dictionary is consulted, so an unknown
     * code is kept but changes no text. An inherited name such as "toString"
     * passes the guard with no entries, and the captions become gallery ids.
     */
    method SetLanguage(lang: string)
      requires Valid()
      modifies this`language, this`stored, this`activeButtons, this`texts, this`views
      modifies this`lbLoading, this`lbPending, this`lbCaption, this`lbPrefetch
      ensures Valid()
      ensures language == lang && stored == Some(lang)
      ensures activeButtons == if lang in langButtons then {lang} else {}
      ensures !Defined(dict, lang) ==> texts == old(texts) && views == old(views)
      ensures Defined(dict, lang) ==>
        texts == Rendered(old(texts), Entries(dict, lang)) && views == RecaptionAll(old(views), lang)
      ensures Defined(dict, lang) && isOpen ==> LightboxRefreshed(old(lbPending))
      ensures !Defined(dict, lang) || !isOpen ==>
        lbLoading == old(lbLoading) && lbPending == old(lbPending) && lbCaption == old(lbCaption) && lbPrefetch == old(lbPrefetch)
    {
      language := lang;
      stored := Some(lang);
      activeButtons := if lang in langButtons then {lang} else {};
      if !Defined(dict, lang) {
        return;
      }
      texts := ApplyTranslations(texts, Entries(dict, lang));
      UpdateVisibleGalleryCaptions();
    }

    /** updateVisibleGalleryCaptions (main.js:507-526), in the current language. */
    method UpdateVisibleGalleryCaptions()
      requires Valid()
      modifies this`views, this`lbLoading, this`lbPending, this`lbCaption, this`lbPrefetch
      ensures Valid()
      ensures views == RecaptionAll(old(views), language)
      ensures isOpen ==> LightboxRefreshed(old(lbPending))
      ensures !isOpen ==>
        lbLoading == old(lbLoading) && lbPending == old(lbPending) && lbCaption == old(lbCaption) && lbPrefetch == old(lbPrefetch)
    {
      var vs := views;
      var todo := galleries.Keys;
      while todo != {}
        invariant todo <= galleries.Keys
        invariant vs.Keys == views.Keys
        invariant forall id :: id in vs ==>
          vs[id] == if id in todo then views[id] else Recaptioned(views[id], Caption(dict, language, id))
        decreases todo
      {
        var id :| id in todo;
        if id in vs {
          vs := vs[id := Recaptioned(vs[id], Caption(dict, language, id))];
        }
        todo := todo - {id};
      }
      assert vs == RecaptionAll(views, language);
      assert forall id :: id in vs ==> vs[id].thumbs == views[id].thumbs;
      views := vs;
      if isOpen {
        UpdateLightboxContent();
      }
    }

    // -------------------------------------------------------------------
    // Gallery rotator

    /**
     * changeGallery (main.js:650-695) up to the point where it waits for its
     * preloads: the cursor moves at once, one preload per thumbnail is issued
     * for the window at the new cursor, and every thumbnail is dimmed.
     * An unknown gallery, or one without an element on the page, is left alone.
     */
    method Rotate(galleryId: string, dir: int)
      requires Valid() && IsDirection(dir)
      modifies this`galleries, this`views, this`batches
      ensures Valid()
      ensures galleryId !in old(views) ==>
        galleries == old(galleries) && views == old(views) && batches == old(batches)
      ensures galleryId in old(views) ==>
        var g := old(galleries)[galleryId];
        var v := old(views)[galleryId];
        var c := Step(g.cursor, dir, |g.images|);
        && galleries == old(galleries)[galleryId := g.(cursor := c)]
        && views == old(views)[galleryId := FadedOut(v)]
        && batches == old(batches) + [Batch(galleryId, Window(g.images, c, |v.thumbs|), 0, 0)]
    {
      if galleryId !in galleries || galleryId !in views {
        return;
      }
      var g := galleries[galleryId];
      var v := views[galleryId];
      var n := |g.images|;
      var c := Step(g.cursor, dir, n);
      galleries := galleries[galleryId := g.(cursor := c)];

      var targets: seq<string> := [];
      var i := 0;
      while i < |v.thumbs|
        invariant 0 <= i <= |v.thumbs|
        invariant targets == Window(g.images, c, i)
      {
        targets := targets + [g.images[(c + i) % n]];
        i := i + 1;
      }

      var thumbs := v.thumbs;
      i := 0;
      while i < |thumbs|
        invariant 0 <= i <= |thumbs| == |v.thumbs|
        invariant forall j :: 0 <= j < |thumbs| ==> thumbs[j] == if j < i then v.thumbs[j].(opacity := Dim) else v.thumbs[j]
      {
        thumbs := thumbs[i := thumbs[i].(opacity := Dim)];
        i := i + 1;
      }
      assert thumbs == FadedOut(v).thumbs;
      views := views[galleryId := v.(thumbs := thumbs)];
      batches := batches + [Batch(galleryId, targets, 0, 0)];
    }

    /**
     * The commit of a batch (main.js:681-690): every thumbnail gets the image
     * at the gallery's cursor as it is NOW, not as it was when the batch started.
     */
    method ShowRotation(galleryId: string)
      requires Valid() && galleryId in views
      modifies this`views
      ensures Valid()
      ensures views == old(views)[galleryId := Committed(old(views)[galleryId], galleries[galleryId], Caption(dict, language, galleryId))]
    {
      var g := galleries[galleryId];
      var v := views[galleryId];
      var n := |g.images|;
      var caption := Caption(dict, language, galleryId);
      var thumbs := v.thumbs;
      var captions := v.captions;
      var j := 0;
      while j < |thumbs|
        invariant 0 <= j <= |thumbs| == |v.thumbs|
        invariant |captions| == |v.captions|
        invariant forall k :: 0 <= k < |thumbs| ==>
          thumbs[k] == if k < j then Thumb(g.images[(g.cursor + k) % n], Full) else v.thumbs[k]
        invariant forall k :: 0 <= k < |captions| ==>
          captions[k] == if k < j then caption else v.captions[k]
      {
        thumbs := thumbs[j := Thumb(g.images[(g.cursor + j) % n], Full)];
        if j < |captions| {
          captions := captions[j := caption];
        }
        j := j + 1;
      }
      assert View(thumbs, captions) == Committed(v, g, caption);
      views := views[galleryId := View(thumbs, captions)];
    }

    /**
     * The `onload` of one preload of batch `b` (main.js:677-692): the batch's
     * counter goes up, and the batch commits when it reaches the number of
     * preloads. Only a preload that has not settled yet can load.
     */
    method OnPreloadLoaded(b: nat)
      requires Valid() && b < |batches| && batches[b].loaded + batches[b].failed < |batches[b].targets|
      modifies this`batches, this`views
      ensures Valid()
      ensures batches == old(batches)[b := old(batches[b]).(loaded := old(batches[b].loaded) + 1)]
      ensures var id := batches[b].galleryId;
        views == if batches[b].loaded == |batches[b].targets|
                 then old(views)[id := Committed(old(views)[id], galleries[id], Caption(dict, language, id))]
                 else old(views)
    {
      var batch := batches[b];
      batches := batches[b := batch.(loaded := batch.loaded + 1)];
      if batch.loaded + 1 == |batch.targets| {
        ShowRotation(batch.galleryId);
      }
    }

    /**
     * A preload of batch `b` that fails (main.js:676-693 arm no `onerror`):
     * nothing on the page changes, and that preload will never count.
     */
    method OnPreloadFailed(b: nat)
      requires Valid() && b < |batches| && batches[b].loaded + batches[b].failed < |batches[b].targets|
      modifies this`batches
      ensures Valid()
      ensures batches == old(batches)[b := old(batches[b]).(failed := old(batches[b].failed) + 1)]
      ensures batches[b].loaded < |batches[b].targets|
    {
      var batch := batches[b];
      batches := batches[b := batch.(failed := batch.failed + 1)];
    }

    /**
     * Some of the unsettled preloads of batch `b` settle, one after the other:
     * `true` a load, `false` an error. The batch commits during the run exactly
     * when its last preload loads; once one of its preloads has failed, it
     * never commits.
     */
    method DeliverPreloads(b: nat, outcomes: seq<bool>)
      requires Valid() && b < |batches|
      requires batches[b].loaded + batches[b].failed + |outcomes| <= |batches[b].targets|
      modifies this`batches, this`views
      ensures Valid()
      ensures batches == old(batches)[b := old(batches[b]).(loaded := old(batches[b].loaded) + Successes(outcomes),
                                                           failed := old(batches[b].failed) + Failures(outcomes))]
      ensures var id := batches[b].galleryId;
        views == if old(batches[b].loaded) < |batches[b].targets| == batches[b].loaded
                 then old(views)[id := Committed(old(views)[id], galleries[id], Caption(dict, language, id))]
                 else old(views)
      ensures batches[b].failed > 0 ==> views == old(views) && batches[b].loaded < |batches[b].targets|
    {
      var i := 0;
      while i < |outcomes|
        invariant 0 <= i <= |outcomes|
        invariant Valid() && |batches| == |old(batches)|
        invariant batches == old(batches)[b := old(batches[b]).(loaded := old(batches[b].loaded) + Successes(outcomes[..i]),
                                                               failed := old(batches[b].failed) + Failures(outcomes[..i]))]
        invariant var id := batches[b].galleryId;
          views == if old(batches[b].loaded) < |batches[b].targets| == batches[b].loaded
                   then old(views)[id := Committed(old(views)[id], galleries[id], Caption(dict, language, id))]
                   else old(views)
      {
        assert outcomes[..i + 1][..i] == outcomes[..i];
        OutcomeCounts(outcomes[..i]);
        if outcomes[i] {
          OnPreloadLoaded(b);
        } else {
          OnPreloadFailed(b);
        }
        i := i + 1;
      }
      assert outcomes[..i] == outcomes;
    }

    // -------------------------------------------------------------------
    // Lightbox session

    /** updateLightboxContent (main.js:608-639), as far as the index, the loads and the caption go. */
    method UpdateLightboxContent()
      requires Valid() && lbGallery.Some?
      modifies this`lbLoading, this`lbPending, this`lbCaption, this`lbPrefetch
      ensures Valid() && LightboxRefreshed(old(lbPending))
    {
      var images := galleries[lbGallery.value].images;
      lbLoading := true;
      lbPending := lbPending + [images[lbIndex]];
      lbCaption := Caption(dict, language, lbGallery.value);
      lbPrefetch := Some(images[(lbIndex + 1) % |images|]);
    }

    /**
     * openLightbox (main.js:599-606): an unknown gallery changes nothing;
     * otherwise the session moves to the gallery, at the given index or, when
     * none is given (`null`), at the gallery's rotation cursor.
     */
    method OpenLightbox(galleryId: string, index: Option<nat>)
      requires Valid()
      requires galleryId in galleries && index.Some? ==> index.value < |galleries[galleryId].images|
      modifies this`isOpen, this`lbGallery, this`lbIndex
      modifies this`lbLoading, this`lbPending, this`lbCaption, this`lbPrefetch
      ensures Valid()
      ensures galleryId !in galleries ==> unchanged(this)
      ensures galleryId in galleries ==>
        && isOpen && lbGallery == Some(galleryId)
        && lbIndex == index.GetOr(galleries[galleryId].cursor)
        && LightboxRefreshed(old(lbPending))
    {
      if galleryId !in galleries {
        return;
      }
      lbGallery := Some(galleryId);
      lbIndex := if index.Some? then index.value else galleries[galleryId].cursor;
      UpdateLightboxContent();
      isOpen := true;
    }

    /**
     * A click on the thumbnail at position `r` of its row (main.js:551-565):
     * the lightbox opens at `(cursor + r) % n`, with the cursor as it is now.
     */
    method OpenFromThumbnail(galleryId: string, r: nat)
      requires Valid()
      modifies this`isOpen, this`lbGallery, this`lbIndex
      modifies this`lbLoading, this`lbPending, this`lbCaption, this`lbPrefetch
      ensures Valid()
      ensures galleryId !in galleries ==> unchanged(this)
      ensures galleryId in galleries ==>
        && isOpen && lbGallery == Some(galleryId)
        && lbIndex == ThumbnailIndex(galleries[galleryId].cursor, r, |galleries[galleryId].images|)
        && LightboxRefreshed(old(lbPending))
    {
      if galleryId !in galleries {
        return;
      }
      var g := galleries[galleryId];
      var realIndex := ThumbnailIndex(g.cursor, r, |g.images|);
      OpenLightbox(galleryId, Some(realIndex));
    }

    /** navigateLightbox (main.js:641-645): one step around the session's gallery, which stays the same. */
    method NavigateLightbox(dir: int)
      requires Valid() && lbGallery.Some? && IsDirection(dir)
      modifies this`lbIndex, this`lbLoading, this`lbPending, this`lbCaption, this`lbPrefetch
      ensures Valid()
      ensures lbIndex == Step(old(lbIndex), dir, |galleries[lbGallery.value].images|)
      ensures LightboxRefreshed(old(lbPending))
    {
      var n := |galleries[lbGallery.value].images|;
      lbIndex := Step(lbIndex, dir, n);
      UpdateLightboxContent();
    }

    /** The close control, a click on the backdrop, or Escape: the modal is hidden, the session kept. */
    method CloseLightbox()
      modifies this`isOpen
      ensures !isOpen
    {
      isOpen := false;
    }

    /** The `onload` of pending lightbox load `k` (main.js:619-622): its image is shown and the loading flag cleared. */
    method OnLightboxLoaded(k: nat)
      requires k < |lbPending|
      modifies this`lbSrc, this`lbLoading, this`lbPending
      ensures lbSrc == old(lbPending[k]) && !lbLoading
      ensures lbPending == old(lbPending[..k] + lbPending[k + 1..])
    {
      lbSrc := lbPending[k];
      lbLoading := false;
      lbPending := lbPending[..k] + lbPending[k + 1..];
    }

    /** The `onerror` of pending lightbox load `k` (main.js:623-626): only the loading flag is cleared. */
    method OnLightboxFailed(k: nat)
      requires k < |lbPending|
      modifies this`lbLoading, this`lbPending
      ensures !lbLoading
      ensures lbPending == old(lbPending[..k] + lbPending[k + 1..])
    {
      lbLoading := false;
      lbPending := lbPending[..k] + lbPending[k + 1..];
    }

    // -------------------------------------------------------------------
    // Input channels

    /**
     * handleSwipe (main.js:586-596) for a touch on the modal from `startX` to
     * `endX`: the navigations SwipeCalls lists, and nothing else.
     */
    method HandleSwipe(startX: int, endX: int)
      requires Valid() && lbGallery.Some?
      modifies this`lbIndex, this`lbLoading, this`lbPending, this`lbCaption, this`lbPrefetch
      ensures Valid()
      ensures SwipeCalls(startX, endX) == [] ==> unchanged(this)
      ensures |SwipeCalls(startX, endX)| == 1 ==>
        && lbIndex == Step(old(lbIndex), SwipeCalls(startX, endX)[0], |galleries[lbGallery.value].images|)
        && LightboxRefreshed(old(lbPending))
    {
      if endX < startX - SwipeThreshold {
        NavigateLightbox(1);
      }
      if endX > startX + SwipeThreshold {
        NavigateLightbox(-1);
      }
    }

    /**
     * The keydown handler (main.js:250-269). Clicking the gallery arrows is
     * returned, not performed: their handlers are not part of this model.
     */
    method HandleKey(key: string) returns (action: KeyAction)
      requires Valid()
      modifies this`isOpen, this`lbIndex, this`lbLoading, this`lbPending, this`lbCaption, this`lbPrefetch
      ensures Valid()
      ensures action == KeyDispatch(key, old(isOpen))
      ensures action.Navigate? ==>
        && isOpen
        && lbIndex == Step(old(lbIndex), action.dir, |galleries[lbGallery.value].images|)
        && LightboxRefreshed(old(lbPending))
      ensures action.Close? ==>
        && !isOpen && lbIndex == old(lbIndex) && lbPending == old(lbPending) && lbLoading == old(lbLoading)
        && lbCaption == old(lbCaption) && lbPrefetch == old(lbPrefetch)
      ensures action.ClickGalleryArrows? || action.Ignore? ==> unchanged(this)
    {
      action := KeyDispatch(key, isOpen);
      match action
      case Navigate(dir) =>
        NavigateLightbox(dir);
      case Close =>
        CloseLightbox();
      case ClickGalleryArrows(_) =>
      case Ignore =>
    }
  }
}
