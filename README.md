# Merkaba Coffee site: gallery, lightbox and language model

A Dafny model of the client-side behaviour in `main.js` of the Merkaba Coffee
website, covering its only stateful part. That part has three pieces:

- **Gallery rotator** (`changeGallery`). Each named gallery has a list of image
  paths and a rotation cursor. An arrow moves the cursor one step around the
  ring of images and dims the visible thumbnails. It then issues one preload
  per thumbnail. The new images appear, at full opacity and with a fresh
  caption, only when every one of those preloads has fired `onload`.
- **Lightbox** (`openLightbox`, `navigateLightbox`, `updateLightboxContent`).
  A full-screen viewer holding a (gallery, index) session. It can be opened
  from a thumbnail or at the gallery's cursor. It steps around the gallery
  from the keyboard, the on-screen controls or a horizontal swipe of more
  than 50 pixels.
- **Language store** (`setLanguage`). It records and stores the chosen
  language. For a language the dictionary knows, it rewrites every tagged
  element and refreshes the gallery and lightbox captions. A caption is the
  dictionary's `gal-<id>` entry, or the gallery id when that entry is missing.

The model also covers the pure rules around these pieces: swipe
classification, key dispatch, caption lookup and the in-page search filter.

Modules, one per component:

- `Circular` (`circular.dfy`): the ring arithmetic `(i + d + n) % n`, the
  thumbnail window and the thumbnail-click index.
- `Catalog` (`catalog.dfy`): the seven galleries and their image paths.
- `Localization` (`localization.dfy`): caption lookup, the rewriting loop and
  the saved language.
- `Input` (`input.dfy`): swipe and key dispatch.
- `Search` (`search.dfy`): query normalisation, `includes`, and the results
  filter.
- `Site` (`site.dfy`): the class `Page`. It holds the page's shared state,
  with one method per handler. Each image load's `onload`/`onerror` is a
  method the browser calls later. The state enforces that each load settles
  at most once:
  - a preload batch counts its loaded and its failed preloads, and never more
    than it issued;
  - a lightbox load leaves the pending list when it settles.
- `Scenarios` (`scenarios.dfy`): client methods that drive a `Page` through
  the documented scenarios and assert what the contracts let a caller
  conclude.
- `Wrappers` (`wrappers.dfy`): `Option`.

Where the code's behaviour differs from what a reader might expect, the
model follows the code:

- A failed gallery preload has no `onerror` handler, so it never counts
  toward the batch (main.js:675-693). One failure means the batch never
  commits, whatever loads after it, and the thumbnails stay dimmed on their
  old images.
- The cursor moves when the arrow is clicked (main.js:661), not at commit
  time. The commit re-reads the live cursor (main.js:682), not the one its
  batch preloaded. So when two rotations overlap, the first batch to finish
  shows the latest window (`Scenarios.InterleavedRotations`).
- `setLanguage` stores even an unknown code (main.js:487-488). It then
  highlights no control, and it returns before changing any text
  (main.js:492).
- A name every JavaScript object inherits, such as "toString", passes that
  guard. It renders no entries and sets every caption to its gallery id.
- The query length test counts UTF-16 code units (main.js:163), so a single
  emoji is already long enough to be searched.
- A thumbnail click reads the live cursor (main.js:562), not the image the
  slot shows. While a rotation's batch is pending, or for good after one of
  its preloads failed, a click on a dimmed slot opens the image one step past
  the one it shows.
- A swipe must travel strictly more than 50 pixels. A travel of exactly 50
  does nothing (main.js:588, 592).
- Each lightbox load that completes writes its own captured path
  (main.js:620). The image shown is the last load to finish, not the last one
  issued.

## Model

| member | source | states |
|---|---|---|
| `Circular.Step` | main.js:661 | one step stays in `[0, n)`: forward wraps `n-1` to 0, backward wraps 0 to `n-1`, otherwise it moves by one |
| `Circular.StepIsMod` | main.js:661 | the step equals the mathematical `(i + d) mod n` |
| `Circular.StepNIsMod` | main.js:661 | `k` steps in one direction land on `(i + k*d) mod n`, across any number of full turns |
| `Circular.FullTurn` | main.js:661 | `n` steps in one direction return the cursor to its start |
| `Circular.StepInverse` | main.js:643 | a step back undoes a step forward, and the other way round |
| `Circular.WindowForward` | main.js:664-668 | rotating forward shifts the thumbnail window one slot left and brings in the next image |
| `Circular.WindowBackward` | main.js:664-668 | rotating back shifts the window one slot right and brings in the previous image |
| `Circular.WindowFullIsRotation` | main.js:664-668 | a window as wide as the gallery is the gallery rotated to start at the cursor |
| `Circular.WindowFullIsPermutation` | main.js:664-668 | such a window shows every image of the gallery exactly once |
| `Circular.ThumbnailIndex` | main.js:562 | the index a thumbnail click opens is in range |
| `Circular.ThumbnailShowsWindowSlot` | main.js:562 | with the thumbnails in one row and no rotation since the last commit, a click on slot `r` opens the image that slot shows |
| `Catalog.GalleriesWellFormed` | main.js:529-537 | every gallery is non-empty and its cursor starts in range |
| `Catalog.GallerySizes` | main.js:530-536 | the seven galleries hold 8, 7, 10, 12, 4, 4 and 25 images |
| `Localization.Caption` | main.js:514 | a caption is the language's non-empty `gal-<id>` entry, otherwise the id; it is never blank for a named gallery |
| `Localization.InheritedNameRendersNothing` | main.js:492-498 | a language that passes the guard only as an inherited name has no entries, so rendering it leaves every element's text as it was |
| `Localization.CaptionAsWritten` | main.js:688 | the lookup as written succeeds exactly when the language is an own key of the dictionary or an inherited `Object.prototype` name, and then agrees with `Caption` |
| `Localization.UnknownStoredLanguageBreaksCaption` | main.js:482-492 | a stored code that is neither a dictionary key nor an inherited name becomes the language, and the lookup as written then throws |
| `Localization.InheritedNameCaptionsAreIds` | main.js:492-514 | for an inherited name such as "toString" the lookup does not throw: there are no entries, and every caption is the gallery id |
| `Localization.GermanPreferenceBreaksSunCaption` | main.js:632 | concretely, a saved "de" makes the caption lookup for `sun` throw |
| `Localization.SavedLanguage` | main.js:482 | the starting language is the stored code, or "hu" when nothing or an empty string is stored |
| `Localization.ApplyTranslations` | main.js:493-498 | every element whose id has an entry shows that entry; every other element keeps its content |
| `Localization.RenderedIdempotent` | main.js:493-498 | rendering the same language twice shows what rendering it once shows |
| `Localization.RenderedSwitch` | main.js:493-498 | switching to a language whose dictionary covers the first one's keys leaves no trace of the first |
| `Input.SwipeCalls` | main.js:586-596 | next exactly when `endX < startX - 50`, previous exactly when `endX > startX + 50`, neither within 50 pixels, never both |
| `Input.SwipeReversed` | main.js:586-596 | the reverse swipe asks for the opposite navigation |
| `Input.KeyDispatch` | main.js:254-268 | an arrow navigates exactly when the lightbox is open and clicks the gallery arrows exactly when it is closed; Escape closes exactly when it is open; Left is -1 and Right is +1; every other key is ignored |
| `Input.ArrowKeysAgree` | main.js:254-265 | an arrow key moves the lightbox when it is open and the galleries when it is closed, always in the same direction |
| `Search.LowerChar` | main.js:157 | lower-casing never turns white space into text or text into white space |
| `Search.Leading` | main.js:157 | counts exactly the leading white space |
| `Search.Trailing` | main.js:157 | counts exactly the trailing white space |
| `Search.Trim` | main.js:157 | the trimmed query is the middle part of the input, with white space only around it and none at its ends |
| `Search.Utf16Length` | main.js:163 | `length` counts between one and two code units per character |
| `Search.Utf16LengthIsCount` | main.js:163 | the code-unit length equals the character count exactly when no character is outside the Basic Multilingual Plane |
| `Search.ContainsIff` | main.js:179 | `includes` holds exactly when the query occurs at some position |
| `Search.SearchNodes` | main.js:169-175 | five sections are searched |
| `Search.MatchingMembers` | main.js:177-182 | a node is a match exactly when its section exists and its lower-cased text contains the query |
| `Search.MatchingConcat` | main.js:177-182 | matches keep the node order |
| `Search.HandleSearchInput` | main.js:156-198 | a query shorter than 2 UTF-16 code units closes the results; otherwise the results list the matches in order, or the no-match message when there are none |
| `Search.EmojiQueryIsSearched` | main.js:157-166 | a one-emoji query is two code units long and is searched |
| `Site.FadeKeepsSources` | main.js:671 | dimming changes no thumbnail source |
| `Site.CommitShowsWindow` | main.js:681-690 | after a commit, slot `j` shows `images[(cursor + j) % n]` at full opacity, with the gallery's caption |
| `Site.OutcomeCounts` | main.js:677-679 | loads and failures together are the preloads that settled, and the loads equal them only when every preload loaded |
| `Site.Page.constructor` | main.js:481-484 | the page starts with the catalog's galleries and a closed lightbox with no session. The saved language is applied: stored, its control highlighted, the text rendered and the captions refreshed, or the text left as it was for an unknown code |
| `Site.Page.SetLanguage` | main.js:486-505 | always records and stores the code and highlights its control; a code that is not `Defined` changes no text; otherwise its entries are rendered and the captions and an open lightbox refreshed |
| `Site.Page.UpdateVisibleGalleryCaptions` | main.js:507-526 | every displayed gallery's captions show its caption in the current language, and an open lightbox is refreshed |
| `Site.Page.Rotate` | main.js:650-671 | an unknown or undisplayed gallery is left alone; otherwise the cursor steps at once, the thumbnails dim, and a batch preloads the window at the new cursor |
| `Site.Page.ShowRotation` | main.js:681-690 | the commit shows the window at the live cursor |
| `Site.Page.OnPreloadLoaded` | main.js:677-692 | only an unsettled preload loads; the counter goes up by one, and the view commits exactly when the counter reaches the number of preloads |
| `Site.Page.OnPreloadFailed` | main.js:674-694 | a failed preload changes nothing on the page, and afterwards the batch can no longer reach its full count |
| `Site.Page.DeliverPreloads` | main.js:674-694 | after a run of outcomes, the loads and the failures have grown by their counts; the view commits exactly when the run loads the last preload; a batch with a failure never commits |
| `Site.Page.UpdateLightboxContent` | main.js:608-639 | sets the loading flag, requests the current image, sets the caption and prefetches the next index |
| `Site.Page.OpenLightbox` | main.js:599-606 | an unknown gallery changes nothing; otherwise the lightbox opens on that gallery, at the given index or else at its cursor |
| `Site.Page.OpenFromThumbnail` | main.js:551-565 | a click on row position `r` opens index `(cursor + r) % n` of that gallery |
| `Site.Page.NavigateLightbox` | main.js:641-645 | the index steps around the same gallery and the content is refreshed |
| `Site.Page.CloseLightbox` | main.js:568-569 | closing hides the modal and keeps the session |
| `Site.Page.OnLightboxLoaded` | main.js:619-622 | a finished load shows its own path and clears the loading flag |
| `Site.Page.OnLightboxFailed` | main.js:623-626 | a failed load clears the loading flag and leaves the image as it was |
| `Site.Page.HandleSwipe` | main.js:573-596 | does exactly the navigation `SwipeCalls` names, or nothing |
| `Site.Page.HandleKey` | main.js:249-270 | does what `KeyDispatch` says: navigates an open lightbox, or closes it leaving every other lightbox field as it was; otherwise changes nothing |

## Findings

| source | as written | input that shows it | evidently intended | confidence | as-written member | corrected member |
|---|---|---|---|---|---|---|
| main.js:487-492, 632, 688 | `translations[lang]['gal-'+id] \|\| id` reads a property of `undefined` when `lang` is neither a dictionary key nor an inherited `Object.prototype` name. `setLanguage` makes any stored code the current language before it checks the dictionary. | `localStorage['merkaba-lang'] = 'de'`, then a thumbnail click: `updateLightboxContent` throws before `openLightbox` displays the modal. A rotation's commit throws after updating slot 0. | fall back to the gallery id, as the `\|\| id` suggests | medium, not executed | `Localization.CaptionAsWritten`, `Localization.UnknownStoredLanguageBreaksCaption` | `Localization.Caption` |

## Left out

- The audio player (main.js:40-95): the media API and the autoplay promise.
- The Leaflet map (main.js:273-363), including `updateMapLanguage` when the language changes (main.js:501). It is a foreign library with float coordinates.
- Smooth scrolling and `scrollToId` (main.js:5-24, 221-246): float pixel offsets and the window API.
- The mobile menu and the impressum toggle (main.js:98-145, 711-716). They only flip DOM classes.
- `preloadInitialGalleryImages` (main.js:700-709): fire-and-forget loads with no observable result.
- The search box's trigger button and click-outside close (main.js:205-218), and the HTML of the result list. The model returns the matches and the message instead.
- The literal translation strings. The dictionary is a parameter.
- `console.error` on a failed lightbox load (main.js:625).
- The `if (!element) return` guards on missing DOM elements. The lightbox image, the caption and the results elements are taken to exist. A missing `<id>-gallery` element is modelled as a gallery without a view.
- Several elements sharing one id are one entry of `texts`.
- Touch coordinates are integers here, while `screenX` is a double.
- The asynchrony itself. Each `onload`/`onerror` is a method call the environment makes later, for a load that has not settled yet.
- Site.Page.HandleKey: with the lightbox closed, an arrow key makes the page click every `.gallery-arrow` button. The model returns that action and does not perform it, because the buttons' click handlers are in the HTML, which is not part of this model.
- Circular.ThumbnailShowsWindowSlot: assumes each gallery's thumbnails sit in a single `.polaroids-row`. main.js:559-560 number a click within its row, while main.js:657-682 number the slots across the whole gallery element, so with two rows the click and the slot disagree. The page layout is not part of this model.
- Search.HandleSearchInput: `includes` is matched on characters, not on UTF-16 code units. The two agree because a Dafny string holds no lone surrogates.
- Search.LowerChar: lower-cases only A-Z, the Latin-1 capitals and the Hungarian Ő and Ű. Full Unicode case mapping is not modelled.
- Localization.Caption: this is the corrected lookup, and the rest of the model uses it. For a language missing from the dictionary, the code as written throws instead (see Findings).
