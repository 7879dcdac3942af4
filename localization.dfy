/**
 * The language store: the `translations` dictionary (main.js:366-479), the
 * caption lookup with its fallback to the gallery id (main.js:514, 632, 688),
 * the rewriting of every tagged element (main.js:493-498) and the saved
 * preference read at start-up (main.js:2, 482).
 */
module Localization {
  import opened Wrappers

  /** Language code to (text key to display string). The literal strings are not part of this model. */
  type Dict = map<string, map<string, string>>

  /** The language used when nothing (or an empty string) is stored: `|| 'hu'`. */
  const DefaultLanguage: string := "hu"

  /** The key under which a gallery's caption is stored: `'gal-' + id`. */
  function CaptionKey(galleryId: string): string {
    "gal-" + galleryId
  }

  /** True when `dict` has a non-empty (that is, JavaScript-truthy) caption of `galleryId` in `lang`. */
  predicate HasCaption(dict: Dict, lang: string, galleryId: string) {
    lang in dict && CaptionKey(galleryId) in dict[lang] && dict[lang][CaptionKey(galleryId)] != ""
  }

  /**
   * The caption shown for a gallery: `translations[lang]['gal-' + id] || id`,
   * where a language missing from the dictionary falls back to the id as well.
   * (As written, main.js throws on a missing language: see CaptionAsWritten.)
   */
  function Caption(dict: Dict, lang: string, galleryId: string): (r: string)
    ensures HasCaption(dict, lang, galleryId) ==> r == dict[lang][CaptionKey(galleryId)]
    ensures !HasCaption(dict, lang, galleryId) ==> r == galleryId
    ensures r == "" ==> galleryId == ""
  {
    if HasCaption(dict, lang, galleryId) then dict[lang][CaptionKey(galleryId)] else galleryId
  }

  /**
   * The names every JavaScript object inherits from `Object.prototype`. For one
   * of these `translations[lang]` is not `undefined`: it is a function, or for
   * `__proto__` the prototype itself, and neither has an enumerable entry or a
   * `gal-` property.
   */
  const ObjectPrototypeNames: set<string> := {
    "constructor", "hasOwnProperty", "isPrototypeOf", "propertyIsEnumerable",
    "toLocaleString", "toString", "valueOf", "__proto__",
    "__defineGetter__", "__defineSetter__", "__lookupGetter__", "__lookupSetter__"
  }

  /** `translations[lang]` is truthy: an own language of the dictionary, or an inherited name. */
  predicate Defined(dict: Dict, lang: string) {
    lang in dict || lang in ObjectPrototypeNames
  }

  /** `Object.entries(translations[lang])` as a map, for a language that is `Defined`. */
  function Entries(dict: Dict, lang: string): map<string, string> {
    if lang in dict then dict[lang] else map[]
  }

  /**
   * The lookup exactly as main.js:514, 632 and 688 write it. `translations[lang]`
   * is `undefined` for a language that is not `Defined`, and reading a property
   * of `undefined` throws a TypeError: `None` stands for that exception. For an
   * inherited name the property `gal-<id>` is `undefined` and `|| id` applies.
   */
  function CaptionAsWritten(dict: Dict, lang: string, galleryId: string): (r: Option<string>)
    ensures r.Some? <==> Defined(dict, lang)
    ensures r.Some? ==> r.value == Caption(dict, lang, galleryId)
  {
    if !Defined(dict, lang) then None
    else
      var entries := Entries(dict, lang);
      var key := CaptionKey(galleryId);
      if key in entries && entries[key] != "" then Some(entries[key]) else Some(galleryId)
  }

  /** The language the page starts in: `localStorage.getItem('merkaba-lang') || 'hu'`. */
  function SavedLanguage(saved: Option<string>): (lang: string)
    ensures lang != ""
    ensures saved.Some? && saved.value != "" ==> lang == saved.value
    ensures saved.None? || saved.value == "" ==> lang == DefaultLanguage
  {
    match saved
    case Some(s) => if s != "" then s else DefaultLanguage
    case None => DefaultLanguage
  }

  /**
   * The discrepancy: setLanguage records any code (main.js:487-488) before it
   * checks the dictionary (main.js:492), so a stored code that is not `Defined`
   * becomes the current language, and every later caption lookup throws instead
   * of falling back to the gallery id.
   */
  lemma UnknownStoredLanguageBreaksCaption(dict: Dict, stored: string, galleryId: string)
    requires stored != "" && !Defined(dict, stored)
    ensures CaptionAsWritten(dict, SavedLanguage(Some(stored)), galleryId) == None
    ensures Caption(dict, SavedLanguage(Some(stored)), galleryId) == galleryId
  {
  }

  /** A concrete case: a preference "de" survives start-up and breaks the lookup for gallery "sun". */
  lemma GermanPreferenceBreaksSunCaption()
    ensures CaptionAsWritten(map["hu" := map[], "en" := map[]], SavedLanguage(Some("de")), "sun") == None
  {
    UnknownStoredLanguageBreaksCaption(map["hu" := map[], "en" := map[]], "de", "sun");
  }

  /** An inherited name such as "toString" does not throw: every caption becomes its gallery id. */
  lemma InheritedNameCaptionsAreIds(dict: Dict, lang: string, galleryId: string)
    requires lang in ObjectPrototypeNames && lang !in dict
    ensures CaptionAsWritten(dict, lang, galleryId) == Some(galleryId)
    ensures Entries(dict, lang) == map[]
  {
  }

  // ---------------------------------------------------------------------
  // Rewriting the tagged elements

  /**
   * The page's tagged text, element id to content, after every element whose id
   * is a key of `entries` has been given that entry's text (main.js:493-498).
   * Ids of the dictionary that no element carries change nothing.
   */
  ghost function Rendered(texts: map<string, string>, entries: map<string, string>): map<string, string> {
    map id | id in texts :: if id in entries then entries[id] else texts[id]
  }

  /** The loop of setLanguage over `Object.entries(translations[lang])`. */
  method ApplyTranslations(texts: map<string, string>, entries: map<string, string>)
    returns (r: map<string, string>)
    ensures r.Keys == texts.Keys
    ensures forall id :: id in texts && id in entries ==> r[id] == entries[id]
    ensures forall id :: id in texts && id !in entries ==> r[id] == texts[id]
    ensures r == Rendered(texts, entries)
  {
    r := texts;
    var todo := entries.Keys;
    while todo != {}
      invariant todo <= entries.Keys
      invariant r.Keys == texts.Keys
      invariant forall id :: id in texts ==> r[id] == if id in entries && id !in todo then entries[id] else texts[id]
      decreases todo
    {
      var id :| id in todo;
      if id in r {
        r := r[id := entries[id]];
      }
      todo := todo - {id};
    }
  }

  /** A language that is not an own key of the dictionary, such as an inherited name, rewrites no text. */
  lemma InheritedNameRendersNothing(dict: Dict, lang: string, texts: map<string, string>)
    requires lang !in dict
    ensures Rendered(texts, Entries(dict, lang)) == texts
  {
  }

  /** Rendering a language twice shows the same text as rendering it once. */
  lemma RenderedIdempotent(texts: map<string, string>, entries: map<string, string>)
    ensures Rendered(Rendered(texts, entries), entries) == Rendered(texts, entries)
  {
  }

  /**
   * Switching to a second language whose dictionary covers every key of the
   * first leaves no trace of the first: hu, then en, then hu shows hu again.
   */
  lemma RenderedSwitch(texts: map<string, string>, first: map<string, string>, second: map<string, string>)
    requires first.Keys <= second.Keys
    ensures Rendered(Rendered(texts, first), second) == Rendered(texts, second)
  {
  }
}
