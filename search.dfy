/**
 * The in-page search of initGlobalSearch (handleSearchInput, main.js:156-198):
 * the query is lower-cased and trimmed, a query shorter than two UTF-16 code
 * units closes the results, and otherwise the results are the sections, in the
 * fixed order of `searchNodes`, whose text contains the query.
 */
module Search {

  /** The code points String.prototype.trim removes: ECMAScript WhiteSpace and LineTerminator. */
  predicate IsSpace(c: char) {
    || c == '\t' || c == '\n' || c == '\U{000B}' || c == '\U{000C}' || c == '\r' || c == ' '
    || c == '\U{00A0}' || c == '\U{1680}' || ('\U{2000}' <= c <= '\U{200A}')
    || c == '\U{2028}' || c == '\U{2029}' || c == '\U{202F}' || c == '\U{205F}'
    || c == '\U{3000}' || c == '\U{FEFF}'
  }

  /**
   * toLowerCase on one character, for the letters this site's text uses:
   * A-Z, the Latin-1 capitals (U+00C0-U+00DE but U+00D7) and the Hungarian
   * double-acute capitals U+0150 and U+0170.
   */
  function LowerChar(c: char): (l: char)
    ensures IsSpace(l) <==> IsSpace(c)
  {
    if 'A' <= c <= 'Z' || ('\U{00C0}' <= c <= '\U{00DE}' && c != '\U{00D7}') then (c as int + 32) as char
    else if c == '\U{0150}' || c == '\U{0170}' then (c as int + 1) as char
    else c
  }

  function Lower(s: string): string {
    seq(|s|, i requires 0 <= i < |s| => LowerChar(s[i]))
  }

  /** The number of leading white-space characters. */
  function Leading(s: string): (k: nat)
    ensures k <= |s|
    ensures forall i :: 0 <= i < k ==> IsSpace(s[i])
    ensures k < |s| ==> !IsSpace(s[k])
  {
    if s != [] && IsSpace(s[0]) then 1 + Leading(s[1..]) else 0
  }

  /** The number of trailing white-space characters. */
  function Trailing(s: string): (k: nat)
    ensures k <= |s|
    ensures forall i :: |s| - k <= i < |s| ==> IsSpace(s[i])
    ensures k < |s| ==> !IsSpace(s[|s| - 1 - k])
  {
    if s != [] && IsSpace(s[|s| - 1]) then 1 + Trailing(s[..|s| - 1]) else 0
  }

  /** String.prototype.trim: the longest middle part of `s` that neither starts nor ends with white space. */
  function Trim(s: string): (r: string)
    ensures Leading(s) + |r| <= |s| && r == s[Leading(s)..Leading(s) + |r|]
    ensures forall k :: Leading(s) + |r| <= k < |s| ==> IsSpace(s[k])
    ensures r != [] ==> !IsSpace(r[0]) && !IsSpace(r[|r| - 1])
  {
    var t := s[Leading(s)..];
    t[..|t| - Trailing(t)]
  }

  /** The query as handleSearchInput reads it: `value.toLowerCase().trim()`. */
  function Normalize(value: string): string {
    Trim(Lower(value))
  }

  /** String.prototype.includes. */
  predicate Contains(text: string, q: string) {
    |q| <= |text| && (text[..|q|] == q || (text != [] && Contains(text[1..], q)))
  }

  /** The query occurs in the text starting at position `i`. */
  predicate OccursAt(text: string, q: string, i: int) {
    0 <= i && i + |q| <= |text| && text[i..i + |q|] == q
  }

  /** `includes` holds exactly when the query occurs at some position of the text. */
  lemma {:induction false} ContainsIff(text: string, q: string)
    ensures Contains(text, q) <==> exists i :: OccursAt(text, q, i)
  {
    if text == [] {
      if Contains(text, q) { assert OccursAt(text, q, 0); }
    } else if |q| <= |text| {
      ContainsIff(text[1..], q);
      if Contains(text, q) {
        if text[..|q|] == q {
          assert OccursAt(text, q, 0);
        } else {
          var i :| OccursAt(text[1..], q, i);
          var here, there := text[1..][i..i + |q|], text[i + 1..i + 1 + |q|];
          assert forall k :: 0 <= k < |q| ==> here[k] == there[k];
          assert here == there;
          assert OccursAt(text, q, i + 1);
        }
      } else {
        forall i | OccursAt(text, q, i)
          ensures false
        {
          if i > 0 {
            var here, there := text[1..][i - 1..i - 1 + |q|], text[i..i + |q|];
            assert forall k :: 0 <= k < |q| ==> here[k] == there[k];
            assert OccursAt(text[1..], q, i - 1);
          }
        }
      }
    }
  }

  /** One entry of `searchNodes`: the id of a page section and the title listed for it. */
  datatype SearchNode = SearchNode(id: string, title: string)

  /** The sections searched, in order, titled in Hungarian when the language is "hu" and in English otherwise. */
  function SearchNodes(lang: string): (nodes: seq<SearchNode>)
    ensures |nodes| == 5
  {
    var hu := lang == "hu";
    [ SearchNode("about", if hu then "Rólunk" else "About Us"),
      SearchNode("summer-section", if hu then "Nyári Galéria" else "Summer Gallery"),
      SearchNode("winter-section", if hu then "Téli Galéria" else "Winter Gallery"),
      SearchNode("contact", if hu then "Kapcsolat" else "Contact Us"),
      SearchNode("menu", if hu then "Menü" else "Menu") ]
  }

  /** The message shown when no section matches. */
  function NoMatchText(lang: string): string {
    if lang == "hu" then "Nincs találat..." else "No results..."
  }

  /** The shortest query that is searched at all, in UTF-16 code units. */
  const MinQueryLength: nat := 2

  /** Whether a character lies outside the Basic Multilingual Plane, where UTF-16 needs a surrogate pair for it. */
  predicate Astral(c: char) {
    c as int > 0xFFFF
  }

  /** JavaScript's `length`: UTF-16 code units, two for an astral character and one for any other. */
  function Utf16Length(s: string): (n: nat)
    ensures |s| <= n <= 2 * |s|
  {
    if s == [] then 0 else Utf16Length(s[..|s| - 1]) + (if Astral(s[|s| - 1]) then 2 else 1)
  }

  /** The JavaScript length agrees with the character count exactly when no character is astral. */
  lemma {:induction false} Utf16LengthIsCount(s: string)
    ensures Utf16Length(s) == |s| <==> forall i :: 0 <= i < |s| ==> !Astral(s[i])
  {
    if s != [] {
      var init := s[..|s| - 1];
      Utf16LengthIsCount(init);
      assert forall i :: 0 <= i < |init| ==> init[i] == s[i];
    }
  }

  /**
   * A section matches when its element exists (`sectionText` maps element ids
   * to their innerText) and its lower-cased text contains the query.
   */
  predicate Hit(node: SearchNode, sectionText: map<string, string>, q: string) {
    node.id in sectionText && Contains(Lower(sectionText[node.id]), q)
  }

  /** The matching nodes, in the order of `nodes`. */
  function Matching(nodes: seq<SearchNode>, sectionText: map<string, string>, q: string): seq<SearchNode> {
    if nodes == [] then []
    else
      var last := nodes[|nodes| - 1];
      Matching(nodes[..|nodes| - 1], sectionText, q) + (if Hit(last, sectionText, q) then [last] else [])
  }

  /** The matches are exactly the nodes that hit. */
  lemma {:induction false} MatchingMembers(nodes: seq<SearchNode>, sectionText: map<string, string>, q: string)
    ensures forall n :: n in Matching(nodes, sectionText, q) <==> n in nodes && Hit(n, sectionText, q)
  {
    if nodes != [] {
      var init := nodes[..|nodes| - 1];
      MatchingMembers(init, sectionText, q);
      assert nodes == init + [nodes[|nodes| - 1]];
    }
  }

  /** The matches keep the nodes' order: matching a concatenation concatenates the matches. */
  lemma {:induction false} MatchingConcat(a: seq<SearchNode>, b: seq<SearchNode>, sectionText: map<string, string>, q: string)
    ensures Matching(a + b, sectionText, q) == Matching(a, sectionText, q) + Matching(b, sectionText, q)
  {
    if b == [] {
      assert a + b == a;
    } else {
      var init := b[..|b| - 1];
      MatchingConcat(a, init, sectionText, q);
      assert (a + b)[..|a + b| - 1] == a + init;
    }
  }

  /** What handleSearchInput leaves on screen. */
  datatype SearchOutcome =
    | Closed                             // the results dropdown loses its 'open' class
    | Listed(matches: seq<SearchNode>)   // one list item per match
    | NoResults(message: string)         // the dropdown opens with the no-match message

  /** handleSearchInput, from the input's value to the dropdown it shows. */
  method HandleSearchInput(value: string, lang: string, sectionText: map<string, string>)
    returns (out: SearchOutcome)
    ensures out.Closed? <==> Utf16Length(Normalize(value)) < MinQueryLength
    ensures !out.Closed? ==>
      var m := Matching(SearchNodes(lang), sectionText, Normalize(value));
      out == if m == [] then NoResults(NoMatchText(lang)) else Listed(m)
  {
    var query := Normalize(value);
    if Utf16Length(query) < MinQueryLength {
      return Closed;
    }
    var nodes := SearchNodes(lang);
    var matches: seq<SearchNode> := [];
    var i := 0;
    while i < |nodes|
      invariant 0 <= i <= |nodes|
      invariant matches == Matching(nodes[..i], sectionText, query)
    {
      var node := nodes[i];
      if node.id in sectionText && Contains(Lower(sectionText[node.id]), query) {
        matches := matches + [node];
      }
      assert nodes[..i + 1][..i] == nodes[..i];
      i := i + 1;
    }
    assert nodes[..i] == nodes;
    if |matches| > 0 {
      out := Listed(matches);
    } else {
      out := NoResults(NoMatchText(lang));
    }
  }

  /** A query of one letter surrounded by spaces is too short: trimming comes before the length test. */
  lemma ShortQueryExample()
    ensures Utf16Length(Normalize("  K ")) < MinQueryLength
  {
    assert Lower("  K ") == "  k ";
    assert Leading("  k ") == 2;
    assert Trailing("k ") == 1;
    assert Normalize("  K ") == "k";
  }

  /** A single emoji is two code units long, so it is searched rather than closing the results. */
  lemma EmojiQueryIsSearched()
    ensures !(Utf16Length(Normalize("\U{1F600}")) < MinQueryLength)
  {
    assert Lower("\U{1F600}") == "\U{1F600}";
    assert Leading("\U{1F600}") == 0;
    assert Trailing("\U{1F600}") == 0;
    assert Normalize("\U{1F600}") == "\U{1F600}";
  }
}
