/**
 * The project cards of components/recent-projects.tsx: each card names at
 * most three of the project's icons and counts the rest in a "+k more" badge.
 */
module RecentProjects {
  import opened Common
  import opened Text
  import opened TechIcons

  /** `techStackMap` of the cards: icon path to tech name. */
  const CardNames: Entries := [
    ("/re.svg", "React"),
    ("/next.svg", "Next.js"),
    ("/tail.svg", "Tailwind"),
    ("/ts.svg", "TypeScript"),
    ("/three.svg", "Three.js"),
    ("/fm.svg", "Framer"),
    ("/c.svg", "C++"),
    ("/stream.svg", "Stream API"),
    ("/gsap.svg", "GSAP"),
    ("/aem.svg", "AEM"),
    ("/ai.svg", "AI/ML"),
    ("/restfulapi.svg", "RESTful API"),
    ("/genai.svg", "GenAI")
  ]

  /** `MAX_TECH_DISPLAY`. */
  const MaxTechDisplay: nat := 3

  /** `getTechName`: the mapped name, or the path without its first `/` and its first `.svg`. */
  function GetTechName(icon: string): (r: string)
    ensures Lookup(CardNames, icon).Some? ==> r == Lookup(CardNames, icon).value
    ensures Lookup(CardNames, icon).None? ==> r == RemoveFirst(RemoveFirst(icon, "/"), ".svg")
  {
    var mapped := Lookup(CardNames, icon);
    if mapped.Some? && mapped.value != "" then mapped.value
    else
      // every name of the card's map is non-empty, so only an unknown path falls through
      CardNamesNonEmpty();
      assert mapped.None?;
      RemoveFirst(RemoveFirst(icon, "/"), ".svg")
  }

  /** Every name of the card's map is non-empty. */
  lemma CardNamesNonEmpty()
    ensures forall i :: 0 <= i < |CardNames| ==> CardNames[i].1 != ""
  {
  }

  /** `iconLists.slice(0, MAX_TECH_DISPLAY)`: the first icons, at most three. */
  function ShownIcons(icons: seq<string>): (r: seq<string>)
    ensures |r| == if |icons| < MaxTechDisplay then |icons| else MaxTechDisplay
    ensures r == icons[..|r|]
  {
    if |icons| <= MaxTechDisplay then icons else icons[..MaxTechDisplay]
  }

  /** The names on a card, in list order. */
  function ShownNames(icons: seq<string>): (r: seq<string>)
    ensures |r| == |ShownIcons(icons)|
    ensures forall i :: 0 <= i < |r| ==> r[i] == GetTechName(icons[i])
  {
    var shown := ShownIcons(icons);
    seq(|shown|, i requires 0 <= i < |shown| => GetTechName(shown[i]))
  }

  /** The "+k more" badge, when there is one. */
  function MoreBadge(icons: seq<string>): (r: Option<nat>)
    ensures r.Some? <==> |ShownIcons(icons)| < |icons|
    ensures r.Some? ==> r.value >= 1 && |ShownIcons(icons)| + r.value == |icons|
  {
    if |icons| > MaxTechDisplay then Some(|icons| - MaxTechDisplay) else None
  }

  /** The badge appears exactly when icons are hidden, and counts exactly the hidden ones. */
  lemma BadgeCountsHidden(icons: seq<string>)
    ensures MoreBadge(icons).Some? <==> |ShownIcons(icons)| < |icons|
    ensures var hidden := if MoreBadge(icons).Some? then MoreBadge(icons).value else 0;
            |ShownIcons(icons)| + hidden == |icons|
    ensures ShownIcons(icons) + icons[|ShownIcons(icons)|..] == icons
  {
  }

  /** The card's map holds the editor's pairs, reversed and in the same order, and two more. */
  lemma CardNamesExtendEditor()
    ensures |CardNames| == |EditorIcons| + 2
    ensures forall i :: 0 <= i < |EditorIcons| ==> CardNames[i] == (EditorIcons[i].1, EditorIcons[i].0)
    ensures CardNames[|EditorIcons|..] == [("/restfulapi.svg", "RESTful API"), ("/genai.svg", "GenAI")]
  {
  }

  /** Looking a path up in reversed pairs finds the first pair with that value. */
  lemma {:induction false} LookupReversed(m: Entries, extra: Entries, icon: string)
    ensures var reversed := seq(|m|, i requires 0 <= i < |m| => (m[i].1, m[i].0));
            KeyOf(m, icon).Some? ==> Lookup(reversed + extra, icon) == KeyOf(m, icon)
    ensures var reversed := seq(|m|, i requires 0 <= i < |m| => (m[i].1, m[i].0));
            KeyOf(m, icon).None? ==> Lookup(reversed + extra, icon) == Lookup(extra, icon)
  {
    var reversed := seq(|m|, i requires 0 <= i < |m| => (m[i].1, m[i].0));
    if m != [] {
      var tail := seq(|m| - 1, i requires 0 <= i < |m| - 1 => (m[1..][i].1, m[1..][i].0));
      assert (reversed + extra)[1..] == tail + extra;
      LookupReversed(m[1..], extra, icon);
    } else {
      assert reversed + extra == extra;
    }
  }

  /** The card's map is the editor's pairs reversed, followed by the two extra pairs. */
  lemma CardNamesReversed(extra: Entries)
    requires extra == [("/restfulapi.svg", "RESTful API"), ("/genai.svg", "GenAI")]
    ensures CardNames == seq(|EditorIcons|, i requires 0 <= i < |EditorIcons| => (EditorIcons[i].1, EditorIcons[i].0)) + extra
  {
    CardNamesExtendEditor();
  }

  /** Away from the two extra paths, the card's lookup finds the editor's key for a path. */
  lemma CardLookupAgrees(icon: string)
    requires icon != "/restfulapi.svg" && icon != "/genai.svg"
    ensures Lookup(CardNames, icon) == KeyOf(EditorIcons, icon)
  {
    var extra := [("/restfulapi.svg", "RESTful API"), ("/genai.svg", "GenAI")];
    CardNamesReversed(extra);
    LookupReversed(EditorIcons, extra, icon);
    assert Lookup(extra, icon).None?;
  }

  /**
   * A card names an icon as the projects editor does, except for the two
   * paths only the card's map knows.
   */
  lemma CardNameAgreesWithEditor(icon: string)
    requires icon != "/restfulapi.svg" && icon != "/genai.svg"
    ensures GetTechName(icon) == TechNameFor(icon)
  {
    CardLookupAgrees(icon);
    EditorKeysAreNames();
    if KeyOf(EditorIcons, icon).Some? {
      var k := KeyOf(EditorIcons, icon).value;
      var i :| 0 <= i < |EditorIcons| && EditorIcons[i] == (k, icon);
    }
  }

  /** The two names only the card's map knows are not keys of the editor's map. */
  lemma CardExtraUnmapped(n: string)
    requires n == "RESTful API" || n == "GenAI"
    ensures Lookup(EditorIcons, n).None?
  {
    assert forall i :: 0 <= i < |EditorIcons| ==> EditorIcons[i].0 != n;
  }

  /** "RESTful API" lowercased. */
  lemma LowerRestfulApi(n: string, l: string)
    requires n == "RESTful API" && l == "restful api"
    ensures Lower(n) == l
  {
    var r := Lower(n);
    assert r[0] == LowerChar('R') == 'r' && r[1] == LowerChar('E') == 'e';
    assert r[2] == LowerChar('S') == 's' && r[3] == LowerChar('T') == 't';
    assert r[4] == 'f' && r[5] == 'u' && r[6] == 'l' && r[7] == ' ';
    assert r[8] == LowerChar('A') == 'a' && r[9] == LowerChar('P') == 'p';
    assert r[10] == LowerChar('I') == 'i';
  }

  /** `restful api` is two runs of word characters around a space. */
  lemma SpacedWords(l: string, x: string, z: string)
    requires l == "restful api" && x == "restful" && z == "api"
    ensures l == x + [' '] + z && x + z == "restfulapi"
    ensures forall i :: 0 <= i < |x| ==> IsWordChar(x[i])
    ensures forall i :: 0 <= i < |z| ==> IsWordChar(z[i])
  {
  }

  /** "RESTful API" keeps `restfulapi` once lowercased and cleared of non-word characters. */
  lemma RestfulApiWord(n: string)
    requires n == "RESTful API"
    ensures KeepWordChars(Lower(n)) == "restfulapi"
  {
    LowerRestfulApi(n, "restful api");
    SpacedWords("restful api", "restful", "api");
    KeepWordCharsAround("restful", ' ', "api");
  }

  /** The two paths only the card knows, spelled as `/<word>.svg`. */
  lemma CardExtraPaths(w: string, p: string)
    requires (w == "restfulapi" && p == "/restfulapi.svg") || (w == "genai" && p == "/genai.svg")
    ensures "/" + w + ".svg" == p
  {
  }

  /** "RESTful API" typed into the editor becomes `/restfulapi.svg`. */
  lemma RestfulApiIcon(n: string)
    requires n == "RESTful API"
    ensures IconFor(n) == "/restfulapi.svg"
  {
    CardExtraUnmapped(n);
    UnmappedIcon(n);
    RestfulApiWord(n);
    CardExtraPaths(KeepWordChars(Lower(n)), "/restfulapi.svg");
  }

  /** "GenAI" keeps `genai` once lowercased and cleared of non-word characters. */
  lemma GenAiWord(n: string)
    requires n == "GenAI"
    ensures KeepWordChars(Lower(n)) == "genai"
  {
    var l := Lower(n);
    assert l[0] == LowerChar('G') == 'g' && l[1] == 'e' && l[2] == 'n';
    assert l[3] == LowerChar('A') == 'a' && l[4] == LowerChar('I') == 'i';
    assert forall i :: 0 <= i < |l| ==> IsWordChar(l[i]);
    KeepWordCharsOfWord(l);
    assert l == "genai";
  }

  /** "GenAI" typed into the editor becomes `/genai.svg`. */
  lemma GenAiIcon(n: string)
    requires n == "GenAI"
    ensures IconFor(n) == "/genai.svg"
  {
    CardExtraUnmapped(n);
    UnmappedIcon(n);
    GenAiWord(n);
    CardExtraPaths(KeepWordChars(Lower(n)), "/genai.svg");
  }

  /** The names the card shares with the editor convert back to their paths. */
  lemma SharedCardNamesConvertBack()
    ensures forall i :: 0 <= i < |EditorIcons| ==> IconFor(CardNames[i].1) == CardNames[i].0
  {
    CardNamesExtendEditor();
    forall i | 0 <= i < |EditorIcons| ensures IconFor(CardNames[i].1) == CardNames[i].0 {
      KeyMapsBack(i);
    }
  }

  /**
   * Every name a card shows, typed into the projects editor, converts back to
   * the path it was shown for.
   */
  lemma CardNamesConvertBack()
    ensures forall i :: 0 <= i < |CardNames| ==> IconFor(CardNames[i].1) == CardNames[i].0
  {
    SharedCardNamesConvertBack();
    CardNamesExtendEditor();
    forall i | |EditorIcons| <= i < |CardNames| ensures IconFor(CardNames[i].1) == CardNames[i].0 {
      if i == |EditorIcons| {
        RestfulApiIcon(CardNames[i].1);
      } else {
        GenAiIcon(CardNames[i].1);
      }
    }
  }
}
