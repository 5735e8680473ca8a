/**
 * The projects editor's conversion between the comma-separated tech names an
 * admin types and the icon paths a project stores
 * (app/admin/edit/projects/page.tsx).
 */
module TechIcons {
  import opened Common
  import opened Text

  /** A string-keyed record, as its entries in declaration order. */
  type Entries = seq<(string, string)>

  /** `techStackMap` of the projects editor: tech name to icon path. */
  const EditorIcons: Entries := [
    ("React", "/re.svg"),
    ("Next.js", "/next.svg"),
    ("Tailwind", "/tail.svg"),
    ("TypeScript", "/ts.svg"),
    ("Three.js", "/three.svg"),
    ("Framer", "/fm.svg"),
    ("C++", "/c.svg"),
    ("Stream API", "/stream.svg"),
    ("GSAP", "/gsap.svg"),
    ("AEM", "/aem.svg"),
    ("AI/ML", "/ai.svg")
  ]

  /** `m[key]`: the value of the entry with that key, if any. */
  function Lookup(m: Entries, key: string): (r: Option<string>)
    ensures r.None? <==> forall i :: 0 <= i < |m| ==> m[i].0 != key
    ensures r.Some? ==> exists i :: 0 <= i < |m| && m[i] == (key, r.value)
  {
    if m == [] then None
    else if m[0].0 == key then Some(m[0].1)
    else
      var r := Lookup(m[1..], key);
      assert forall i :: 1 <= i < |m| ==> m[i] == m[1..][i - 1];
      r
  }

  /** The key of the first entry, in `Object.entries` order, whose value is `value`. */
  function KeyOf(m: Entries, value: string): (r: Option<string>)
    ensures r.None? <==> forall i :: 0 <= i < |m| ==> m[i].1 != value
    ensures r.Some? ==> exists i :: 0 <= i < |m| && m[i] == (r.value, value)
  {
    if m == [] then None
    else if m[0].1 == value then Some(m[0].0)
    else
      var r := KeyOf(m[1..], value);
      assert forall i :: 1 <= i < |m| ==> m[i] == m[1..][i - 1];
      r
  }

  /** `techStackMap[name] || "/" + name.toLowerCase().replace(/[^\w]/g, '') + ".svg"`. */
  function IconFor(name: string): (r: string)
    ensures Lookup(EditorIcons, name).Some? ==> r == Lookup(EditorIcons, name).value
    ensures Lookup(EditorIcons, name).None? ==>
              |r| >= 5 && r[0] == '/' && r[|r| - 4..] == ".svg"
              && forall i :: 1 <= i < |r| - 4 ==> IsWordChar(r[i])
  {
    var mapped := Lookup(EditorIcons, name);
    if mapped.Some? && mapped.value != "" then mapped.value
    else
      // every mapped path is non-empty, so only a name missing from the map falls through
      EditorPathsAreSvg();
      assert mapped.None?;
      var w := KeepWordChars(Lower(name));
      var r := "/" + w + ".svg";
      assert forall i :: 1 <= i < |r| - 4 ==> r[i] == w[i - 1];
      r
  }

  /** `parts.map(t => t.trim())`. */
  function TrimAll(parts: seq<string>): (r: seq<string>)
    ensures |r| == |parts|
    ensures forall i :: 0 <= i < |r| ==> r[i] == Trim(parts[i])
  {
    if parts == [] then [] else [Trim(parts[0])] + TrimAll(parts[1..])
  }

  /** `parts.filter(name => name !== '')`: order and duplicates are kept. */
  function DropEmpty(parts: seq<string>): (r: seq<string>)
    ensures forall i :: 0 <= i < |r| ==> r[i] != ""
    ensures forall x :: x != "" ==> multiset(r)[x] == multiset(parts)[x]
    ensures (forall i :: 0 <= i < |parts| ==> parts[i] != "") ==> r == parts
  {
    if parts == [] then []
    else
      assert parts == [parts[0]] + parts[1..];
      if parts[0] == "" then DropEmpty(parts[1..]) else [parts[0]] + DropEmpty(parts[1..])
  }

  /** Filtering a concatenation filters each part: the kept names stay in their order. */
  lemma {:induction false} DropEmptyAppend(a: seq<string>, b: seq<string>)
    ensures DropEmpty(a + b) == DropEmpty(a) + DropEmpty(b)
  {
    if a == [] {
      assert a + b == b;
    } else if a[0] == "" {
      calc {
        DropEmpty(a + b);
        { assert (a + b)[0] == "" && (a + b)[1..] == a[1..] + b; }
        DropEmpty(a[1..] + b);
        { DropEmptyAppend(a[1..], b); }
        DropEmpty(a[1..]) + DropEmpty(b);
      }
    } else {
      calc {
        DropEmpty(a + b);
        { assert (a + b)[0] == a[0] && (a + b)[1..] == a[1..] + b; }
        [a[0]] + DropEmpty(a[1..] + b);
        { DropEmptyAppend(a[1..], b); }
        [a[0]] + (DropEmpty(a[1..]) + DropEmpty(b));
        [a[0]] + DropEmpty(a[1..]) + DropEmpty(b);
      }
    }
  }

  /** One name is kept exactly when it is not empty. */
  lemma DropEmptySingle(x: string)
    ensures DropEmpty([x]) == if x == "" then [] else [x]
  {
    assert [x][1..] == [];
  }

  /** The names typed in the tech-stack field: split at commas, trimmed, empty ones dropped. */
  function TechNames(text: string): seq<string> {
    DropEmpty(TrimAll(Split(text, ',')))
  }

  /** `convertTechNamesToIcons`: one icon per non-empty trimmed name, in order. */
  function ConvertTechNamesToIcons(text: string): (r: seq<string>)
    ensures |r| == |TechNames(text)|
    ensures forall i :: 0 <= i < |r| ==> r[i] == IconFor(TechNames(text)[i])
  {
    var names := TechNames(text);
    seq(|names|, i requires 0 <= i < |names| => IconFor(names[i]))
  }

  /** The edit-time reverse mapping: the map key for a known path, else the path without its first `/` and first `.svg`. */
  function TechNameFor(icon: string): (r: string)
    ensures KeyOf(EditorIcons, icon).Some? ==> r == KeyOf(EditorIcons, icon).value
    ensures KeyOf(EditorIcons, icon).None? ==> r == RemoveFirst(RemoveFirst(icon, "/"), ".svg")
  {
    match KeyOf(EditorIcons, icon)
    case Some(name) => name
    case None => RemoveFirst(RemoveFirst(icon, "/"), ".svg")
  }

  function TechNameList(icons: seq<string>): (r: seq<string>)
    ensures |r| == |icons|
    ensures forall i :: 0 <= i < |r| ==> r[i] == TechNameFor(icons[i])
  {
    seq(|icons|, i requires 0 <= i < |icons| => TechNameFor(icons[i]))
  }

  /** The text put in the tech-stack field when a project is opened for editing. */
  function TechNamesText(icons: seq<string>): string {
    Join(TechNameList(icons), ", ")
  }

  /** A name an unmapped icon can come from without change: non-empty, `\w` characters, no capitals. */
  predicate IsCustomName(w: string) {
    w != [] && forall i :: 0 <= i < |w| ==> IsWordChar(w[i]) && !('A' <= w[i] <= 'Z')
  }

  /** An icon path the editor itself produces: a mapped path, or `/<custom name>.svg`. */
  predicate Canonical(icon: string) {
    || (exists i :: 0 <= i < |EditorIcons| && EditorIcons[i].1 == icon)
    || (|icon| >= 5 && icon[0] == '/' && icon[|icon| - 4..] == ".svg" && IsCustomName(icon[1..|icon| - 4]))
  }

  /** Every key of the map is a usable name: non-empty, trimmed, without a comma, starting with a capital. */
  lemma EditorKeysAreNames()
    ensures forall i :: 0 <= i < |EditorIcons| ==>
              var k := EditorIcons[i].0;
              k != "" && 'A' <= k[0] <= 'Z' && ',' !in k && IsTrimmed(k)
  {
  }

  /** No two entries of the map share a key. */
  lemma EditorKeysDistinct()
    ensures forall i, j :: 0 <= i < j < |EditorIcons| ==> EditorIcons[i].0 != EditorIcons[j].0
  {
  }

  /** A mapped icon's name maps back to it. */
  lemma KeyMapsBack(i: nat)
    requires i < |EditorIcons|
    ensures Lookup(EditorIcons, EditorIcons[i].0) == Some(EditorIcons[i].1)
  {
    EditorKeysDistinct();
  }

  /** A name that does not start with a capital is not a key of the map, because every key does. */
  lemma UncapitalisedUnmapped(w: string)
    requires w != [] && !('A' <= w[0] <= 'Z')
    ensures Lookup(EditorIcons, w).None?
  {
    EditorKeysAreNames();
  }

  lemma LowerOfUncapitalised(w: string)
    requires forall i :: 0 <= i < |w| ==> !('A' <= w[i] <= 'Z')
    ensures Lower(w) == w
  {
  }

  /** A mapped icon is shown as its key, which maps back to it. */
  lemma MappedNameRoundTrip(icon: string)
    requires KeyOf(EditorIcons, icon).Some?
    ensures var n := TechNameFor(icon);
            n != "" && ',' !in n && IsTrimmed(n) && IconFor(n) == icon
  {
    var key := KeyOf(EditorIcons, icon).value;
    var i :| 0 <= i < |EditorIcons| && EditorIcons[i] == (key, icon);
    EditorKeysAreNames();
    KeyMapsBack(i);
  }

  /** `/<w>.svg` loses its first `/` and its first `.svg` and becomes `w`. */
  lemma CustomIconName(w: string)
    requires IsCustomName(w)
    ensures RemoveFirst(RemoveFirst("/" + w + ".svg", "/"), ".svg") == w
  {
    RemoveFirstAtStart("/", w + ".svg");
    assert "/" + (w + ".svg") == "/" + w + ".svg";
    assert '.' !in w by {
      forall k | 0 <= k < |w| ensures w[k] != '.' {
        assert IsWordChar(w[k]);
      }
    }
    RemoveFirstAtEnd(w, ".svg");
  }

  /** A custom name is a single clean name. */
  lemma CustomNameIsClean(w: string)
    requires IsCustomName(w)
    ensures ',' !in w && IsTrimmed(w)
  {
    assert ',' !in w by {
      forall k | 0 <= k < |w| ensures w[k] != ',' {
        assert IsWordChar(w[k]);
      }
    }
    assert IsWordChar(w[0]) && IsWordChar(w[|w| - 1]);
  }

  /** A custom name converts to `/<name>.svg`. */
  lemma CustomNameIcon(w: string)
    requires IsCustomName(w)
    ensures IconFor(w) == "/" + w + ".svg"
  {
    UncapitalisedUnmapped(w);
    LowerOfUncapitalised(w);
    KeepWordCharsOfWord(w);
  }

  /** A path `/<w>.svg` is made of its three parts. */
  lemma IconPathParts(icon: string)
    requires |icon| >= 5 && icon[0] == '/' && icon[|icon| - 4..] == ".svg"
    ensures icon == "/" + icon[1..|icon| - 4] + ".svg"
  {
    var w := icon[1..|icon| - 4];
    assert icon == icon[..1] + w + icon[|icon| - 4..];
  }

  /** The name shown for a canonical icon is a single clean name that converts back to the icon. */
  lemma NameRoundTrip(icon: string)
    requires Canonical(icon)
    ensures var n := TechNameFor(icon);
            n != "" && ',' !in n && IsTrimmed(n) && IconFor(n) == icon
  {
    if KeyOf(EditorIcons, icon).Some? {
      MappedNameRoundTrip(icon);
    } else {
      var w := icon[1..|icon| - 4];
      IconPathParts(icon);
      CustomIconName(w);
      CustomNameIsClean(w);
      CustomNameIcon(w);
    }
  }

  /** Splitting names joined by `", "` at the commas leaves a space in front of every name but the first. */
  lemma {:induction false} SplitCommaSpace(names: seq<string>)
    requires |names| >= 1
    requires forall i :: 0 <= i < |names| ==> ',' !in names[i]
    ensures var parts := Split(Join(names, ", "), ',');
            |parts| == |names| && parts[0] == names[0]
            && forall i :: 1 <= i < |names| ==> parts[i] == " " + names[i]
  {
    if |names| > 1 {
      var rest := Join(names[1..], ", ");
      SplitCommaSpace(names[1..]);
      assert Join(names, ", ") == names[0] + [','] + (" " + rest);
      SplitAtFirst(names[0], ',', " " + rest);
      SplitConsNonSeparator(' ', rest, ',');
      var parts := Split(Join(names, ", "), ',');
      forall i | 1 <= i < |names| ensures parts[i] == " " + names[i] {
        if i > 1 {
          assert parts[i] == Split(rest, ',')[i - 1] == " " + names[1..][i - 1];
        }
      }
    } else {
      SplitWithoutSeparator(names[0], ',');
    }
  }

  /** An empty field converts to no icons. */
  lemma EmptyTextNoIcons()
    ensures ConvertTechNamesToIcons("") == []
  {
    assert Split("", ',') == [""];
    assert TrimAll([""]) == [""];
    assert DropEmpty([""]) == [];
  }

  /** A name that is not a key of the map converts to its lowercased word characters, between `/` and `.svg`. */
  lemma UnmappedIcon(name: string)
    requires Lookup(EditorIcons, name).None?
    ensures IconFor(name) == "/" + KeepWordChars(Lower(name)) + ".svg"
  {
  }

  /** Trimming the pieces of names joined by `", "` gives back the names. */
  lemma TrimJoinedPieces(names: seq<string>)
    requires |names| >= 1
    requires forall i :: 0 <= i < |names| ==> ',' !in names[i] && IsTrimmed(names[i])
    ensures TrimAll(Split(Join(names, ", "), ',')) == names
  {
    SplitCommaSpace(names);
    var parts := Split(Join(names, ", "), ',');
    var trimmed := TrimAll(parts);
    forall i | 0 <= i < |names| ensures trimmed[i] == names[i] {
      if i > 0 {
        TrimLeadingSpace(names[i]);
      }
      TrimIdentity(names[i]);
    }
  }

  /** Clean names joined by `", "` are read back as the same names. */
  lemma NamesOfJoined(names: seq<string>)
    requires |names| >= 1
    requires forall i :: 0 <= i < |names| ==> names[i] != "" && ',' !in names[i] && IsTrimmed(names[i])
    ensures TechNames(Join(names, ", ")) == names
  {
    TrimJoinedPieces(names);
    assert DropEmpty(names) == names;
  }

  /**
   * Opening a project for editing and saving it without touching the
   * tech-stack field keeps its icon list, when every icon is one the editor
   * produces.
   */
  lemma IconsRoundTrip(icons: seq<string>)
    requires forall i :: 0 <= i < |icons| ==> Canonical(icons[i])
    ensures ConvertTechNamesToIcons(TechNamesText(icons)) == icons
  {
    var names := TechNameList(icons);
    if icons == [] {
      assert TechNamesText(icons) == "";
      EmptyTextNoIcons();
    } else {
      forall i | 0 <= i < |names|
        ensures names[i] != "" && ',' !in names[i] && IsTrimmed(names[i]) && IconFor(names[i]) == icons[i]
      {
        NameRoundTrip(icons[i]);
      }
      NamesOfJoined(names);
      var r := ConvertTechNamesToIcons(TechNamesText(icons));
      assert |r| == |icons|;
      forall i | 0 <= i < |r| ensures r[i] == icons[i] {
        assert r[i] == IconFor(names[i]);
      }
    }
  }

  /** Every mapped path ends in `.svg`. */
  lemma EditorPathsAreSvg()
    ensures forall i :: 0 <= i < |EditorIcons| ==>
              var p := EditorIcons[i].1;
              |p| >= 5 && p[|p| - 4..] == ".svg"
  {
  }

  /** In `name.ext` the one non-word character is the dot, and nothing is a capital. */
  lemma DottedChars(name: string, ext: string)
    requires IsCustomName(name) && IsCustomName(ext)
    ensures var n := name + "." + ext;
            forall k :: 0 <= k < |n| ==>
              !('A' <= n[k] <= 'Z') && (k == |name| <==> !IsWordChar(n[k])) && (k == |name| ==> n[k] == '.')
  {
    var n := name + "." + ext;
    forall k | 0 <= k < |n|
      ensures !('A' <= n[k] <= 'Z') && (k == |name| <==> !IsWordChar(n[k])) && (k == |name| ==> n[k] == '.')
    {
      if k < |name| {
        assert n[k] == name[k];
      } else if k > |name| {
        assert n[k] == ext[k - |name| - 1];
      }
    }
  }

  /** `/name.ext` is not a mapped path: it does not end in `.svg` unless `ext` starts with `s`. */
  lemma DottedIconUnmapped(name: string, ext: string)
    requires IsCustomName(name) && IsCustomName(ext) && ext[0] != 's'
    ensures KeyOf(EditorIcons, "/" + name + "." + ext).None?
  {
    var icon := "/" + name + "." + ext;
    var k := |icon| - 4;
    DottedChars(name, ext);
    assert forall j :: 1 <= j < |icon| ==> icon[j] == (name + "." + ext)[j - 1];
    if |ext| == 3 {
      assert icon[k..][1] == icon[k + 1] == ext[0];
    } else if k > 0 {
      assert icon[k..][0] == icon[k] == (name + "." + ext)[k - 1];
    } else {
      assert icon[k..][0] == '/';
    }
    assert icon[k..] != ".svg";
    EditorPathsAreSvg();
  }

  /** `name.ext` with no `.svg` in it survives the reverse mapping whole. */
  lemma DottedIconName(name: string, ext: string)
    requires IsCustomName(name) && IsCustomName(ext) && ext[0] != 's'
    ensures TechNameFor("/" + name + "." + ext) == name + "." + ext
  {
    var n := name + "." + ext;
    DottedIconUnmapped(name, ext);
    RemoveFirstAtStart("/", n);
    assert "/" + n == "/" + name + "." + ext;
    DottedChars(name, ext);
    forall i ensures !OccursAt(n, ".svg", i) {
      if 0 <= i && i + 4 <= |n| {
        if i == |name| {
          assert n[i..i + 4][1] == n[i + 1] == ext[0];
        } else {
          assert n[i..i + 4][0] == n[i];
        }
      }
    }
    RemoveFirstAbsent(n, ".svg");
  }

  /** Removing the non-word characters of `name.ext` leaves `name` followed by `ext`. */
  lemma DottedWordChars(name: string, ext: string)
    requires IsCustomName(name) && IsCustomName(ext)
    ensures KeepWordChars(name + "." + ext) == name + ext
  {
    KeepWordCharsAppend(name, "." + ext);
    KeepWordCharsAppend(".", ext);
    KeepWordCharsOfWord(name);
    KeepWordCharsOfWord(ext);
    assert KeepWordChars(".") == "";
    assert name + ("." + ext) == name + "." + ext;
  }

  /** The dot of `name.ext` is dropped and `.svg` is added. */
  lemma DottedNameIcon(name: string, ext: string)
    requires IsCustomName(name) && IsCustomName(ext)
    ensures IconFor(name + "." + ext) == "/" + name + ext + ".svg"
  {
    var n := name + "." + ext;
    DottedChars(name, ext);
    UncapitalisedUnmapped(n);
    UnmappedIcon(n);
    LowerOfUncapitalised(n);
    DottedWordChars(name, ext);
  }

  /** A single clean name converts to its one icon. */
  lemma SingleNameConverts(n: string)
    requires n != "" && ',' !in n && IsTrimmed(n)
    ensures ConvertTechNamesToIcons(n) == [IconFor(n)]
  {
    assert Join([n], ", ") == n;
    NamesOfJoined([n]);
  }

  /** `name.ext` is a single clean name. */
  lemma DottedNameIsClean(name: string, ext: string)
    requires IsCustomName(name) && IsCustomName(ext)
    ensures var n := name + "." + ext;
            n != "" && ',' !in n && IsTrimmed(n)
  {
    var n := name + "." + ext;
    DottedChars(name, ext);
    assert ',' !in n by {
      forall k | 0 <= k < |n| ensures n[k] != ',' {
        assert k != |name| ==> IsWordChar(n[k]);
      }
    }
    assert IsWordChar(n[0]) && IsWordChar(n[|n| - 1]);
  }

  /**
   * An icon the editor would not produce, such as `/logo.png`, is rewritten
   * (to `/logopng.svg`) when the project is next saved.
   */
  lemma UncanonicalIconIsRewritten(name: string, ext: string)
    requires IsCustomName(name) && IsCustomName(ext) && ext[0] != 's'
    ensures ConvertTechNamesToIcons(TechNamesText(["/" + name + "." + ext])) == ["/" + name + ext + ".svg"]
  {
    var n := name + "." + ext;
    DottedIconName(name, ext);
    assert TechNameList(["/" + name + "." + ext]) == [n];
    assert TechNamesText(["/" + name + "." + ext]) == n;
    DottedNameIsClean(name, ext);
    SingleNameConverts(n);
    DottedNameIcon(name, ext);
  }
}
