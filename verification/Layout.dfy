/** Where the Claude Code layout puts a plugin: its sanitized directory, and the targets of its files below it. */
module Layout {
  import opened Common
  import opened Strings
  import opened Paths

  const NAME_LIMIT := 64
  const PREFIX_LIMIT := 55
  const MANIFEST := "manifest.toml"
  const SECTIONS := ["skills", "rules", "hooks", "subagents", "mcps", "assets"]

  // ----- sanitizing a name -----

  /** The lower-case letter of c; beside A to Z only the Kelvin sign and the dotted capital I become plain letters. */
  function Lower(c: char): char {
    if 'A' <= c <= 'Z' then (c as int + 32) as char
    else if c == '\U{212A}' then 'k'
    else if c == '\U{0130}' then 'i'
    else c
  }

  function LowerAll(s: string): (r: string)
    ensures |r| == |s| && forall i :: 0 <= i < |s| ==> r[i] == Lower(s[i])
  {
    if s == "" then "" else [Lower(s[0])] + LowerAll(s[1..])
  }

  predicate Alnum(c: char) { 'a' <= c <= 'z' || '0' <= c <= '9' }

  /** The maximal runs of lower-case letters and digits. */
  function Words(s: string): seq<string> {
    if s == "" then []
    else
      var n := |s| - 1;
      var before := Words(s[..n]);
      if !Alnum(s[n]) then before
      else if n > 0 && Alnum(s[n - 1]) && before != [] then before[..|before| - 1] + [before[|before| - 1] + [s[n]]]
      else before + [[s[n]]]
  }

  predicate IsWord(w: string) { w != "" && forall i :: 0 <= i < |w| ==> Alnum(w[i]) }

  /** Runs of letters and digits with single dashes between them. */
  predicate IsName(s: string) {
    && s != "" && Alnum(s[0]) && Alnum(s[|s| - 1])
    && (forall i :: 0 <= i < |s| ==> Alnum(s[i]) || s[i] == '-')
    && (forall i :: 0 < i < |s| && s[i] == '-' ==> s[i - 1] != '-')
  }

  function Dashed(words: seq<string>): string { Join(words, '-') }

  /** The first eight hexadecimal digits of a digest. */
  type Suffix = string -> string

  ghost predicate HexSuffix(suffix: Suffix) {
    forall s :: |suffix(s)| == 8 && IsWord(suffix(s))
  }

  function TrimDashes(s: string): (r: string)
    ensures |r| <= |s|
    ensures r == "" || (r[0] != '-' && r[|r| - 1] != '-')
  {
    if s != "" && s[0] == '-' then TrimDashes(s[1..])
    else if s != "" && s[|s| - 1] == '-' then TrimDashes(s[..|s| - 1])
    else s
  }

  function Shorten(suffix: Suffix, clean: string): string {
    if |clean| <= NAME_LIMIT then clean else TrimDashes(clean[..PREFIX_LIMIT]) + "-" + suffix(clean)
  }

  function Sanitized(suffix: Suffix, name: string): string {
    Shorten(suffix, Dashed(Words(LowerAll(Trim(name)))))
  }

  lemma {:induction false} WordsAreWords(s: string)
    ensures forall i :: 0 <= i < |Words(s)| ==> IsWord(Words(s)[i])
    ensures s != "" && Alnum(s[|s| - 1]) ==> Words(s) != []
  {
    if s != "" { WordsAreWords(s[..|s| - 1]); }
  }

  lemma WordsLast(s: string)
    requires s != ""
    ensures var n := |s| - 1; var before := Words(s[..n]);
      Words(s) ==
        if !Alnum(s[n]) then before
        else if n > 0 && Alnum(s[n - 1]) && before != [] then before[..|before| - 1] + [before[|before| - 1] + [s[n]]]
        else before + [[s[n]]]
  {}

  /** What the words of a text are: a word is its own, and any other character parts the words before it from those after. */
  lemma {:induction false} WordsApart(a: string, c: char, b: string)
    requires !Alnum(c)
    ensures Words(a + [c] + b) == Words(a) + Words(b)
    decreases |b|
  {
    var s := a + [c] + b;
    var n := |s| - 1;
    WordsLast(s);
    if b == "" {
      assert s[..n] == a && Words(b) == [];
      hide Words, Alnum;
    } else {
      var m := |b| - 1;
      WordsLast(b);
      WordsAreWords(b[..m]);
      assert s[..n] == a + [c] + b[..m];
      assert s[n] == b[m] && s[n - 1] == if m > 0 then b[m - 1] else c;
      assert m == 0 ==> Words(b[..m]) == [];
      if m > 0 { assert b[..m][m - 1] == b[m - 1]; }
      hide Words, Alnum, IsWord;
      WordsApart(a, c, b[..m]);
    }
  }

  lemma {:induction false} WordOfItself(w: string)
    requires IsWord(w)
    ensures Words(w) == [w]
  {
    var n := |w| - 1;
    assert Words("") == [];
    WordsLast(w);
    if n > 0 {
      hide Words;
      WordOfItself(w[..n]);
      assert w[..n] + [w[n]] == w;
    } else {
      assert [w[n]] == w && w[..n] == "";
    }
  }

  /** Which characters make up a word, and what becomes their lower-case letter. */
  lemma WordCharacters(c: char)
    ensures Alnum(c) <==> c in "abcdefghijklmnopqrstuvwxyz" || c in "0123456789"
    ensures 'A' <= c <= 'Z' ==> Lower(c) as int - 'a' as int == c as int - 'A' as int
    ensures Lower('\U{212A}') == 'k' && Lower('\U{0130}') == 'i'
    ensures !('A' <= c <= 'Z') && c != '\U{212A}' && c != '\U{0130}' ==> Lower(c) == c
  {}

  /** Appending to the last word appends to the joined text. */
  lemma {:induction false} DashedLonger(words: seq<string>, c: char)
    requires words != []
    ensures Dashed(words[..|words| - 1] + [words[|words| - 1] + [c]]) == Dashed(words) + [c]
  {
    var longer := words[..|words| - 1] + [words[|words| - 1] + [c]];
    if |words| == 1 {
      assert longer == [words[0] + [c]];
    } else {
      DashedLonger(words[1..], c);
      assert longer[1..] == words[1..][..|words| - 2] + [words[1..][|words| - 2] + [c]];
    }
  }

  lemma DashedNext(words: seq<string>, c: char)
    requires words != []
    ensures Dashed(words + [[c]]) == Dashed(words) + "-" + [c]
  {
    JoinAppend(words, [[c]], '-');
  }

  lemma {:induction false} DashedEmpty(words: seq<string>)
    requires forall i :: 0 <= i < |words| ==> IsWord(words[i])
    ensures Dashed(words) == "" <==> words == []
    ensures words != [] ==> IsName(Dashed(words))
  {
    if |words| > 1 {
      DashedEmpty(words[1..]);
      var rest := Dashed(words[1..]);
      assert Dashed(words) == words[0] + "-" + rest;
    }
  }

  /** One more character of the text, for the words so far and a dash still owed. */
  lemma WordsStep(s: string)
    requires s != ""
    ensures var n := |s| - 1; var was, now := Words(s[..n]), Words(s);
      && (!Alnum(s[n]) ==> now == was)
      && (Alnum(s[n]) && was == [] ==> Dashed(now) == [s[n]])
      && (Alnum(s[n]) && was != [] ==> Dashed(now) == Dashed(was) + (if Alnum(s[n - 1]) then "" else "-") + [s[n]])
  {
    var n := |s| - 1;
    var was := Words(s[..n]);
    if Alnum(s[n]) && was != [] {
      if Alnum(s[n - 1]) { DashedLonger(was, s[n]); } else { DashedNext(was, s[n]); }
    }
  }

  /** The builder's text: the words so far, and a dash when the last character was none of theirs. */
  ghost predicate Built(s: string, b: string, prevDash: bool) {
    && b == Dashed(Words(s)) + (if prevDash then "-" else "")
    && (prevDash <==> Words(s) != [] && s != "" && !Alnum(s[|s| - 1]))
  }

  lemma BuiltStep(s: string, b: string, prevDash: bool)
    requires s != "" && Built(s[..|s| - 1], b, prevDash)
    ensures var c := s[|s| - 1];
      if Alnum(c) then Built(s, b + [c], false)
      else if b == "" || prevDash then Built(s, b, prevDash)
      else Built(s, b + "-", true)
  {
    var n := |s| - 1;
    WordsAreWords(s[..n]);
    WordsAreWords(s);
    DashedEmpty(Words(s[..n]));
    WordsStep(s);
    assert n > 0 ==> s[..n][n - 1] == s[n - 1];
  }

  lemma TrimOwedDash(words: seq<string>, prevDash: bool)
    requires forall i :: 0 <= i < |words| ==> IsWord(words[i])
    ensures TrimDashes(Dashed(words) + (if prevDash && words != [] then "-" else "")) == Dashed(words)
  {
    DashedEmpty(words);
    var d := Dashed(words);
    assert (d + "-")[..|d|] == d;
    assert d + "" == d;
  }

  /** sanitizePluginName. */
  method SanitizePluginName(suffix: Suffix, name: string) returns (r: string)
    requires HexSuffix(suffix)
    ensures r == Sanitized(suffix, name)
    ensures var clean := Join(Words(LowerAll(Trim(name))), '-');
      r == if |clean| <= 64 then clean else clean[..if clean[54] == '-' then 54 else 55] + "-" + suffix(clean)
    ensures r == "" || (IsName(r) && |r| <= NAME_LIMIT)
  {
    var text := LowerAll(Trim(name));
    hide Trim, IsName, TrimDashes;
    var b, prevDash := "", false;
    for i := 0 to |text|
      invariant Built(text[..i], b, prevDash)
    {
      assert text[..i + 1][..i] == text[..i];
      BuiltStep(text[..i + 1], b, prevDash);
      hide Built;
      if Alnum(text[i]) {
        b, prevDash := b + [text[i]], false;
      } else if b != "" && !prevDash {
        b, prevDash := b + "-", true;
      }
    }
    assert text[..|text|] == text;
    WordsAreWords(text);
    TrimOwedDash(Words(text), prevDash);
    r := TrimDashes(b);
    DashedEmpty(Words(text));
    ShortenedIsName(suffix, r);
    if |r| > NAME_LIMIT {
      TrimNameStart(r, PREFIX_LIMIT);
      var prefix := TrimDashes(r[..PREFIX_LIMIT]);
      if prefix == "" { prefix := "plugin"; }
      r := prefix + "-" + suffix(r);
    }
  }

  lemma TrimNameStart(s: string, n: nat)
    requires IsName(s) && 0 < n <= |s|
    ensures var p := TrimDashes(s[..n]);
      IsName(p) && |p| <= n && p == s[..if s[n - 1] == '-' then n - 1 else n]
  {
    var t := s[..n];
    assert t[0] == s[0];
    if s[n - 1] == '-' {
      assert n > 1;
      var u := s[..n - 1];
      assert t[..|t| - 1] == u;
      assert Alnum(u[|u| - 1]);
      assert TrimDashes(u) == u;
      assert TrimDashes(t) == u;
    } else {
      assert TrimDashes(t) == t;
    }
  }

  lemma ShortenedIsName(suffix: Suffix, clean: string)
    requires HexSuffix(suffix) && (clean == "" || IsName(clean))
    ensures var r := Shorten(suffix, clean);
      && (r == "" <==> clean == "") && (r == "" || IsName(r)) && |r| <= NAME_LIMIT
    ensures |clean| > NAME_LIMIT ==> TrimDashes(clean[..PREFIX_LIMIT]) != ""
  {
    if |clean| > NAME_LIMIT {
      TrimNameStart(clean, PREFIX_LIMIT);
      var p, x := TrimDashes(clean[..PREFIX_LIMIT]), suffix(clean);
      NamesJoin(p, x);
    }
  }

  lemma NamesJoin(p: string, x: string)
    requires IsName(p) && IsWord(x)
    ensures IsName(p + "-" + x)
  {
    var r := p + "-" + x;
    assert forall i :: 0 <= i < |p| ==> r[i] == p[i];
    assert forall i :: 0 <= i < |x| ==> r[|p| + 1 + i] == x[i];
  }

  /** A name in form is its own words, joined. */
  lemma {:induction false} NameIsItsWords(s: string, n: nat)
    requires IsName(s) && n <= |s|
    ensures Built(s[..n], s[..n], n > 0 && s[n - 1] == '-')
  {
    if n > 0 {
      NameIsItsWords(s, n - 1);
      assert s[..n][..n - 1] == s[..n - 1];
      BuiltStep(s[..n], s[..n - 1], n > 1 && s[n - 2] == '-');
      assert s[..n] == s[..n - 1] + [s[n - 1]];
    }
  }

  lemma NameIsLower(s: string)
    requires IsName(s)
    ensures LowerAll(Trim(s)) == s
  {
    hide Trim, LowerAll, Lower, IsSpace, Alnum;
    forall i | 0 <= i < |s| ensures !IsSpace(s[i]) && Lower(s[i]) == s[i] { NameChar(s[i]); }
    TrimNoSpace(s);
  }

  lemma NameChar(c: char)
    requires Alnum(c) || c == '-'
    ensures !IsSpace(c) && Lower(c) == c
  {}

  lemma SanitizedIsName(suffix: Suffix, name: string)
    requires HexSuffix(suffix)
    ensures var r := Sanitized(suffix, name);
      |r| <= NAME_LIMIT && (r == "" || IsName(r)) && (r == "" <==> Words(LowerAll(Trim(name))) == [])
  {
    var text := LowerAll(Trim(name));
    WordsAreWords(text);
    DashedEmpty(Words(text));
    ShortenedIsName(suffix, Dashed(Words(text)));
  }

  /** Sanitizing what was sanitized changes nothing. */
  lemma SanitizeIdempotent(suffix: Suffix, name: string)
    requires HexSuffix(suffix)
    ensures Sanitized(suffix, Sanitized(suffix, name)) == Sanitized(suffix, name)
  {
    SanitizedIsName(suffix, name);
    var r := Sanitized(suffix, name);
    if r != "" {
      NameIsLower(r);
      NameIsItsWords(r, |r|);
      assert r[..|r|] == r;
    }
  }

  /** Two names that are not cut share a directory exactly when they have the same words. */
  lemma SharedNameIff(suffix: Suffix, a: string, b: string)
    requires |Dashed(Words(LowerAll(Trim(a))))| <= NAME_LIMIT && |Dashed(Words(LowerAll(Trim(b))))| <= NAME_LIMIT
    ensures Sanitized(suffix, a) == Sanitized(suffix, b) <==> Words(LowerAll(Trim(a))) == Words(LowerAll(Trim(b)))
  {
    var v, w := Words(LowerAll(Trim(a))), Words(LowerAll(Trim(b)));
    WordsAreWords(LowerAll(Trim(a)));
    WordsAreWords(LowerAll(Trim(b)));
    hide Trim, Words;
    DashedEmpty(v);
    DashedEmpty(w);
    if v != [] { SplitJoin(v, '-'); }
    if w != [] { SplitJoin(w, '-'); }
  }

  // ----- targets -----

  datatype LayoutError = EmptyName | UnsafePath | NonCanonical | Collision

  /** PluginDirectoryKey. */
  function DirectoryKey(suffix: Suffix, name: string): Result<string, LayoutError> {
    var clean := Sanitized(suffix, name);
    if clean == "" then Err(EmptyName) else Ok(BaseOf(clean))
  }

  function BaseOf(clean: string): string { JoinPath(JoinPath(".claude", "plugins"), clean) }

  predicate HasPrefix(s: string, p: string) { p <= s }

  predicate PathUnsafe(clean: string) {
    || clean == "." || clean == "/" || IsAbs(clean)
    || HasPrefix(clean, "../")
    || ".." in Split(clean, '/')
  }

  predicate InSection(clean: string, sections: seq<string>) {
    exists i :: 0 <= i < |sections| && (clean == sections[i] || HasPrefix(clean, sections[i] + "/"))
  }

  predicate RootFile(clean: string) { clean == MANIFEST || clean == "AGENTS.md" || clean == "README.md" }

  lemma RootFilesAreFlat(clean: string)
    ensures RootFile(clean) ==> '/' !in clean
  {}

  /** mapPath. */
  function MapPath(base: string, src: string): Result<string, LayoutError> {
    var clean := Clean(src);
    if PathUnsafe(clean) then Err(UnsafePath)
    else if RootFile(clean) then Ok(JoinPath(base, clean))
    else if InSection(clean, SECTIONS) then Ok(JoinPath(base, clean))
    else if '/' in clean then Err(NonCanonical)
    else Ok(JoinPath(base, clean))
  }

  /** A relative path that stays below where it starts. */
  predicate StaysBelow(segs: seq<string>) { segs != [] && forall i :: 0 <= i < |segs| ==> segs[i] != ".." }

  lemma SplitConcat(a: string, b: string)
    ensures Split(a + "/" + b, '/') == Split(a, '/') + Split(b, '/')
  {
    hide Join, Split;
    var x, y := Split(a, '/'), Split(b, '/');
    JoinSplit(a, '/');
    JoinSplit(b, '/');
    JoinAppend(x, y, '/');
    SplitJoin(x + y, '/');
  }

  /** A clean relative path that stays below keeps all its segments behind any base. */
  lemma BelowBase(base: string, clean: string)
    requires base != "" && StaysBelow(Kept(clean)) && !IsAbs(clean) && clean == Join(Kept(clean), '/')
    ensures Kept(JoinPath(base, clean)) == Kept(base) + Kept(clean) && IsAbs(JoinPath(base, clean)) == IsAbs(base)
  {
    var segs := Kept(clean);
    KeptCanonical(clean);
    KeptCanonical(base);
    JoinCanonical(segs, false);
    SplitJoin(segs, '/');
    SplitConcat(base, clean);
    PushAllAppend([], Split(base, '/'), segs, IsAbs(base));
    PushAllKeeps(Kept(base), segs, IsAbs(base));
    assert (base + "/" + clean)[0] == base[0];
    KeptClean(base + "/" + clean);
  }

  /** Being unsafe is about the segments: nothing left, absolute, or a parent reference. */
  lemma UnsafeMeans(p: string)
    ensures PathUnsafe(Clean(p)) <==> IsAbs(p) || !StaysBelow(Kept(p))
    ensures !PathUnsafe(Clean(p)) ==> Clean(p) == Join(Kept(p), '/') && Split(Clean(p), '/') == Kept(p)
  {
    var segs := Kept(p);
    KeptCanonical(p);
    JoinCanonical(segs, IsAbs(p));
    KeptClean(p);
    if !IsAbs(p) {
      if segs == [] {
        assert Clean(p) == ".";
      } else {
        SplitJoin(segs, '/');
        if HasPrefix(Clean(p), "../") {
          SplitPrefix("..", Clean(p)[3..], '/');
          assert ".." + "/" + Clean(p)[3..] == Clean(p);
          assert segs[0] == "..";
        }
      }
    }
  }

  /** What comes before the first slash is the first segment. */
  lemma PrefixIsFirst(clean: string, section: string)
    requires '/' !in section && (clean == section || HasPrefix(clean, section + "/"))
    ensures Split(clean, '/')[0] == section
  {
    SplitPrefix(section, "", '/');
    if clean != section {
      var rest := clean[|section| + 1..];
      SplitPrefix(section, rest, '/');
      hide Split;
      assert section + "/" + rest == clean;
    }
  }

  lemma FirstIsPrefix(segs: seq<string>)
    requires segs != []
    ensures var clean := Join(segs, '/'); clean == segs[0] || HasPrefix(clean, segs[0] + "/")
  {}

  lemma FirstSegment(segs: seq<string>, section: string)
    requires segs != [] && (forall i :: 0 <= i < |segs| ==> '/' !in segs[i] && segs[i] != "") && '/' !in section
    ensures var clean := Join(segs, '/');
      (clean == section || HasPrefix(clean, section + "/")) <==> segs[0] == section
  {
    hide Split, Join;
    var clean := Join(segs, '/');
    SplitJoin(segs, '/');
    FirstIsPrefix(segs);
    if clean == section || HasPrefix(clean, section + "/") { PrefixIsFirst(clean, section); }
  }

  lemma NestedHasSlash(segs: seq<string>)
    requires segs != [] && forall i :: 0 <= i < |segs| ==> '/' !in segs[i]
    ensures '/' in Join(segs, '/') <==> |segs| > 1
  {
    if |segs| > 1 {
      assert Join(segs, '/')[|segs[0]|] == '/';
    }
  }

  lemma InSectionMeans(segs: seq<string>, sections: seq<string>)
    requires segs != [] && forall i :: 0 <= i < |segs| ==> '/' !in segs[i] && segs[i] != ""
    requires forall i :: 0 <= i < |sections| ==> '/' !in sections[i]
    ensures InSection(Join(segs, '/'), sections) <==> segs[0] in sections
  {
    hide Join;
    var clean := Join(segs, '/');
    forall i | 0 <= i < |sections|
      ensures (clean == sections[i] || HasPrefix(clean, sections[i] + "/")) <==> segs[0] == sections[i]
    {
      FirstSegment(segs, sections[i]);
    }
  }

  lemma SectionsAreSegments()
    ensures forall i :: 0 <= i < |SECTIONS| ==> '/' !in SECTIONS[i]
  {}

  /** A file is placed when its path stays below and is either at the root or in a known section. */
  lemma MapPathAccepts(base: string, src: string)
    ensures MapPath(base, src).Ok? <==>
      && !IsAbs(src) && Kept(src) != [] && ".." !in Kept(src)
      && (|Kept(src)| == 1 || Kept(src)[0] in ["skills", "rules", "hooks", "subagents", "mcps", "assets"])
    ensures MapPath(base, src).Ok? ==> MapPath(base, src).value == JoinPath(base, Clean(src))
  {
    hide JoinPath, PathUnsafe, InSection, Clean, Kept, IsAbs, Join, RootFile;
    UnsafeMeans(src);
    var clean, segs := Clean(src), Kept(src);
    if !PathUnsafe(clean) {
      KeptCanonical(src);
      NestedHasSlash(segs);
      SectionsAreSegments();
      InSectionMeans(segs, SECTIONS);
      RootFilesAreFlat(clean);
    }
  }

  /** A placed file keeps its segments behind the base. */
  lemma PlacedBelow(base: string, src: string)
    requires base != "" && MapPath(base, src).Ok?
    ensures var t := MapPath(base, src).value;
      Kept(t) == Kept(base) + Kept(src) && IsAbs(t) == IsAbs(base) && t == Clean(t)
  {
    hide MapPath, PathUnsafe;
    MapPathAccepts(base, src);
    UnsafeMeans(src);
    KeptClean(src);
    KeptCanonical(src);
    assert PathUnsafe(Clean(src)) <==> IsAbs(src) || !StaysBelow(Kept(src));
    JoinCanonical(Kept(src), false);
    BelowBase(base, Clean(src));
    CleanIdempotent(base + "/" + Clean(src));
  }

  // ----- different plugins write to different places -----

  lemma OneSegment(seg: string)
    requires '/' !in seg && seg != "" && seg != "." && seg != ".."
    ensures Kept(seg) == [seg] && StaysBelow(Kept(seg)) && !IsAbs(seg) && seg == Join(Kept(seg), '/')
  {
    SplitPrefix(seg, "", '/');
    assert Push([], seg, false) == [seg];
    assert PushAll([], [seg], false) == PushAll([seg], [], false);
  }

  /** One more segment below a base. */
  lemma Below(base: string, seg: string)
    requires base != "" && !IsAbs(base) && '/' !in seg && seg != "" && seg != "." && seg != ".."
    ensures Kept(JoinPath(base, seg)) == Kept(base) + [seg] && !IsAbs(JoinPath(base, seg)) && JoinPath(base, seg) != ""
  {
    OneSegment(seg);
    BelowBase(base, seg);
  }

  lemma BaseSegments(clean: string)
    requires IsName(clean)
    ensures Kept(BaseOf(clean)) == [".claude", "plugins", clean] && !IsAbs(BaseOf(clean)) && BaseOf(clean) != ""
  {
    hide IsName, Kept, JoinPath, IsAbs, StaysBelow;
    NameIsSegment(clean);
    OneSegment(".claude");
    Below(".claude", "plugins");
    Below(JoinPath(".claude", "plugins"), clean);
  }

  lemma NameIsSegment(clean: string)
    requires IsName(clean)
    ensures '/' !in clean && clean != "" && clean != "." && clean != ".."
  {}

  /** No target of one plugin is a target of another, nor lies below one. */
  lemma TargetsAreDisjoint(a: string, b: string, src: string, other: string)
    requires IsName(a) && IsName(b) && a != b
    requires MapPath(BaseOf(a), src).Ok? && MapPath(BaseOf(b), other).Ok?
    ensures var t, u := MapPath(BaseOf(a), src).value, MapPath(BaseOf(b), other).value;
      t != u && !(Kept(t) <= Kept(u)) && !(Kept(u) <= Kept(t))
  {
    hide IsName, MapPath, BaseOf, Kept, IsAbs;
    BaseSegments(a);
    BaseSegments(b);
    PlacedBelow(BaseOf(a), src);
    PlacedBelow(BaseOf(b), other);
    var t, u := MapPath(BaseOf(a), src).value, MapPath(BaseOf(b), other).value;
    assert Kept(t)[2] == a && Kept(u)[2] == b;
  }

  /** Within one plugin two files share a target only when they are the same path written differently. */
  lemma TargetSharedIff(base: string, src: string, other: string)
    requires base != "" && MapPath(base, src).Ok? && MapPath(base, other).Ok?
    ensures MapPath(base, src).value == MapPath(base, other).value <==> Clean(src) == Clean(other)
  {
    hide MapPath;
    PlacedBelow(base, src);
    PlacedBelow(base, other);
    MapPathAccepts(base, src);
    MapPathAccepts(base, other);
    CleanEqual(src, other);
    hide Kept, Clean, IsAbs;
    var k := |Kept(base)|;
    assert (Kept(base) + Kept(src))[k..] == Kept(src) && (Kept(base) + Kept(other))[k..] == Kept(other);
  }
}
