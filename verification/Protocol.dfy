/** The route directive in front of a message: parsing, and the printer it inverts. */
module Protocol {
  import opened Common
  import opened Strings

  const ALIAS_LIMIT := 64

  // ----- line endings -----

  /** strings.ReplaceAll(s, "\r\n", "\n"). */
  function ReplaceCrLf(s: string): string {
    if |s| >= 2 && s[0] == '\r' && s[1] == '\n' then "\n" + ReplaceCrLf(s[2..])
    else if s == "" then ""
    else [s[0]] + ReplaceCrLf(s[1..])
  }

  /** strings.ReplaceAll(s, "\r", "\n"). */
  function ReplaceCr(s: string): string {
    if s == "" then "" else [if s[0] == '\r' then '\n' else s[0]] + ReplaceCr(s[1..])
  }

  function NormalizeLineEndings(s: string): string { ReplaceCr(ReplaceCrLf(s)) }

  /** One scan from the left: CR LF, CR and LF each end one line. */
  function OneScan(s: string): (r: string)
    ensures '\r' !in r
  {
    if s == "" then ""
    else if s[0] == '\r' then "\n" + OneScan(if |s| >= 2 && s[1] == '\n' then s[2..] else s[1..])
    else [s[0]] + OneScan(s[1..])
  }

  lemma {:induction false} TwoPassesAreOneScan(s: string)
    ensures NormalizeLineEndings(s) == OneScan(s)
  {
    if s != "" {
      var n := if |s| >= 2 && s[0] == '\r' && s[1] == '\n' then 2 else 1;
      TwoPassesAreOneScan(s[n..]);
      assert ReplaceCrLf(s)[1..] == ReplaceCrLf(s[n..]);
    }
  }

  lemma {:induction false} ScanKeepsPlain(s: string, rest: string)
    requires '\r' !in s
    ensures OneScan(s + rest) == s + OneScan(rest)
  {
    if s == "" {
      assert s + rest == rest;
    } else {
      ScanKeepsPlain(s[1..], rest);
      assert (s + rest)[1..] == s[1..] + rest;
      assert s == [s[0]] + s[1..];
    }
  }

  lemma NormalizeIdempotent(s: string)
    ensures NormalizeLineEndings(NormalizeLineEndings(s)) == NormalizeLineEndings(s)
    ensures '\r' !in NormalizeLineEndings(s)
    ensures '\r' !in s ==> NormalizeLineEndings(s) == s
  {
    TwoPassesAreOneScan(s);
    var r := OneScan(s);
    TwoPassesAreOneScan(r);
    ScanKeepsPlain(r, "");
    assert r + "" == r;
    if '\r' !in s { ScanKeepsPlain(s, ""); assert s + "" == s; }
  }

  /** CR LF, a lone CR and LF each become one LF, and nothing else changes. */
  lemma LineEnds(c: char, s: string)
    ensures NormalizeLineEndings("") == ""
    ensures NormalizeLineEndings("\r\n" + s) == "\n" + NormalizeLineEndings(s)
    ensures s == "" || s[0] != '\n' ==> NormalizeLineEndings("\r" + s) == "\n" + NormalizeLineEndings(s)
    ensures c != '\r' ==> NormalizeLineEndings([c] + s) == [c] + NormalizeLineEndings(s)
  {
    hide NormalizeLineEndings;
    TwoPassesAreOneScan(s);
    TwoPassesAreOneScan("");
    TwoPassesAreOneScan("\r\n" + s);
    TwoPassesAreOneScan("\r" + s);
    TwoPassesAreOneScan([c] + s);
    assert ("\r\n" + s)[2..] == s && ("\r" + s)[1..] == s && ([c] + s)[1..] == s;
  }

  // ----- the header pattern -----

  /** The class \s of the pattern. */
  predicate PatternSpace(c: char) { c == '\t' || c == '\n' || c as int == 0xC || c == '\r' || c == ' ' }

  predicate AliasChar(c: char) {
    'A' <= c <= 'Z' || 'a' <= c <= 'z' || '0' <= c <= '9' || c == '_' || c == '-'
  }

  predicate ValidAlias(a: string) {
    1 <= |a| <= ALIAS_LIMIT && forall i :: 0 <= i < |a| ==> AliasChar(a[i])
  }

  predicate AllSpace(s: string) { forall i :: 0 <= i < |s| ==> PatternSpace(s[i]) }

  /** s without the pattern white space in front. */
  function DropSpace(s: string): (r: string)
    ensures |r| <= |s| && r == s[|s| - |r|..] && AllSpace(s[..|s| - |r|])
    ensures r != "" ==> !PatternSpace(r[0])
  {
    if s != "" && PatternSpace(s[0]) then
      var r := DropSpace(s[1..]);
      assert s[..|s| - |r|] == [s[0]] + s[1..][..|s| - 1 - |r|];
      r
    else s
  }

  /** The alias characters in front of s. */
  function TakeAlias(s: string): (r: string)
    ensures |r| <= |s| && r == s[..|r|] && forall i :: 0 <= i < |r| ==> AliasChar(r[i])
  {
    if s != "" && AliasChar(s[0]) then [s[0]] + TakeAlias(s[1..]) else ""
  }

  /** inline is what follows the directive on its line. */
  datatype Header = Header(alias: string, inline: string)

  /** The pattern, read left to right: white space, "{to", white space, "#alias}", white space, the rest. */
  function MatchHeader(h: string): Option<Header> {
    var a := DropSpace(h);
    if "{to" <= a then AfterTo(a[3..]) else None
  }

  function AfterTo(t: string): Option<Header> {
    var b := DropSpace(t);
    if |b| < |t| && "#" <= b then AfterHash(b[1..]) else None
  }

  function AfterHash(t: string): Option<Header> {
    var alias := TakeAlias(t);
    var c := t[|alias|..];
    if 1 <= |alias| <= ALIAS_LIMIT && "}" <= c && '\n' !in DropSpace(c[1..]) then Some(Header(alias, DropSpace(c[1..]))) else None
  }

  /** What the regular expression says: these pieces, the last white space taken greedily and the rest on one line. */
  ghost predicate Derives(h: string, m: Header, lead: string, gap: string, pad: string) {
    && h == lead + ("{to" + (gap + ("#" + (m.alias + ("}" + (pad + m.inline))))))
    && AllSpace(lead) && AllSpace(gap) && AllSpace(pad) && |gap| > 0
    && ValidAlias(m.alias)
    && (m.inline != "" ==> !PatternSpace(m.inline[0])) && '\n' !in m.inline
  }

  ghost predicate Matches(h: string, m: Header) {
    exists lead, gap, pad :: Derives(h, m, lead, gap, pad)
  }

  lemma {:induction false} DropSpaceOf(lead: string, rest: string)
    requires AllSpace(lead) && (rest != "" ==> !PatternSpace(rest[0]))
    ensures DropSpace(lead + rest) == rest
  {
    if lead == "" {
      assert lead + rest == rest;
    } else {
      var s := lead + rest;
      assert s != "" && PatternSpace(s[0]);
      assert AllSpace(lead[1..]);
      DropSpaceOf(lead[1..], rest);
      hide PatternSpace, AllSpace;
      assert s[1..] == lead[1..] + rest;
    }
  }

  lemma {:induction false} TakeAliasOf(alias: string, rest: string)
    requires (forall i :: 0 <= i < |alias| ==> AliasChar(alias[i])) && (rest != "" ==> !AliasChar(rest[0]))
    ensures TakeAlias(alias + rest) == alias
  {
    if alias == "" {
      assert alias + rest == rest;
    } else {
      TakeAliasOf(alias[1..], rest);
      assert (alias + rest)[1..] == alias[1..] + rest;
    }
  }

  lemma AfterHashOf(m: Header, pad: string)
    requires ValidAlias(m.alias) && AllSpace(pad) && (m.inline != "" ==> !PatternSpace(m.inline[0])) && '\n' !in m.inline
    ensures AfterHash(m.alias + ("}" + (pad + m.inline))) == Some(m)
  {
    var c := "}" + (pad + m.inline);
    TakeAliasOf(m.alias, c);
    DropSpaceOf(pad, m.inline);
    hide DropSpace, TakeAlias, PatternSpace, AllSpace, AliasChar;
    assert (m.alias + c)[|m.alias|..] == c;
    assert c[1..] == pad + m.inline;
  }

  lemma AfterToOf(gap: string, t: string)
    requires AllSpace(gap) && gap != ""
    ensures AfterTo(gap + ("#" + t)) == AfterHash(t)
  {
    var b := "#" + t;
    DropSpaceOf(gap, b);
    hide DropSpace, AfterHash, PatternSpace, AllSpace;
    assert b[1..] == t;
  }

  lemma DerivedIsMatched(h: string, m: Header, lead: string, gap: string, pad: string)
    requires Derives(h, m, lead, gap, pad)
    ensures MatchHeader(h) == Some(m)
  {
    var t := m.alias + ("}" + (pad + m.inline));
    var a := "{to" + (gap + ("#" + t));
    DropSpaceOf(lead, a);
    AfterToOf(gap, t);
    AfterHashOf(m, pad);
    hide DropSpace, AfterTo, AfterHash, PatternSpace, AllSpace;
    assert a[3..] == gap + ("#" + t);
  }

  lemma BraceDerived(c: string, inline: string) returns (pad: string)
    requires "}" <= c && inline == DropSpace(c[1..])
    ensures c == "}" + (pad + inline) && AllSpace(pad) && (inline != "" ==> !PatternSpace(inline[0]))
  {
    hide DropSpace, PatternSpace, AllSpace;
    var d := c[1..];
    pad := d[..|d| - |inline|];
    assert d == pad + inline;
    assert c == "}" + d;
  }

  lemma HashDerived(t: string) returns (pad: string)
    requires AfterHash(t).Some?
    ensures var m := AfterHash(t).value;
      && t == m.alias + ("}" + (pad + m.inline)) && AllSpace(pad) && ValidAlias(m.alias)
      && (m.inline != "" ==> !PatternSpace(m.inline[0])) && '\n' !in m.inline
  {
    hide DropSpace, TakeAlias, PatternSpace, AllSpace, AliasChar;
    var m := AfterHash(t).value;
    var c := t[|m.alias|..];
    assert t == m.alias + c;
    pad := BraceDerived(c, m.inline);
  }

  lemma ToDerived(t: string) returns (gap: string, rest: string)
    requires AfterTo(t).Some?
    ensures t == gap + ("#" + rest) && AllSpace(gap) && |gap| > 0 && AfterTo(t) == AfterHash(rest)
  {
    hide DropSpace, AfterHash, PatternSpace, AllSpace;
    var b := DropSpace(t);
    gap, rest := t[..|t| - |b|], b[1..];
    assert b == "#" + rest;
    assert t == gap + b;
  }

  lemma MatchedIsDerived(h: string)
    requires MatchHeader(h).Some?
    ensures Matches(h, MatchHeader(h).value)
  {
    hide DropSpace, AfterTo, AfterHash, PatternSpace, AllSpace, ValidAlias;
    var m := MatchHeader(h).value;
    var a := DropSpace(h);
    var lead := h[..|h| - |a|];
    var gap, rest := ToDerived(a[3..]);
    var pad := HashDerived(rest);
    assert a == "{to" + a[3..];
    assert h == lead + a;
    assert Derives(h, m, lead, gap, pad);
  }

  /** The classes and the bound of the pattern. */
  lemma PatternClasses(c: char, a: string)
    ensures PatternSpace(c) <==> c in {'\t', '\n', '\U{000C}', '\r', ' '}
    ensures ValidAlias(a) <==>
      1 <= |a| <= 64 && forall i :: 0 <= i < |a| ==> 'A' <= a[i] <= 'Z' || 'a' <= a[i] <= 'z' || '0' <= a[i] <= '9' || a[i] == '_' || a[i] == '-'
  {}

  /** The recogniser and the pattern accept the same headers with the same parts, so the parts are unique. */
  lemma MatchIsPattern(h: string, m: Header)
    ensures MatchHeader(h) == Some(m) <==> Matches(h, m)
  {
    if MatchHeader(h) == Some(m) { MatchedIsDerived(h); }
    if Matches(h, m) {
      var lead, gap, pad :| Derives(h, m, lead, gap, pad);
      DerivedIsMatched(h, m, lead, gap, pad);
    }
  }

  // ----- parsing -----

  datatype Parsed =
    | Explicit(alias: string, payload: string, rawHeader: string)
    | Plain(payload: string)
    | InvalidDirective

  /** The first line that is not blank; len(lines) when there is none. */
  function FirstNonEmpty(lines: seq<string>): (i: nat)
    ensures i <= |lines|
  {
    if lines == [] || !Blank(lines[0]) then 0 else 1 + FirstNonEmpty(lines[1..])
  }

  lemma {:induction false} FirstNonEmptyIsFirst(lines: seq<string>, i: nat)
    requires i <= |lines|
    ensures FirstNonEmpty(lines) == i <==> (forall k :: 0 <= k < i ==> Blank(lines[k])) && (i < |lines| ==> !Blank(lines[i]))
  {
    hide Blank;
    if lines != [] && Blank(lines[0]) && i > 0 {
      FirstNonEmptyIsFirst(lines[1..], i - 1);
      assert forall k :: 0 < k < |lines| ==> lines[1..][k - 1] == lines[k];
      assert (forall k :: 0 <= k < i - 1 ==> Blank(lines[1..][k])) <==> (forall k :: 0 <= k < i ==> Blank(lines[k])) by {
        if forall k :: 0 <= k < i - 1 ==> Blank(lines[1..][k]) {
          forall k | 0 <= k < i ensures Blank(lines[k]) { assert k > 0 ==> Blank(lines[1..][k - 1]); }
        }
      }
    }
  }

  predicate LeadSpace(c: char) { c == ' ' || c == '\t' || c as int == 0xC }

  function TrimLead(s: string): string {
    if s != "" && LeadSpace(s[0]) then TrimLead(s[1..]) else s
  }

  predicate AppearsLikeDirective(line: string) {
    var t := TrimLead(line);
    && |t| >= 3 && t[0] == '{' && (t[1] == 't' || t[1] == 'T') && (t[2] == 'o' || t[2] == 'O')
    && (|t| == 3 || LeadSpace(t[3]) || t[3] == '#' || t[3] == '}')
  }

  lemma {:induction false} TrimLeadIs(s: string) returns (lead: string)
    ensures s == lead + TrimLead(s) && (forall i :: 0 <= i < |lead| ==> LeadSpace(lead[i]))
    ensures TrimLead(s) != "" ==> !LeadSpace(TrimLead(s)[0])
  {
    lead := "";
    if s != "" && LeadSpace(s[0]) {
      var more := TrimLeadIs(s[1..]);
      lead := [s[0]] + more;
    }
  }

  lemma {:induction false} TrimLeadOf(lead: string, rest: string)
    requires (forall i :: 0 <= i < |lead| ==> LeadSpace(lead[i])) && (rest != "" ==> !LeadSpace(rest[0]))
    ensures TrimLead(lead + rest) == rest
  {
    if lead == "" {
      assert lead + rest == rest;
    } else {
      TrimLeadOf(lead[1..], rest);
      assert (lead + rest)[1..] == lead[1..] + rest;
    }
  }

  /** Blanks, tabs and form feeds, "{to" in either case, and then the end or one of these or a # or a brace. */
  ghost predicate Resembles(line: string, lead: string, rest: string) {
    && line == lead + rest
    && (forall i :: 0 <= i < |lead| ==> lead[i] in {' ', '\t', '\U{000C}'})
    && |rest| >= 3 && rest[0] == '{' && rest[1] in {'t', 'T'} && rest[2] in {'o', 'O'}
    && (|rest| > 3 ==> rest[3] in {' ', '\t', '\U{000C}', '#', '}'})
  }

  lemma AppearsIff(line: string)
    ensures AppearsLikeDirective(line) <==> exists lead, rest :: Resembles(line, lead, rest)
  {
    if AppearsLikeDirective(line) {
      var lead := TrimLeadIs(line);
      assert Resembles(line, lead, TrimLead(line));
    }
    if lead, rest :| Resembles(line, lead, rest) { TrimLeadOf(lead, rest); }
  }

  /** The payload is the rest of the header's line and all lines after it; an empty rest leaves no empty line behind. */
  lemma PayloadIs(inline: string, after: seq<string>)
    ensures inline != "" || after == [] ==> Payload(inline, after) == Join([inline] + after, '\n')
    ensures inline == "" ==> Payload(inline, after) == Join(after, '\n')
  {
    assert ([inline] + after)[1..] == after;
  }

  function Payload(inline: string, after: seq<string>): string {
    if after == [] then inline
    else if inline == "" then Join(after, '\n')
    else inline + "\n" + Join(after, '\n')
  }

  function ParseDirective(body: string): Parsed {
    var lines := Split(NormalizeLineEndings(body), '\n');
    var i := FirstNonEmpty(lines);
    if i == |lines| then Plain(body)
    else
      var m := MatchHeader(lines[i]);
      if m.Some? then Explicit(m.value.alias, Payload(m.value.inline, lines[i + 1..]), lines[i])
      else if AppearsLikeDirective(lines[i]) then InvalidDirective
      else Plain(body)
  }

  function Format(alias: string): string { "{to #" + alias + "}" }

  // ----- parsing loses nothing -----

  /** body, its line ends normalized, is blank lines, then the header line, then the rest. */
  ghost predicate Lines(body: string, blank: seq<string>, header: string, after: seq<string>) {
    && NormalizeLineEndings(body) == Join(blank + [header] + after, '\n')
    && (forall k :: 0 <= k < |blank| ==> Blank(blank[k]) && '\n' !in blank[k])
    && !Blank(header) && '\n' !in header
    && (forall k :: 0 <= k < |after| ==> '\n' !in after[k])
  }

  ghost predicate AllBlank(body: string) {
    forall k :: 0 <= k < |NormalizeLineEndings(body)| ==> IsSpace(NormalizeLineEndings(body)[k])
  }

  lemma LinesAreParsed(body: string, blank: seq<string>, header: string, after: seq<string>)
    requires Lines(body, blank, header, after)
    ensures Split(NormalizeLineEndings(body), '\n') == blank + [header] + after
    ensures FirstNonEmpty(blank + [header] + after) == |blank|
  {
    hide Blank, IsSpace, FirstNonEmpty;
    var lines := blank + [header] + after;
    SplitJoin(lines, '\n');
    assert lines[|blank|] == header;
    forall k | 0 <= k < |blank| ensures Blank(lines[k]) { assert lines[k] == blank[k]; }
    FirstNonEmptyIsFirst(lines, |blank|);
  }

  lemma Cut(lines: seq<string>, i: nat)
    requires i < |lines|
    ensures lines[..i] + [lines[i]] + lines[i + 1..] == lines
  {}

  /** A body with a line that is not blank falls into lines one way. */
  lemma BodyHasLines(body: string) returns (blank: seq<string>, header: string, after: seq<string>)
    requires !AllBlank(body)
    ensures Lines(body, blank, header, after)
  {
    hide Blank, IsSpace, FirstNonEmpty, NormalizeLineEndings;
    var text := NormalizeLineEndings(body);
    var lines := Split(text, '\n');
    JoinSplit(text, '\n');
    var i := FirstNonEmpty(lines);
    FirstNonEmptyIsFirst(lines, i);
    if i == |lines| { AllBlankLines(lines); }
    blank, header, after := lines[..i], lines[i], lines[i + 1..];
    Cut(lines, i);
  }

  lemma {:induction false} AllBlankLines(lines: seq<string>)
    requires forall k :: 0 <= k < |lines| ==> Blank(lines[k])
    ensures forall k :: 0 <= k < |Join(lines, '\n')| ==> IsSpace(Join(lines, '\n')[k])
  {
    if lines != [] {
      BlankIsAllSpace(lines[0]);
      AllBlankLines(lines[1..]);
    }
  }

  /** Every verdict, for every body: which one it is, and that nothing of the body is lost in it. */
  lemma ParseIsExact(body: string, blank: seq<string>, header: string, after: seq<string>)
    requires Lines(body, blank, header, after)
    ensures ParseDirective(body) ==
      match MatchHeader(header)
      case Some(m) => Explicit(m.alias, Payload(m.inline, after), header)
      case None => if AppearsLikeDirective(header) then InvalidDirective else Plain(body)
  {
    hide Lines, Blank, FirstNonEmpty, NormalizeLineEndings, MatchHeader, AppearsLikeDirective, Payload;
    LinesAreParsed(body, blank, header, after);
    var lines := blank + [header] + after;
    assert lines[|blank|] == header && lines[|blank| + 1..] == after;
  }

  lemma BlankIsPlain(body: string)
    requires AllBlank(body)
    ensures ParseDirective(body) == Plain(body)
  {
    var text := NormalizeLineEndings(body);
    var lines := Split(text, '\n');
    JoinSplit(text, '\n');
    forall k | 0 <= k < |lines| ensures Blank(lines[k]) {
      BlankIsAllSpace(lines[k]);
      LineOf(lines, k);
    }
    hide Blank, NormalizeLineEndings, AllBlank;
    FirstNonEmptyIsFirst(lines, |lines|);
  }

  lemma {:induction false} LineOf(lines: seq<string>, k: nat)
    requires k < |lines|
    ensures forall i :: 0 <= i < |lines[k]| ==> lines[k][i] in Join(lines, '\n')
  {
    if |lines| > 1 {
      if k > 0 { LineOf(lines[1..], k - 1); }
      var j := Join(lines, '\n');
      assert forall i :: 0 <= i < |lines[0]| ==> j[i] == lines[0][i];
      assert j[|lines[0]| + 1..] == Join(lines[1..], '\n');
    }
  }

  // ----- the round trip -----

  lemma FormatMatches(alias: string)
    requires ValidAlias(alias)
    ensures MatchHeader(Format(alias)) == Some(Header(alias, ""))
    ensures '\n' !in Format(alias) && '\r' !in Format(alias) && !Blank(Format(alias))
  {
    hide Blank, MatchHeader;
    FormatDerives(alias);
    DerivedIsMatched(Format(alias), Header(alias, ""), "", " ", "");
    hide IsSpace, AliasChar;
    FormatIsOneLine(alias);
  }

  lemma FormatDerives(alias: string)
    requires ValidAlias(alias)
    ensures Derives(Format(alias), Header(alias, ""), "", " ", "")
  {
    hide AliasChar;
    assert Format(alias) == "" + ("{to" + (" " + ("#" + (alias + ("}" + ("" + ""))))));
  }

  lemma FormatIsOneLine(alias: string)
    requires ValidAlias(alias)
    ensures '\n' !in Format(alias) && '\r' !in Format(alias) && !Blank(Format(alias))
  {
    hide Blank;
    assert '\n' !in alias && '\r' !in alias;
    assert !IsSpace(Format(alias)[0]);
    BlankIsAllSpace(Format(alias));
  }

  /** What is printed is parsed: any text after the header line comes back with its line ends normalized. */
  lemma FormatRoundTrip(alias: string, text: string)
    requires ValidAlias(alias)
    ensures ParseDirective(Format(alias) + "\n" + text) == Explicit(alias, NormalizeLineEndings(text), Format(alias))
  {
    hide Blank, MatchHeader, Format, NormalizeLineEndings, OneScan, ParseDirective;
    var h, n := Format(alias), NormalizeLineEndings(text);
    var body := h + "\n" + text;
    FormatMatches(alias);
    TwoPassesAreOneScan(body);
    TwoPassesAreOneScan(text);
    ScanKeepsPlain(h + "\n", text);
    var after := Split(n, '\n');
    JoinSplit(n, '\n');
    assert ([] + [h] + after)[1..] == after;
    assert Lines(body, [], h, after);
    ParseIsExact(body, [], h, after);
  }

  /** Printing what was parsed and parsing it again gives the same alias and payload. */
  lemma ParsedIsStable(body: string)
    requires ParseDirective(body).Explicit?
    ensures var r := ParseDirective(body);
      && ValidAlias(r.alias) && !AllBlank(body)
      && ParseDirective(Format(r.alias) + "\n" + r.payload) == Explicit(r.alias, r.payload, Format(r.alias))
  {
    hide ParseDirective, AllBlank, Lines, MatchHeader, Format, NormalizeLineEndings, AppearsLikeDirective, Payload;
    if AllBlank(body) { BlankIsPlain(body); }
    var blank, header, after := BodyHasLines(body);
    ParseIsExact(body, blank, header, after);
    ValidWhenMatched(header);
    var r := ParseDirective(body);
    NoCarriage(body, blank, header, after);
    NormalizeIdempotent(r.payload);
    FormatRoundTrip(r.alias, r.payload);
  }

  lemma ValidWhenMatched(h: string)
    requires MatchHeader(h).Some?
    ensures ValidAlias(MatchHeader(h).value.alias)
  {
    hide MatchHeader, ValidAlias, AllSpace;
    MatchedIsDerived(h);
  }

  /** The text after the directive is the end of its line. */
  lemma InlineIsSuffix(h: string)
    requires MatchHeader(h).Some?
    ensures forall c :: c in MatchHeader(h).value.inline ==> c in h
  {
    hide MatchHeader, ValidAlias, AllSpace;
    MatchedIsDerived(h);
    var m := MatchHeader(h).value;
    var lead, gap, pad :| Derives(h, m, lead, gap, pad);
    assert h == (lead + ("{to" + (gap + ("#" + (m.alias + ("}" + pad)))))) + m.inline;
  }

  lemma {:induction false} JoinTail(lines: seq<string>, k: nat)
    requires k <= |lines|
    ensures forall c :: c in Join(lines[k..], '\n') ==> c in Join(lines, '\n')
  {
    if 0 < k < |lines| {
      JoinAppend(lines[..k], lines[k..], '\n');
      assert lines[..k] + lines[k..] == lines;
    } else {
      assert k == 0 ==> lines[k..] == lines;
    }
  }

  lemma NoCarriage(body: string, blank: seq<string>, header: string, after: seq<string>)
    requires Lines(body, blank, header, after) && MatchHeader(header).Some?
    ensures '\r' !in Payload(MatchHeader(header).value.inline, after)
  {
    hide Blank, MatchHeader, NormalizeLineEndings, Join;
    var lines := blank + [header] + after;
    NormalizeIdempotent(body);
    LineOf(lines, |blank|);
    assert lines[|blank|] == header && lines[|blank| + 1..] == after;
    JoinTail(lines, |blank| + 1);
    InlineIsSuffix(header);
    forall c | c in header ensures c in Join(lines, '\n') {
      var i :| 0 <= i < |header| && header[i] == c;
      assert lines[|blank|][i] == c;
    }
  }
}
