/** The unpadded standard base64 of section 4 of RFC 4648, padding omitted as section 3.2 allows. */
module Base64 {
  import opened Common

  type Sextet = i: int | 0 <= i < 64

  function CharOf(i: Sextet): char {
    if i < 26 then ('A' as int + i) as char
    else if i < 52 then ('a' as int + (i - 26)) as char
    else if i < 62 then ('0' as int + (i - 52)) as char
    else if i == 62 then '+' else '/'
  }

  function ValueOf(c: char): Option<Sextet> {
    if 'A' <= c <= 'Z' then Some(c as int - 'A' as int)
    else if 'a' <= c <= 'z' then Some(c as int - 'a' as int + 26)
    else if '0' <= c <= '9' then Some(c as int - '0' as int + 52)
    else if c == '+' then Some(62)
    else if c == '/' then Some(63)
    else None
  }

  lemma ValueOfCharOf(i: Sextet)
    ensures ValueOf(CharOf(i)) == Some(i)
    ensures CharOf(i) != '\n' && CharOf(i) != '\r'
  {}

  /** Table 1 of RFC 4648: three runs, and two signs at the end. */
  lemma CharsRun(i: Sextet)
    ensures CharOf(0) == 'A' && CharOf(26) == 'a' && CharOf(52) == '0' && CharOf(62) == '+' && CharOf(63) == '/'
    ensures i !in {25, 51, 61, 62, 63} ==> CharOf(i + 1) as int == CharOf(i) as int + 1
  {}

  // Three bytes are cut into four sextets; First, Second and Third put them together again.
  function Cut0(a: Byte): Sextet { a / 4 }
  function Cut1(a: Byte, b: Byte): Sextet { a % 4 * 16 + b / 16 }
  function Cut2(b: Byte, c: Byte): Sextet { b % 16 * 4 + c / 64 }
  function Cut3(c: Byte): Sextet { c % 64 }

  function First(s0: Sextet, s1: Sextet): Byte { s0 * 4 + s1 / 16 }
  function Second(s1: Sextet, s2: Sextet): Byte { s1 % 16 * 16 + s2 / 4 }
  function Third(s2: Sextet, s3: Sextet): Byte { s2 % 4 * 64 + s3 }

  lemma CutThenJoin(a: Byte, b: Byte, c: Byte)
    ensures First(Cut0(a), Cut1(a, b)) == a
    ensures Second(Cut1(a, b), Cut2(b, c)) == b
    ensures Third(Cut2(b, c), Cut3(c)) == c
  {
    assert Cut1(a, b) / 16 == a % 4 && Cut1(a, b) % 16 == b / 16;
    assert Cut2(b, c) / 4 == b % 16 && Cut2(b, c) % 4 == c / 64;
  }

  /** Four sextets carry the twenty-four bits of three bytes, the first byte in front. */
  lemma SameBits(a: Byte, b: Byte, c: Byte)
    ensures ((Cut0(a) * 64 + Cut1(a, b)) * 64 + Cut2(b, c)) * 64 + Cut3(c) == (a * 256 + b) * 256 + c
  {
    CutThenJoin(a, b, c);
  }

  function Encode(raw: Text): (s: string)
    ensures s == "" <==> raw == []
  {
    if |raw| == 0 then ""
    else if |raw| == 1 then
      [CharOf(Cut0(raw[0])), CharOf(Cut1(raw[0], 0))]
    else if |raw| == 2 then
      [CharOf(Cut0(raw[0])), CharOf(Cut1(raw[0], raw[1])), CharOf(Cut2(raw[1], 0))]
    else
      [CharOf(Cut0(raw[0])), CharOf(Cut1(raw[0], raw[1])), CharOf(Cut2(raw[1], raw[2])), CharOf(Cut3(raw[2]))]
      + Encode(raw[3..])
  }

  /** The decoder skips line breaks wherever they stand. */
  function SkipBreaks(s: string): string {
    if s == "" then ""
    else if s[0] == '\n' || s[0] == '\r' then SkipBreaks(s[1..])
    else [s[0]] + SkipBreaks(s[1..])
  }

  function DecodeGroups(s: string): Option<Text> {
    if |s| == 0 then Some([])
    else if |s| == 1 then None
    else
      var a, b := ValueOf(s[0]), ValueOf(s[1]);
      if a.None? || b.None? then None
      else
        var first := First(a.value, b.value);
        if |s| == 2 then Some([first])
        else
          var c := ValueOf(s[2]);
          if c.None? then None
          else
            var second := Second(b.value, c.value);
            if |s| == 3 then Some([first, second])
            else
              var d, rest := ValueOf(s[3]), DecodeGroups(s[4..]);
              if d.None? || rest.None? then None
              else Some([first, second, Third(c.value, d.value)] + rest.value)
  }

  function Decode(s: string): Option<Text> {
    DecodeGroups(SkipBreaks(s))
  }

  predicate IsBreak(c: char) { c == '\n' || c == '\r' }

  lemma {:induction false} SkipsNothing(s: string)
    requires forall i :: 0 <= i < |s| ==> !IsBreak(s[i])
    ensures SkipBreaks(s) == s
  {
    if s != "" {
      SkipsNothing(s[1..]);
      assert s == [s[0]] + s[1..];
    }
  }

  lemma CharIsNoBreak(i: Sextet)
    ensures !IsBreak(CharOf(i))
  {
    ValueOfCharOf(i);
  }

  lemma {:induction false} EncodeHasNoBreak(raw: Text)
    ensures forall i :: 0 <= i < |Encode(raw)| ==> !IsBreak(Encode(raw)[i])
  {
    hide CharOf, IsBreak;
    forall i: Sextet ensures !IsBreak(CharOf(i)) { CharIsNoBreak(i); }
    if |raw| >= 3 { EncodeHasNoBreak(raw[3..]); }
  }

  lemma SkipBreaksOfEncode(raw: Text)
    ensures SkipBreaks(Encode(raw)) == Encode(raw)
  {
    hide IsBreak;
    EncodeHasNoBreak(raw);
    SkipsNothing(Encode(raw));
  }

  // How the decoder reads one group, by the number of characters left.
  lemma DecodeTwo(c0: char, c1: char, s0: Sextet, s1: Sextet)
    requires ValueOf(c0) == Some(s0) && ValueOf(c1) == Some(s1)
    ensures DecodeGroups([c0, c1]) == Some([First(s0, s1)])
  {}

  lemma DecodeThree(c0: char, c1: char, c2: char, s0: Sextet, s1: Sextet, s2: Sextet)
    requires ValueOf(c0) == Some(s0) && ValueOf(c1) == Some(s1) && ValueOf(c2) == Some(s2)
    ensures DecodeGroups([c0, c1, c2]) == Some([First(s0, s1), Second(s1, s2)])
  {}

  lemma DecodeFour(s: string, s0: Sextet, s1: Sextet, s2: Sextet, s3: Sextet, rest: Text)
    requires |s| >= 4 && DecodeGroups(s[4..]) == Some(rest)
    requires ValueOf(s[0]) == Some(s0) && ValueOf(s[1]) == Some(s1) && ValueOf(s[2]) == Some(s2) && ValueOf(s[3]) == Some(s3)
    ensures DecodeGroups(s) == Some([First(s0, s1), Second(s1, s2), Third(s2, s3)] + rest)
  {}

  lemma {:induction false} GroupsRoundTrip(raw: Text)
    ensures DecodeGroups(Encode(raw)) == Some(raw)
  {
    hide CharOf, ValueOf, Cut0, Cut1, Cut2, Cut3, First, Second, Third;
    if |raw| > 0 {
      var a := raw[0];
      var b, c := if |raw| > 1 then raw[1] else 0, if |raw| > 2 then raw[2] else 0;
      var s0, s1, s2, s3 := Cut0(a), Cut1(a, b), Cut2(b, c), Cut3(c);
      CutThenJoin(a, b, c);
      forall i: Sextet ensures ValueOf(CharOf(i)) == Some(i) { ValueOfCharOf(i); }
      if |raw| == 1 {
        DecodeTwo(CharOf(s0), CharOf(s1), s0, s1);
        assert raw == [a];
      } else if |raw| == 2 {
        DecodeThree(CharOf(s0), CharOf(s1), CharOf(s2), s0, s1, s2);
        assert raw == [a, b];
      } else {
        GroupsRoundTrip(raw[3..]);
        var e := [CharOf(s0), CharOf(s1), CharOf(s2), CharOf(s3)] + Encode(raw[3..]);
        assert e[4..] == Encode(raw[3..]);
        DecodeFour(e, s0, s1, s2, s3, raw[3..]);
        assert raw == [a, b, c] + raw[3..];
      }
    }
  }

  /** Decoding undoes encoding, for every byte string. */
  lemma RoundTrip(raw: Text)
    ensures Decode(Encode(raw)) == Some(raw)
  {
    SkipBreaksOfEncode(raw);
    GroupsRoundTrip(raw);
  }
}
