/** The (namespace, alias) key of a row: its order, and the list cursor that carries it. */
module Keys {
  import opened Common
  import Base64

  datatype Key = Key(ns: Text, alias: Text)

  const NUL: Byte := 0

  /** strings.Compare. */
  function CompareText(a: Text, b: Text): int {
    if a == [] && b == [] then 0
    else if a == [] then -1
    else if b == [] then 1
    else if a[0] < b[0] then -1
    else if a[0] > b[0] then 1
    else CompareText(a[1..], b[1..])
  }

  function Compare(x: Key, y: Key): int {
    var c := CompareText(x.ns, y.ns);
    if c != 0 then c else CompareText(x.alias, y.alias)
  }

  predicate Less(x: Key, y: Key) { Compare(x, y) < 0 }

  lemma {:induction false} TextOrder(a: Text, b: Text)
    ensures CompareText(a, b) == -CompareText(b, a)
    ensures CompareText(a, b) == 0 <==> a == b
  {
    if a != [] && b != [] && a[0] == b[0] {
      TextOrder(a[1..], b[1..]);
      assert a == [a[0]] + a[1..] && b == [b[0]] + b[1..];
    }
  }

  lemma {:induction false} TextTransitive(a: Text, b: Text, c: Text)
    requires CompareText(a, b) <= 0 && CompareText(b, c) <= 0
    ensures CompareText(a, c) <= 0
    ensures CompareText(a, c) == 0 ==> a == b == c
  {
    TextOrder(a, b);
    TextOrder(b, c);
    TextOrder(a, c);
    if a != [] && b != [] && c != [] && a[0] == b[0] == c[0] {
      TextTransitive(a[1..], b[1..], c[1..]);
      assert a == [a[0]] + a[1..] && b == [b[0]] + b[1..] && c == [c[0]] + c[1..];
    }
  }

  /** Compare is a strict total order on keys. */
  lemma KeyOrder(x: Key, y: Key)
    ensures Compare(x, y) == -Compare(y, x)
    ensures Compare(x, y) == 0 <==> x == y
    ensures Less(x, y) || x == y || Less(y, x)
    ensures Less(x, y) ==> x != y && !Less(y, x)
  {
    TextOrder(x.ns, y.ns);
    TextOrder(x.alias, y.alias);
  }

  lemma KeyTransitive(x: Key, y: Key, z: Key)
    requires Less(x, y) && Less(y, z)
    ensures Less(x, z)
  {
    TextTransitive(x.ns, y.ns, z.ns);
    TextOrder(x.ns, y.ns);
    TextOrder(y.ns, z.ns);
    if x.ns == y.ns == z.ns {
      TextTransitive(x.alias, y.alias, z.alias);
      TextOrder(x.alias, y.alias);
    }
  }

  // ----- the order, by bytes -----

  /** a stops inside b, or has the smaller byte where they first differ. */
  ghost predicate Precedes(a: Text, b: Text) {
    exists n: nat :: n <= |a| && n < |b| && a[..n] == b[..n] && (n == |a| || a[n] < b[n])
  }

  ghost predicate KeyPrecedes(x: Key, y: Key) {
    Precedes(x.ns, y.ns) || (x.ns == y.ns && Precedes(x.alias, y.alias))
  }

  lemma {:induction false} TextIsByBytes(a: Text, b: Text)
    ensures CompareText(a, b) < 0 <==> Precedes(a, b)
  {
    if a != [] && b != [] && a[0] == b[0] {
      TextIsByBytes(a[1..], b[1..]);
      if Precedes(a[1..], b[1..]) {
        var n: nat :| n <= |a[1..]| && n < |b[1..]| && a[1..][..n] == b[1..][..n] && (n == |a[1..]| || a[1..][n] < b[1..][n]);
        assert a[..n + 1] == [a[0]] + a[1..][..n] && b[..n + 1] == [b[0]] + b[1..][..n];
        assert Precedes(a, b);
      }
      if Precedes(a, b) {
        var n: nat :| n <= |a| && n < |b| && a[..n] == b[..n] && (n == |a| || a[n] < b[n]);
        assert a[1..][..n - 1] == a[..n][1..] && b[1..][..n - 1] == b[..n][1..];
      }
    } else {
      assert b != [] ==> a[..0] == b[..0];
    }
  }

  /** The order is by bytes, the namespace first. */
  lemma LessIsByBytes(x: Key, y: Key)
    ensures Less(x, y) <==> KeyPrecedes(x, y)
  {
    TextIsByBytes(x.ns, y.ns);
    TextIsByBytes(x.alias, y.alias);
    TextOrder(x.ns, y.ns);
  }

  // ----- the cursor -----

  function EncodeCursor(k: Key): (s: string)
    ensures s != ""
  {
    Base64.Encode(k.ns + [NUL] + k.alias)
  }

  /** The position of the first NUL, or the length when there is none. */
  function FirstNul(raw: Text): (i: nat)
    ensures i <= |raw|
    ensures forall j :: 0 <= j < i ==> raw[j] != NUL
    ensures i < |raw| ==> raw[i] == NUL
  {
    if raw == [] || raw[0] == NUL then 0 else 1 + FirstNul(raw[1..])
  }

  /** parseWorkspaceCursor: split the decoded cursor at its first NUL; None is the invalid cursor. */
  function ParseCursor(s: string): Option<Key> {
    if s == "" then Some(Key([], []))
    else
      match Base64.Decode(s)
      case None => None
      case Some(raw) =>
        var i := FirstNul(raw);
        if i == |raw| then None else Some(Key(raw[..i], raw[i + 1..]))
  }

  /** What a cursor is: the namespace, a NUL and the alias, in base64. */
  lemma CursorIs(k: Key)
    ensures Base64.Decode(EncodeCursor(k)) == Some(k.ns + [0] + k.alias)
  {
    Base64.RoundTrip(k.ns + [NUL] + k.alias);
  }

  /** A cursor gives its key back exactly when the namespace holds no NUL. */
  lemma CursorRoundTrip(k: Key)
    ensures ParseCursor(EncodeCursor(k)) == Some(k) <==> NUL !in k.ns
  {
    var raw := k.ns + [NUL] + k.alias;
    Base64.RoundTrip(raw);
    var i := FirstNul(raw);
    assert raw[|k.ns|] == NUL;
    if NUL !in k.ns {
      assert forall j :: 0 <= j < |k.ns| ==> raw[j] == k.ns[j];
      assert i == |k.ns|;
      assert raw[..i] == k.ns && raw[i + 1..] == k.alias;
    } else {
      var j :| 0 <= j < |k.ns| && k.ns[j] == NUL;
      assert raw[j] == NUL;
      assert i <= j;
      assert |raw[..i]| < |k.ns|;
    }
  }

  /** Every cursor that is read back is text with a NUL in base64, cut at the first one; the empty one stands for no key. */
  lemma CursorParses(s: string)
    ensures ParseCursor(s).None? <==> s != "" && (Base64.Decode(s).None? || 0 !in Base64.Decode(s).value)
    ensures s != "" && ParseCursor(s).Some? ==>
      var k := ParseCursor(s).value; Base64.Decode(s) == Some(k.ns + [0] + k.alias) && 0 !in k.ns
    ensures ParseCursor("") == Some(Key([], []))
  {
    if s != "" && Base64.Decode(s).Some? {
      var raw := Base64.Decode(s).value;
      var i := FirstNul(raw);
      if i < |raw| { assert raw == raw[..i] + [0] + raw[i + 1..]; }
    }
  }
}
