/** String helpers with the semantics of the JavaScript built-ins the server uses:
    the `\s` character class, `trim`, ASCII case conversion, `includes` and the
    decimal rendering of a whole number inside a template literal. */
module Text {

  /** The characters JavaScript's `\s` matches and `String.prototype.trim`
      removes: the WhiteSpace and LineTerminator code points of ECMA-262. */
  predicate IsSpace(c: char) {
    || c == ' ' || c == '\t' || c == '\n' || c == '\r' || c == '\U{B}' || c == '\U{C}'
    || c == '\U{A0}' || c == '\U{1680}' || ('\U{2000}' <= c <= '\U{200A}')
    || c == '\U{2028}' || c == '\U{2029}' || c == '\U{202F}' || c == '\U{205F}'
    || c == '\U{3000}' || c == '\U{FEFF}'
  }

  /** Drops the white-space run at the front (the `\s*` of a regular expression
      matches exactly this run, greedily). */
  function TrimStart(s: string): (r: string)
    ensures |r| <= |s| && r == s[|s| - |r|..]
    ensures forall k :: 0 <= k < |s| - |r| ==> IsSpace(s[k])
    ensures r == [] || !IsSpace(r[0])
    decreases |s|
  {
    if s != [] && IsSpace(s[0]) then TrimStart(s[1..]) else s
  }

  function TrimEnd(s: string): (r: string)
    ensures |r| <= |s| && r == s[..|r|]
    ensures forall k :: |r| <= k < |s| ==> IsSpace(s[k])
    ensures r == [] || !IsSpace(r[|r| - 1])
    decreases |s|
  {
    if s != [] && IsSpace(s[|s| - 1]) then TrimEnd(s[..|s| - 1]) else s
  }

  /** Neither end of `s` is white space: what `trim` leaves, and leaves alone. */
  predicate Trimmed(s: string) {
    s == [] || (!IsSpace(s[0]) && !IsSpace(s[|s| - 1]))
  }

  /** Where `trim` cuts: the white-space run `TrimStart` drops at the front and
      the one `TrimEnd` drops at the back. */
  lemma TrimCuts(s: string)
    ensures var t := TrimStart(s);
            var i := |s| - |t|;
            var j := i + |TrimEnd(t)|;
            && 0 <= i <= j <= |s| && TrimEnd(t) == s[i..j]
            && (forall k :: 0 <= k < i ==> IsSpace(s[k]))
            && (forall k :: j <= k < |s| ==> IsSpace(s[k]))
  {
    var t := TrimStart(s);
    var i := |s| - |t|;
    var r := TrimEnd(t);
    assert t == s[i..];
    forall k | i + |r| <= k < |s|
      ensures IsSpace(s[k])
    {
      assert s[k] == t[k - i];
    }
  }

  /** `String.prototype.trim`, which is also what a Mongoose `trim: true` path
      does: the input with the white space at both ends cut off, and nothing else. */
  function Trim(s: string): (r: string)
    ensures |r| <= |s|
    ensures Trimmed(r)
    ensures r == [] <==> forall k :: 0 <= k < |s| ==> IsSpace(s[k])
    ensures Trimmed(s) ==> r == s
    ensures exists i, j :: && 0 <= i <= j <= |s| && r == s[i..j]
                           && (forall k :: 0 <= k < i ==> IsSpace(s[k]))
                           && (forall k :: j <= k < |s| ==> IsSpace(s[k]))
  {
    var t := TrimStart(s);
    var r := TrimEnd(t);
    assert r == [] ==> t == [];
    TrimCuts(s);
    r
  }

  /** Trimming twice is trimming once. */
  lemma TrimIdempotent(s: string)
    ensures Trim(Trim(s)) == Trim(s)
  {
  }

  function LowerChar(c: char): (d: char)
    ensures !('A' <= d <= 'Z')
  {
    if 'A' <= c <= 'Z' then (c as int + 32) as char else c
  }

  function UpperChar(c: char): (d: char)
    ensures !('a' <= d <= 'z')
  {
    if 'a' <= c <= 'z' then (c as int - 32) as char else c
  }

  /** `toLowerCase` restricted to ASCII letters. */
  function ToLower(s: string): (r: string)
    ensures |r| == |s|
    ensures forall k :: 0 <= k < |r| ==> !('A' <= r[k] <= 'Z')
    ensures forall k :: 0 <= k < |r| ==> (r[k] == s[k] <==> !('A' <= s[k] <= 'Z'))
    ensures forall k :: 0 <= k < |r| && 'A' <= s[k] <= 'Z' ==> r[k] as int == s[k] as int + 32
  {
    seq(|s|, k requires 0 <= k < |s| => LowerChar(s[k]))
  }

  /** `toUpperCase` restricted to ASCII letters (Mongoose's `uppercase: true`). */
  function ToUpper(s: string): (r: string)
    ensures |r| == |s|
    ensures forall k :: 0 <= k < |r| ==> !('a' <= r[k] <= 'z')
    ensures forall k :: 0 <= k < |r| ==> (r[k] == s[k] <==> !('a' <= s[k] <= 'z'))
    ensures forall k :: 0 <= k < |r| && 'a' <= s[k] <= 'z' ==> r[k] as int == s[k] as int - 32
  {
    seq(|s|, k requires 0 <= k < |s| => UpperChar(s[k]))
  }

  predicate StartsWith(s: string, p: string) {
    |p| <= |s| && s[..|p|] == p
  }

  /** `String.prototype.includes`, computed by scanning. */
  function Contains(s: string, p: string): bool
    decreases |s|
  {
    StartsWith(s, p) || (s != [] && Contains(s[1..], p))
  }

  /** The declarative reading of `includes`: `p` sits at position `i` of `s`. */
  ghost predicate OccursAt(s: string, p: string, i: int) {
    0 <= i && i + |p| <= |s| && s[i..i + |p|] == p
  }

  lemma {:induction false} ContainsIff(s: string, p: string)
    ensures Contains(s, p) <==> exists i :: OccursAt(s, p, i)
    decreases |s|
  {
    if s == [] {
      if p == [] {
        assert OccursAt(s, p, 0);
      }
    } else {
      ContainsIff(s[1..], p);
      if Contains(s, p) {
        if StartsWith(s, p) {
          assert OccursAt(s, p, 0);
        } else {
          var j :| OccursAt(s[1..], p, j);
          assert s[1..][j..j + |p|] == s[j + 1..j + 1 + |p|];
          assert OccursAt(s, p, j + 1);
        }
      }
      if exists i :: OccursAt(s, p, i) {
        var i :| OccursAt(s, p, i);
        if i > 0 {
          assert s[1..][i - 1..i - 1 + |p|] == s[i..i + |p|];
          assert OccursAt(s[1..], p, i - 1);
        } else {
          assert StartsWith(s, p);
        }
      }
    }
  }

  /** An occurrence inside a prefix is an occurrence in the whole text. */
  lemma OccursInPrefix(s: string, a: string, p: string, i: int)
    requires |a| <= |s| && s[..|a|] == a && OccursAt(a, p, i)
    ensures OccursAt(s, p, i)
  {
    assert s[i..i + |p|] == s[..|a|][i..i + |p|];
  }

  /** An occurrence inside the suffix starting at `off` is an occurrence in the whole text. */
  lemma OccursInSuffix(s: string, off: nat, b: string, p: string, i: int)
    requires off <= |s| && s[off..] == b && OccursAt(b, p, i)
    ensures OccursAt(s, p, off + i)
  {
    assert s[off + i..off + i + |p|] == s[off..][i..i + |p|];
  }

  /** A window of `a + " " + mid + " " + b` wider than `mid` that starts inside
      `a + " " + mid` and ends after `a` covers one of the two spaces. */
  lemma WindowCoversSeparator(a: string, mid: string, b: string, i: int, n: nat)
    requires n > |mid| && 0 <= i && i + n <= |a| + |mid| + 2 + |b|
    requires |a| < i + n && i < |a| + |mid| + 2
    ensures ' ' in (a + " " + mid + " " + b)[i..i + n]
  {
    var s := a + " " + mid + " " + b;
    if i <= |a| {
      assert s[i..i + n][|a| - i] == s[|a|] == ' ';
    } else {
      assert s[i..i + n][|a| + |mid| + 1 - i] == s[|a| + |mid| + 1] == ' ';
    }
  }

  /** An occurrence of a space-free pattern longer than `mid` in
      `a + " " + mid + " " + b` lies wholly inside `a` or wholly inside `b`. */
  lemma OccursInJoined(a: string, mid: string, b: string, p: string, i: int)
    requires ' ' !in p && |mid| < |p|
    requires OccursAt(a + " " + mid + " " + b, p, i)
    ensures OccursAt(a, p, i) || OccursAt(b, p, i - (|a| + |mid| + 2))
  {
    var s := a + " " + mid + " " + b;
    var off := |a| + |mid| + 2;
    var w := s[i..i + |p|];
    if i + |p| <= |a| {
      assert w == a[i..i + |p|];
    } else if i >= off {
      assert w == b[i - off..i - off + |p|];
    } else {
      WindowCoversSeparator(a, mid, b, i, |p|);
    }
  }

  /** A pattern longer than `mid` and free of spaces cannot straddle the
      separator `" " + mid + " "`: it occurs in the joined text exactly when it
      occurs in one of the two parts. */
  lemma ContainsAcrossSeparator(a: string, mid: string, b: string, p: string)
    requires ' ' !in p && |mid| < |p|
    ensures Contains(a + " " + mid + " " + b, p) <==> Contains(a, p) || Contains(b, p)
  {
    var s := a + " " + mid + " " + b;
    var off := |a| + |mid| + 2;
    assert s[..|a|] == a && s[off..] == b;
    ContainsIff(s, p);
    ContainsIff(a, p);
    ContainsIff(b, p);
    if Contains(s, p) {
      var i :| OccursAt(s, p, i);
      OccursInJoined(a, mid, b, p, i);
    }
    if Contains(a, p) {
      var i :| OccursAt(a, p, i);
      OccursInPrefix(s, a, p, i);
    }
    if Contains(b, p) {
      var i :| OccursAt(b, p, i);
      OccursInSuffix(s, off, b, p, i);
    }
  }

  predicate IsDigit(c: char) {
    '0' <= c <= '9'
  }

  /** The decimal digits a template literal prints for a whole number. */
  function NatToString(n: nat): (r: string)
    ensures r != [] && forall k :: 0 <= k < |r| ==> IsDigit(r[k])
  {
    if n < 10 then [('0' as int + n) as char]
    else NatToString(n / 10) + [('0' as int + n % 10) as char]
  }

  /** Reads a string of decimal digits back as a number. */
  function DecimalValue(s: string): nat
    requires forall k :: 0 <= k < |s| ==> IsDigit(s[k])
  {
    if s == [] then 0
    else
      var last := s[|s| - 1];
      assert IsDigit(last);
      DecimalValue(s[..|s| - 1]) * 10 + (last as int - '0' as int)
  }

  lemma {:induction false} DecimalRoundTrip(n: nat)
    ensures DecimalValue(NatToString(n)) == n
  {
    if n >= 10 {
      DecimalRoundTrip(n / 10);
      var r := NatToString(n);
      assert r[..|r| - 1] == NatToString(n / 10);
    }
  }
}
