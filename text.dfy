/**
 * String helpers with the semantics of the JavaScript built-ins the backend
 * relies on: String.prototype.trim, toLowerCase (ASCII part), split on a
 * single character separator and Array.prototype.pop on the split result.
 */
module Text {

  import opened Wrappers

  /** The code points String.prototype.trim removes: ECMAScript WhiteSpace and LineTerminator. */
  predicate IsSpace(c: char) {
    c == '\t' || c == '\n' || c == '\U{000B}' || c == '\U{000C}' || c == '\r' || c == ' '
    || c == '\U{00A0}' || c == '\U{1680}' || ('\U{2000}' <= c <= '\U{200A}')
    || c == '\U{2028}' || c == '\U{2029}' || c == '\U{202F}' || c == '\U{205F}'
    || c == '\U{3000}' || c == '\U{FEFF}'
  }

  predicate AllSpace(s: string) {
    forall i :: 0 <= i < |s| ==> IsSpace(s[i])
  }

  /** Neither end of `s` is whitespace. */
  predicate IsTrimmed(s: string) {
    s == [] || (!IsSpace(s[0]) && !IsSpace(s[|s| - 1]))
  }

  function TrimStart(s: string): (r: string)
    ensures |r| <= |s| && r == s[|s| - |r|..]
    ensures AllSpace(s[..|s| - |r|])
    ensures r == [] || !IsSpace(r[0])
  {
    if s != [] && IsSpace(s[0]) then TrimStart(s[1..]) else s
  }

  function TrimEnd(s: string): (r: string)
    ensures |r| <= |s| && r == s[..|r|]
    ensures AllSpace(s[|r|..])
    ensures r == [] || !IsSpace(r[|r| - 1])
  {
    if s != [] && IsSpace(s[|s| - 1]) then TrimEnd(s[..|s| - 1]) else s
  }

  /** String.prototype.trim: removes leading and trailing whitespace and nothing else. */
  function Trim(s: string): (r: string)
    ensures IsTrimmed(r)
    ensures |r| <= |s|
    ensures r == [] <==> AllSpace(s)
    ensures IsTrimmed(s) ==> r == s
  {
    var t := TrimStart(s);
    var r := TrimEnd(t);
    assert r != [] ==> r[0] == t[0];
    assert r == [] ==> AllSpace(s) by {
      if r == [] {
        assert t[|r|..] == t;
        assert t == [];
        assert s[..|s| - |t|] == s;
      }
    }
    r
  }

  /** Trim cuts a white-space prefix and a white-space suffix off `s` and keeps what lies between. */
  lemma TrimCutsOuterSpace(s: string)
    ensures exists i, j :: 0 <= i <= j <= |s| && Trim(s) == s[i..j] && AllSpace(s[..i]) && AllSpace(s[j..])
  {
    var t := TrimStart(s);
    var r := TrimEnd(t);
    var i := |s| - |t|;
    var j := i + |r|;
    assert s[j..] == t[|r|..];
    assert 0 <= i <= j <= |s| && Trim(s) == s[i..j] && AllSpace(s[..i]) && AllSpace(s[j..]);
  }

  lemma {:induction false} TrimIdempotent(s: string)
    ensures Trim(Trim(s)) == Trim(s)
  {
  }

  /** A trimmed, non-empty `t` followed by `.` and a suffix without trailing whitespace survives a second trim. */
  lemma TrimDottedName(t: string, ext: string)
    requires t != [] && IsTrimmed(t)
    requires ext == [] || !IsSpace(ext[|ext| - 1])
    ensures Trim(t + "." + ext) == t + "." + ext
  {
    var s := t + "." + ext;
    assert s[0] == t[0];
    assert s[|s| - 1] == if ext == [] then '.' else ext[|ext| - 1];
  }

  predicate IsUpperAscii(c: char) { 'A' <= c <= 'Z' }

  function LowerChar(c: char): (d: char)
    ensures IsUpperAscii(c) ==> d as int == c as int + 32
    ensures !IsUpperAscii(d)
    ensures IsSpace(d) <==> IsSpace(c)
    ensures !IsUpperAscii(c) ==> d == c
  {
    if IsUpperAscii(c) then (c as int - 'A' as int + 'a' as int) as char else c
  }

  /** toLowerCase restricted to ASCII letters; every other code point is kept. */
  function Lower(s: string): (r: string)
    ensures |r| == |s|
    ensures forall i :: 0 <= i < |s| ==> r[i] == LowerChar(s[i])
    ensures forall i :: 0 <= i < |r| ==> !IsUpperAscii(r[i])
    ensures forall i :: 0 <= i < |r| ==> (IsSpace(r[i]) <==> IsSpace(s[i]))
    ensures (forall i :: 0 <= i < |s| ==> !IsUpperAscii(s[i])) ==> r == s
    ensures IsTrimmed(s) ==> IsTrimmed(r)
  {
    var r := seq(|s|, i requires 0 <= i < |s| => LowerChar(s[i]));
    assert r != [] ==> r[0] == LowerChar(s[0]) && r[|r| - 1] == LowerChar(s[|s| - 1]);
    r
  }

  /** String.prototype.split with a one-character separator: never empty, pieces never contain `c`. */
  function Split(s: string, c: char): (r: seq<string>)
    ensures |r| >= 1
    ensures forall k :: 0 <= k < |r| ==> c !in r[k]
  {
    if s == [] then [[]]
    else
      var rest := Split(s[1..], c);
      if s[0] == c then [[]] + rest else [[s[0]] + rest[0]] + rest[1..]
  }

  /** Array.prototype.join with a one-character separator. */
  function Join(parts: seq<string>, c: char): string
    requires |parts| >= 1
  {
    if |parts| == 1 then parts[0] else parts[0] + [c] + Join(parts[1..], c)
  }

  lemma {:induction false} JoinSplit(s: string, c: char)
    ensures Join(Split(s, c), c) == s
  {
    if s != [] {
      var rest := Split(s[1..], c);
      JoinSplit(s[1..], c);
      if s[0] == c {
        assert Split(s, c)[1..] == rest;
      } else {
        var r := Split(s, c);
        assert r[0] == [s[0]] + rest[0];
        if |rest| == 1 {
          assert r == [[s[0]] + rest[0]];
        } else {
          assert r[1..] == rest[1..];
          assert Join(rest, c) == rest[0] + [c] + Join(rest[1..], c);
        }
      }
    }
  }

  lemma {:induction false} SplitJoin(parts: seq<string>, c: char)
    requires |parts| >= 1
    requires forall k :: 0 <= k < |parts| ==> c !in parts[k]
    ensures Split(Join(parts, c), c) == parts
  {
    if |parts| == 1 {
      SplitNoSeparator(parts[0], c);
    } else {
      SplitJoin(parts[1..], c);
      SplitPrefix(parts[0], Join(parts[1..], c), c);
      assert parts == [parts[0]] + parts[1..];
    }
  }

  lemma {:induction false} SplitNoSeparator(s: string, c: char)
    requires c !in s
    ensures Split(s, c) == [s]
  {
    if s != [] {
      assert c !in s[1..] by { assert forall i :: 0 <= i < |s| - 1 ==> s[1..][i] == s[i + 1]; }
      SplitNoSeparator(s[1..], c);
      assert [s[0]] + s[1..] == s;
    }
  }

  /** Splitting `a + [c] + b` where `a` has no separator yields `a` followed by the pieces of `b`. */
  lemma {:induction false} SplitPrefix(a: string, b: string, c: char)
    requires c !in a
    ensures Split(a + [c] + b, c) == [a] + Split(b, c)
    decreases |a|
  {
    var s := a + [c] + b;
    if a == [] {
      assert s[1..] == b;
    } else {
      assert s[1..] == a[1..] + [c] + b;
      assert c !in a[1..] by { assert forall i :: 0 <= i < |a| - 1 ==> a[1..][i] == a[i + 1]; }
      SplitPrefix(a[1..], b, c);
      assert [a[0]] + a[1..] == a;
    }
  }

  /** The second piece of `s.split(c)`, as `s.split(c)[1]`: absent when `s` has no `c`. */
  function SecondPiece(s: string, c: char): (r: Option<string>)
    ensures r.Some? <==> |Split(s, c)| >= 2
    ensures r.Some? ==> c !in r.value
  {
    var parts := Split(s, c);
    if |parts| >= 2 then Some(parts[1]) else None
  }

  /** `scheme + " " + t` with neither part containing a space has `t` as its second piece. */
  lemma SecondPieceOfScheme(scheme: string, t: string)
    requires ' ' !in scheme && ' ' !in t
    ensures SecondPiece(scheme + " " + t, ' ') == Some(t)
  {
    SplitJoin([scheme, t], ' ');
    assert Join([scheme, t], ' ') == scheme + " " + Join([t], ' ');
  }

  /** `s.split(c).pop()`: the text after the last `c`, or all of `s` when it has none. */
  function LastSegment(s: string, c: char): (r: string)
    ensures c !in r
  {
    var parts := Split(s, c);
    parts[|parts| - 1]
  }

  lemma {:induction false} JoinLast(parts: seq<string>, c: char)
    requires |parts| >= 2
    ensures Join(parts, c) == Join(parts[..|parts| - 1], c) + [c] + parts[|parts| - 1]
  {
    if |parts| > 2 {
      JoinLast(parts[1..], c);
      assert parts[1..][..|parts| - 2] == parts[..|parts| - 1][1..];
    }
  }

  lemma LastSegmentIsSuffix(s: string, c: char)
    ensures |LastSegment(s, c)| <= |s|
    ensures s[|s| - |LastSegment(s, c)|..] == LastSegment(s, c)
    ensures c in s <==> |LastSegment(s, c)| < |s|
    ensures c in s ==> s[|s| - |LastSegment(s, c)| - 1] == c
  {
    var parts := Split(s, c);
    var r := LastSegment(s, c);
    JoinSplit(s, c);
    if |parts| >= 2 {
      JoinLast(parts, c);
      var front := Join(parts[..|parts| - 1], c);
      assert s == front + [c] + r;
      assert s[|front|] == c;
    }
  }
}
