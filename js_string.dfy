/**
 * The JavaScript string built-ins the chat components rely on, stated over
 * strings as sequences of characters: the line terminators that the regular
 * expression `.` refuses, `String.prototype.trim`, and `split` with a
 * one-character separator.
 */
module JsString {

  /** LineTerminator of ECMAScript: LF, CR, LINE SEPARATOR, PARAGRAPH SEPARATOR. */
  predicate IsLineTerminator(c: char) {
    c == '\n' || c == '\r' || c == '\U{2028}' || c == '\U{2029}'
  }

  /**
   * What `trim` strips: ECMAScript WhiteSpace (TAB, VT, FF, ZWNBSP and the
   * Unicode space separators) and LineTerminator.
   */
  predicate IsTrimmable(c: char) {
    IsLineTerminator(c)
    || c == '\t' || c == '\U{000B}' || c == '\U{000C}' || c == '\U{FEFF}'
    || c == ' ' || c == '\U{00A0}' || c == '\U{1680}'
    || ('\U{2000}' <= c <= '\U{200A}')
    || c == '\U{202F}' || c == '\U{205F}' || c == '\U{3000}'
  }

  /** Every character of s[a..b] is stripped by `trim`. */
  predicate AllTrimmable(s: string, a: int, b: int)
    requires 0 <= a <= b <= |s|
  {
    forall m :: a <= m < b ==> IsTrimmable(s[m])
  }

  /** First index at or after i whose character `trim` keeps, or |s|. */
  function SkipLeading(s: string, i: nat): (k: nat)
    requires i <= |s|
    ensures i <= k <= |s|
    ensures AllTrimmable(s, i, k)
    ensures k < |s| ==> !IsTrimmable(s[k])
    decreases |s| - i
  {
    if i < |s| && IsTrimmable(s[i]) then SkipLeading(s, i + 1) else i
  }

  /** Largest k in [lo, j] such that s[k..j] is all trimmable. */
  function SkipTrailing(s: string, lo: nat, j: nat): (k: nat)
    requires lo <= j <= |s|
    ensures lo <= k <= j
    ensures AllTrimmable(s, k, j)
    ensures k > lo ==> !IsTrimmable(s[k - 1])
    decreases j
  {
    if j > lo && IsTrimmable(s[j - 1]) then SkipTrailing(s, lo, j - 1) else j
  }

  /**
   * `s.trim()`: the infix left after removing leading and trailing white
   * space; it is empty exactly when s holds nothing but white space.
   */
  function Trim(s: string): (t: string)
    ensures exists i :: 0 <= i <= i + |t| <= |s| && s[i..i + |t|] == t
                          && AllTrimmable(s, 0, i) && AllTrimmable(s, i + |t|, |s|)
    ensures t != [] ==> !IsTrimmable(t[0]) && !IsTrimmable(t[|t| - 1])
    ensures t == [] <==> AllTrimmable(s, 0, |s|)
  {
    var i := SkipLeading(s, 0);
    var j := SkipTrailing(s, i, |s|);
    assert s[i..i + (j - i)] == s[i..j];
    s[i..j]
  }

  /** Trimming twice changes nothing more than trimming once. */
  lemma TrimIdempotent(s: string)
    ensures Trim(Trim(s)) == Trim(s)
  {
  }

  /** `s.split(sep)` for a one-character separator `sep`. */
  function Split(s: string, sep: char): (parts: seq<string>)
    ensures |parts| >= 1
    ensures forall k :: 0 <= k < |parts| ==> sep !in parts[k]
    decreases |s|
  {
    if s == [] then [[]]
    else
      var rest := Split(s[1..], sep);
      if s[0] == sep then [[]] + rest
      else [[s[0]] + rest[0]] + rest[1..]
  }

  /** A split has one piece more than there are separators in the string. */
  lemma {:induction false} SplitCount(s: string, sep: char)
    ensures |Split(s, sep)| == multiset(s)[sep] + 1
    decreases |s|
  {
    if s != [] {
      SplitCount(s[1..], sep);
      assert s == [s[0]] + s[1..];
      assert multiset(s) == multiset([s[0]]) + multiset(s[1..]);
    }
  }

  /** `parts.join(sep)` for a one-character separator. */
  function Join(parts: seq<string>, sep: char): string
    requires parts != []
  {
    if |parts| == 1 then parts[0] else parts[0] + [sep] + Join(parts[1..], sep)
  }

  /** Joining the pieces of a split gives back the original string. */
  lemma {:induction false} JoinSplit(s: string, sep: char)
    ensures Join(Split(s, sep), sep) == s
    decreases |s|
  {
    if s != [] {
      var rest := Split(s[1..], sep);
      var parts := Split(s, sep);
      JoinSplit(s[1..], sep);
      assert Join(rest, sep) == s[1..];
      if s[0] == sep {
        assert parts == [[]] + rest;
        assert parts[1..] == rest;
        calc {
          Join(parts, sep);
          parts[0] + [sep] + Join(rest, sep);
          [sep] + s[1..];
        }
      } else if |rest| == 1 {
        assert parts == [[s[0]] + rest[0]];
      } else {
        assert parts == [[s[0]] + rest[0]] + rest[1..];
        assert parts[1..] == rest[1..];
        calc {
          Join(parts, sep);
          ([s[0]] + rest[0]) + [sep] + Join(rest[1..], sep);
          [s[0]] + (rest[0] + [sep] + Join(rest[1..], sep));
          [s[0]] + Join(rest, sep);
        }
      }
      assert s == [s[0]] + s[1..];
    }
  }

  /** Splitting a join of separator-free pieces gives back the pieces. */
  lemma {:induction false} SplitJoin(parts: seq<string>, sep: char)
    requires parts != []
    requires forall k :: 0 <= k < |parts| ==> sep !in parts[k]
    ensures Split(Join(parts, sep), sep) == parts
    decreases |parts|, |parts[0]|
  {
    if parts[0] == [] {
      if |parts| > 1 {
        SplitJoin(parts[1..], sep);
        var j := Join(parts, sep);
        assert j == [sep] + Join(parts[1..], sep);
        assert j[1..] == Join(parts[1..], sep);
        assert [parts[0]] + parts[1..] == parts;
      }
    } else {
      var c := parts[0][0];
      var shorter := parts[0 := parts[0][1..]];
      assert sep !in shorter[0] by {
        assert forall x :: x in parts[0][1..] ==> x in parts[0];
      }
      SplitJoin(shorter, sep);
      var j := Join(parts, sep);
      assert c != sep by { assert c in parts[0]; }
      if |parts| == 1 {
        assert j == [c] + shorter[0];
        assert j[1..] == Join(shorter, sep);
      } else {
        assert shorter[1..] == parts[1..];
        assert j == [c] + (shorter[0] + [sep] + Join(parts[1..], sep));
        assert j[1..] == Join(shorter, sep);
      }
      assert [c] + shorter[0] == parts[0];
      assert [[c] + shorter[0]] + parts[1..] == parts;
    }
  }
}
