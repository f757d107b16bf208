/**
 * The three string operations the tracker relies on, written out as Python
 * defines them: `str.strip()`, `str.split(sep)` with one separator character,
 * and `sep.join(parts)`.
 */
module Text {

  /** Python's `str.isspace()` for one character. */
  predicate IsSpace(c: char) {
    var n := c as int;
    (9 <= n <= 13) || (28 <= n <= 32) || n == 0x85 || n == 0xA0 || n == 0x1680
    || (0x2000 <= n <= 0x200A) || n == 0x2028 || n == 0x2029 || n == 0x202F
    || n == 0x205F || n == 0x3000
  }

  predicate AllSpace(s: string) {
    forall k :: 0 <= k < |s| ==> IsSpace(s[k])
  }

  /** Neither end of `s` is whitespace. */
  predicate IsTrimmed(s: string) {
    s == [] || (!IsSpace(s[0]) && !IsSpace(s[|s| - 1]))
  }

  /** `r` is the stretch of `s` that starts at `i`, and only whitespace lies outside it. */
  predicate TrimmedAt(s: string, r: string, i: int) {
    0 <= i && i + |r| <= |s| && r == s[i..i + |r|]
    && AllSpace(s[..i]) && AllSpace(s[i + |r|..])
  }

  /** Python's `str.lstrip()`: drops the leading whitespace. */
  function LeftStrip(s: string): (r: string)
    ensures |r| <= |s| && r == s[|s| - |r|..]
    ensures AllSpace(s[..|s| - |r|])
    ensures r == [] || !IsSpace(r[0])
  {
    if s == [] || !IsSpace(s[0]) then s else LeftStrip(s[1..])
  }

  /** Python's `str.rstrip()`: drops the trailing whitespace. */
  function RightStrip(s: string): (r: string)
    ensures |r| <= |s| && r == s[..|r|]
    ensures AllSpace(s[|r|..])
    ensures r == [] || !IsSpace(r[|r| - 1])
  {
    if s == [] || !IsSpace(s[|s| - 1]) then s else RightStrip(s[..|s| - 1])
  }

  /** Python's `str.strip()`: the text between the leading and the trailing whitespace. */
  function Strip(s: string): (r: string)
    ensures IsTrimmed(r)
    ensures exists i :: TrimmedAt(s, r, i)
  {
    var l := LeftStrip(s);
    var r := RightStrip(l);
    StripMargins(s, l, r);
    r
  }

  /** Right-stripping the left-stripped text leaves only whitespace on both sides of the result. */
  lemma StripMargins(s: string, l: string, r: string)
    requires |l| <= |s| && l == s[|s| - |l|..] && AllSpace(s[..|s| - |l|])
    requires |r| <= |l| && r == l[..|r|] && AllSpace(l[|r|..])
    ensures TrimmedAt(s, r, |s| - |l|)
  {
    var i := |s| - |l|;
    assert r == s[i..i + |r|];
    assert s[i + |r|..] == l[|r|..];
  }

  /** Stripping twice is stripping once. */
  lemma StripIdempotent(s: string)
    ensures Strip(Strip(s)) == Strip(s)
  {
  }

  /** Stripping only removes characters, so a character absent from `s` is absent from the result. */
  lemma StripAbsent(s: string, c: char)
    requires c !in s
    ensures c !in Strip(s)
  {
  }

  /** Number of occurrences of `c` in `s`. */
  function CountChar(s: string, c: char): nat {
    if s == [] then 0 else (if s[0] == c then 1 else 0) + CountChar(s[1..], c)
  }

  /**
   * Python's `s.split(sep)` for a one-character separator: the pieces between
   * separators, empty ones included, so there is always one more piece than
   * there are separators.
   */
  function Split(s: string, sep: char): (parts: seq<string>)
    ensures |parts| == CountChar(s, sep) + 1
    ensures forall k :: 0 <= k < |parts| ==> sep !in parts[k]
  {
    if s == [] then [""]
    else
      var rest := Split(s[1..], sep);
      if s[0] == sep then [""] + rest
      else [[s[0]] + rest[0]] + rest[1..]
  }

  /** Python's `sep.join(parts)`. Its properties are the round trips with `Split` below. */
  function Join(parts: seq<string>, sep: string): string {
    if |parts| == 0 then ""
    else if |parts| == 1 then parts[0]
    else parts[0] + sep + Join(parts[1..], sep)
  }

  /** Putting a character in front of the first part puts it in front of the join. */
  lemma JoinPrepend(c: char, parts: seq<string>, sep: string)
    requires |parts| >= 1
    ensures Join([[c] + parts[0]] + parts[1..], sep) == [c] + Join(parts, sep)
  {
    var q := [[c] + parts[0]] + parts[1..];
    if |parts| > 1 {
      assert q[1..] == parts[1..];
    }
  }

  /** Joining the pieces back with the separator gives the original string. */
  lemma {:induction false} JoinSplit(s: string, sep: char)
    ensures Join(Split(s, sep), [sep]) == s
  {
    if s != [] {
      var rest := Split(s[1..], sep);
      JoinSplit(s[1..], sep);
      if s[0] == sep {
        assert Split(s, sep) == [""] + rest;
        assert ([""] + rest)[1..] == rest;
      } else {
        assert Split(s, sep) == [[s[0]] + rest[0]] + rest[1..];
        JoinPrepend(s[0], rest, [sep]);
        assert [s[0]] + s[1..] == s;
      }
    }
  }

  /** A prefix free of the separator only lengthens the first piece. */
  lemma {:induction false} SplitFreePrefix(a: string, t: string, sep: char)
    requires sep !in a
    ensures Split(a + t, sep) == [a + Split(t, sep)[0]] + Split(t, sep)[1..]
  {
    var rest := Split(t, sep);
    if a == [] {
      assert a + t == t && a + rest[0] == rest[0];
      assert [rest[0]] + rest[1..] == rest;
    } else {
      assert (a + t)[0] == a[0] && (a + t)[1..] == a[1..] + t;
      SplitFreePrefix(a[1..], t, sep);
      assert Split(a[1..] + t, sep) == [a[1..] + rest[0]] + rest[1..];
      assert [a[0]] + (a[1..] + rest[0]) == a + rest[0];
    }
  }

  /** Splitting pieces that hold no separator, once joined, gives them back. */
  lemma {:induction false} SplitJoin(parts: seq<string>, sep: char)
    requires |parts| >= 1
    requires forall k :: 0 <= k < |parts| ==> sep !in parts[k]
    ensures Split(Join(parts, [sep]), sep) == parts
  {
    if |parts| == 1 {
      SplitFreePrefix(parts[0], "", sep);
      assert parts[0] + "" == parts[0];
    } else {
      var tail := Join(parts[1..], [sep]);
      SplitJoin(parts[1..], sep);
      assert Join(parts, [sep]) == parts[0] + ([sep] + tail);
      SplitFreePrefix(parts[0], [sep] + tail, sep);
      assert ([sep] + tail)[1..] == tail;
      assert Split([sep] + tail, sep) == [""] + parts[1..];
      assert parts[0] + "" == parts[0];
      assert [parts[0]] + parts[1..] == parts;
    }
  }
}
