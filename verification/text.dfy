/**
 * The JavaScript string primitives the planner relies on: `trim`, `split`
 * on one character, `length` in UTF-16 code units, and the case folding
 * a case-insensitive regular expression applies to each character.
 */
module Text {

  /** The WhiteSpace and LineTerminator code points of ECMAScript: what `String.prototype.trim` strips. */
  predicate IsSpace(c: char) {
    || c == '\t' || c == '\n' || c == '\U{000B}' || c == '\U{000C}' || c == '\r' || c == ' '
    || c == '\U{00A0}' || c == '\U{1680}' || ('\U{2000}' <= c && c <= '\U{200A}')
    || c == '\U{2028}' || c == '\U{2029}' || c == '\U{202F}' || c == '\U{205F}'
    || c == '\U{3000}' || c == '\U{FEFF}'
  }

  /** Every character of `s` is white space (vacuously so for the empty string). */
  predicate AllSpace(s: string) {
    forall i :: 0 <= i < |s| ==> IsSpace(s[i])
  }

  /** Drops leading white space: the result is the suffix of `s` that starts at its first non-space character. */
  function TrimStart(s: string): (r: string)
    ensures |r| <= |s| && r == s[|s| - |r|..]
    ensures r == [] || !IsSpace(r[0])
    ensures forall i :: 0 <= i < |s| - |r| ==> IsSpace(s[i])
  {
    if |s| > 0 && IsSpace(s[0]) then TrimStart(s[1..]) else s
  }

  /** Drops trailing white space: the result is the prefix of `s` that ends at its last non-space character. */
  function TrimEnd(s: string): (r: string)
    ensures |r| <= |s| && r == s[..|r|]
    ensures r == [] || !IsSpace(r[|r| - 1])
    ensures forall i :: |r| <= i < |s| ==> IsSpace(s[i])
  {
    if |s| > 0 && IsSpace(s[|s| - 1]) then TrimEnd(s[..|s| - 1]) else s
  }

  /**
   * `r` is the slice of `s` that starts at `i`, and everything of `s` before
   * and after that slice is white space.
   */
  predicate SliceBetweenSpace(s: string, r: string, i: int) {
    && 0 <= i && i + |r| <= |s|
    && r == s[i..i + |r|]
    && AllSpace(s[..i])
    && AllSpace(s[i + |r|..])
  }

  /** Trimming the start and then the end keeps one slice of the input and drops only white space around it. */
  lemma TrimKeepsSlice(s: string)
    ensures SliceBetweenSpace(s, TrimEnd(TrimStart(s)), |s| - |TrimStart(s)|)
  {
    var t := TrimStart(s);
    DroppedFrontIsSpace(s);
    DroppedBackIsSpace(t);
    SuffixThenPrefix(s, t, TrimEnd(t));
  }

  /** A prefix `r` of a suffix `t` of `s` is a slice of `s`, with `s`'s remaining ends around it. */
  lemma SuffixThenPrefix(s: string, t: string, r: string)
    requires |t| <= |s| && t == s[|s| - |t|..]
    requires |r| <= |t| && r == t[..|r|]
    requires AllSpace(s[..|s| - |t|]) && AllSpace(t[|r|..])
    ensures SliceBetweenSpace(s, r, |s| - |t|)
  {
    var i := |s| - |t|;
    assert r == s[i..i + |r|];
    assert s[i + |r|..] == t[|r|..];
  }

  lemma DroppedFrontIsSpace(s: string)
    ensures AllSpace(s[..|s| - |TrimStart(s)|])
  {
    var front := s[..|s| - |TrimStart(s)|];
    forall j | 0 <= j < |front| ensures IsSpace(front[j]) {
      assert front[j] == s[j];
    }
  }

  lemma DroppedBackIsSpace(t: string)
    ensures AllSpace(t[|TrimEnd(t)|..])
  {
    var n := |TrimEnd(t)|;
    var back := t[n..];
    forall j | 0 <= j < |back| ensures IsSpace(back[j]) {
      assert back[j] == t[n + j];
    }
  }

  /** `String.prototype.trim`. */
  function Trim(s: string): (r: string)
    ensures |r| <= |s|
    ensures r == [] <==> AllSpace(s)
    ensures r != [] ==> !IsSpace(r[0]) && !IsSpace(r[|r| - 1])
    ensures exists i :: SliceBetweenSpace(s, r, i)
  {
    var t := TrimStart(s);
    var r := TrimEnd(t);
    assert r != [] ==> !IsSpace(r[0]) by {
      if r != [] {
        assert r[0] == t[0];
      }
    }
    TrimKeepsSlice(s);
    r
  }

  /** The source's test for a blank competitor line: `u.trim() !== ''` fails. */
  predicate IsBlank(s: string)
    ensures IsBlank(s) <==> AllSpace(s)
  {
    Trim(s) == []
  }

  /** Number of UTF-16 code units of one character: characters beyond the Basic Multilingual Plane take a surrogate pair. */
  function Utf16Units(c: char): nat {
    if c as int > 0xFFFF then 2 else 1
  }

  /** JavaScript's `length` of a string: UTF-16 code units, not characters. */
  function Utf16Length(s: string): (n: nat)
    ensures |s| <= n <= 2 * |s|
    ensures n == 0 <==> s == []
  {
    if s == [] then 0 else Utf16Units(s[0]) + Utf16Length(s[1..])
  }

  /** A character beyond the Basic Multilingual Plane counts as two code units. */
  lemma Utf16LengthAstral(c: char)
    requires c as int > 0xFFFF
    ensures Utf16Length([c]) == 2
  {
    assert [c][1..] == [];
  }

  /** The code units of joined strings are those of the parts. */
  lemma {:induction false} Utf16LengthConcat(a: string, b: string)
    ensures Utf16Length(a + b) == Utf16Length(a) + Utf16Length(b)
  {
    if a == [] {
      assert a + b == b;
    } else {
      assert (a + b)[0] == a[0];
      assert (a + b)[1..] == a[1..] + b;
      Utf16LengthConcat(a[1..], b);
    }
  }

  /**
   * The per-character canonicalisation of a case-insensitive, non-Unicode
   * regular expression, restricted to ASCII: lower-case letters map to
   * upper case and every other character maps to itself.
   */
  function Canon(c: char): char {
    if 'a' <= c <= 'z' then (c as int - 32) as char else c
  }

  function CanonStr(s: string): (r: string)
    ensures |r| == |s|
    ensures forall i :: 0 <= i < |s| ==> r[i] == Canon(s[i])
  {
    seq(|s|, i requires 0 <= i < |s| => Canon(s[i]))
  }

  /** Two strings that a case-insensitive pattern cannot tell apart. */
  predicate SameIgnoringCase(a: string, b: string) {
    |a| == |b| && forall i :: 0 <= i < |a| ==> Canon(a[i]) == Canon(b[i])
  }

  /** `String.prototype.split(sep)` for a one-character separator: the pieces between separators, at least one. */
  function Split(s: string, sep: char): (r: seq<string>)
    ensures |r| >= 1
    ensures forall i :: 0 <= i < |r| ==> sep !in r[i]
  {
    if |s| == 0 then [""]
    else
      var rest := Split(s[1..], sep);
      if s[0] == sep then [""] + rest
      else [[s[0]] + rest[0]] + rest[1..]
  }

  /** `Array.prototype.join(sep)`: the inverse of `Split`. */
  function Join(parts: seq<string>, sep: char): string
    requires |parts| >= 1
  {
    if |parts| == 1 then parts[0] else parts[0] + [sep] + Join(parts[1..], sep)
  }

  /** Splitting loses nothing: joining the pieces back with the separator gives the original text. */
  lemma {:induction false} JoinSplit(s: string, sep: char)
    ensures Join(Split(s, sep), sep) == s
  {
    if |s| > 0 {
      var rest := Split(s[1..], sep);
      JoinSplit(s[1..], sep);
      if s[0] == sep {
        assert Split(s, sep) == [""] + rest;
        assert ([""] + rest)[1..] == rest;
        assert s == [sep] + s[1..];
      } else if |rest| == 1 {
        assert s == [s[0]] + s[1..];
      } else {
        var r := [[s[0]] + rest[0]] + rest[1..];
        assert r[1..] == rest[1..];
        assert Join(rest, sep) == rest[0] + [sep] + Join(rest[1..], sep);
        assert s == [s[0]] + s[1..];
      }
    }
  }

  /** Splitting a text whose first piece holds no separator puts that piece in front of the first piece of the rest. */
  lemma {:induction false} SplitPrefix(a: string, t: string, sep: char)
    requires sep !in a
    ensures Split(a + t, sep) == [a + Split(t, sep)[0]] + Split(t, sep)[1..]
  {
    if |a| > 0 {
      var st := Split(t, sep);
      assert (a + t)[1..] == a[1..] + t;
      SplitPrefix(a[1..], t, sep);
      var rest := Split(a[1..] + t, sep);
      assert rest == [a[1..] + st[0]] + st[1..];
      assert (a + t)[0] == a[0] && a[0] != sep;
      assert Split(a + t, sep) == [[a[0]] + rest[0]] + rest[1..];
      assert [a[0]] + (a[1..] + st[0]) == a + st[0];
    } else {
      assert a + t == t;
      assert a + Split(t, sep)[0] == Split(t, sep)[0];
      assert Split(t, sep) == [Split(t, sep)[0]] + Split(t, sep)[1..];
    }
  }

  /** Joining separator-free pieces and splitting again gives the same pieces back. */
  lemma {:induction false} SplitJoin(parts: seq<string>, sep: char)
    requires |parts| >= 1
    requires forall i :: 0 <= i < |parts| ==> sep !in parts[i]
    ensures Split(Join(parts, sep), sep) == parts
  {
    if |parts| == 1 {
      SplitPrefix(parts[0], "", sep);
      assert parts[0] + "" == parts[0];
    } else {
      var u := Join(parts[1..], sep);
      SplitJoin(parts[1..], sep);
      assert parts[0] + [sep] + u == parts[0] + ([sep] + u);
      SplitPrefix(parts[0], [sep] + u, sep);
      assert ([sep] + u)[1..] == u;
      assert Split([sep] + u, sep) == [""] + parts[1..];
      assert parts[0] + "" == parts[0];
      assert parts == [parts[0]] + parts[1..];
    }
  }

}
