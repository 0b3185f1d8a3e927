/**
 * Turning the competitor textarea into the URL list handed to the AI
 * gateway: split on newlines, drop lines that are blank once trimmed, keep
 * at most the first ten.
 */
module Competitors {
  import opened Text

  /** How many competitor URLs are sent to the gateway at most. */
  const MaxCompetitors: nat := 10

  /** The lines that are not blank after trimming, in their original order. */
  function NonBlank(lines: seq<string>): (r: seq<string>)
    ensures |r| <= |lines|
    ensures forall i :: 0 <= i < |r| ==> !IsBlank(r[i])
  {
    if lines == [] then []
    else (if IsBlank(lines[0]) then [] else [lines[0]]) + NonBlank(lines[1..])
  }

  lemma ConcatAssoc(x: seq<string>, y: seq<string>, z: seq<string>)
    ensures x + (y + z) == (x + y) + z
  {
  }

  /** Filtering distributes over concatenation, so it keeps the relative order of the lines it keeps. */
  lemma {:induction false} NonBlankConcat(a: seq<string>, b: seq<string>)
    ensures NonBlank(a + b) == NonBlank(a) + NonBlank(b)
  {
    if a == [] {
      assert a + b == b;
    } else {
      var head := if IsBlank(a[0]) then [] else [a[0]];
      assert (a + b)[0] == a[0];
      assert (a + b)[1..] == a[1..] + b;
      NonBlankConcat(a[1..], b);
      ConcatAssoc(head, NonBlank(a[1..]), NonBlank(b));
    }
  }

  /** Filtering drops every blank line and keeps every other line as often as it occurs. */
  lemma NonBlankKeepsExactly(lines: seq<string>)
    ensures forall x :: multiset(NonBlank(lines))[x] == if IsBlank(x) then 0 else multiset(lines)[x]
  {
    forall x ensures multiset(NonBlank(lines))[x] == if IsBlank(x) then 0 else multiset(lines)[x] {
      NonBlankKeepsCopies(lines, x);
    }
  }

  /** How many copies of one line the filter keeps: none if it is blank, all of them otherwise. */
  lemma NonBlankKeepsCopies(lines: seq<string>, x: string)
    ensures multiset(NonBlank(lines))[x] == if IsBlank(x) then 0 else multiset(lines)[x]
  {
    if IsBlank(x) {
      assert x !in NonBlank(lines);
    } else {
      NonBlankKeepsLine(lines, x);
    }
  }

  /** A line that is not blank is kept as often as it occurs. */
  lemma {:induction false} NonBlankKeepsLine(lines: seq<string>, x: string)
    requires !IsBlank(x)
    ensures multiset(NonBlank(lines))[x] == multiset(lines)[x]
  {
    if lines != [] {
      NonBlankKeepsLine(lines[1..], x);
      MultisetHead(lines, x);
      if !IsBlank(lines[0]) {
        MultisetHead(NonBlank(lines), x);
      }
    }
  }

  /** Counting copies of `x` in a non-empty list: the first line, then the rest. */
  lemma MultisetHead(lines: seq<string>, x: string)
    requires lines != []
    ensures multiset(lines)[x] == (if lines[0] == x then 1 else 0) + multiset(lines[1..])[x]
  {
    assert lines == [lines[0]] + lines[1..];
  }

  /** The list of competitor URLs sent to the gateway (`startAnalysis`). */
  function Normalize(text: string): (urls: seq<string>)
    ensures |urls| <= MaxCompetitors
    ensures forall i :: 0 <= i < |urls| ==> !IsBlank(urls[i])
    ensures urls <= NonBlank(Split(text, '\n'))
    ensures |urls| == if |NonBlank(Split(text, '\n'))| < MaxCompetitors then |NonBlank(Split(text, '\n'))| else MaxCompetitors
  {
    var lines := NonBlank(Split(text, '\n'));
    if |lines| <= MaxCompetitors then lines else lines[..MaxCompetitors]
  }

  /** Every character of a joined text is the separator or a character of one of the pieces. */
  lemma {:induction false} JoinChars(parts: seq<string>, sep: char, j: nat)
    requires |parts| >= 1
    requires j < |Join(parts, sep)|
    ensures Join(parts, sep)[j] == sep || exists i, k :: 0 <= i < |parts| && 0 <= k < |parts[i]| && parts[i][k] == Join(parts, sep)[j]
  {
    var s := Join(parts, sep);
    if |parts| > 1 && j >= |parts[0]| + 1 {
      var rest := Join(parts[1..], sep);
      assert s == parts[0] + [sep] + rest;
      assert s[j] == rest[j - |parts[0]| - 1];
      JoinChars(parts[1..], sep, j - |parts[0]| - 1);
      if s[j] != sep {
        var i, k :| 0 <= i < |parts[1..]| && 0 <= k < |parts[1..][i]| && parts[1..][i][k] == s[j];
        assert parts[i + 1][k] == s[j];
      }
    } else if |parts| > 1 && j < |parts[0]| {
      assert s[j] == parts[0][j];
    }
  }

  /** A character of one piece of a split is a character of the text. */
  lemma {:induction false} SplitChars(text: string, sep: char, i: nat, k: nat)
    requires i < |Split(text, sep)| && k < |Split(text, sep)[i]|
    ensures Split(text, sep)[i][k] in text
  {
    var parts := Split(text, sep);
    JoinSplit(text, sep);
    JoinCharsBack(parts, sep, i, k);
  }

  /** Each character of each piece appears in the joined text. */
  lemma {:induction false} JoinCharsBack(parts: seq<string>, sep: char, i: nat, k: nat)
    requires i < |parts| && k < |parts[i]|
    ensures parts[i][k] in Join(parts, sep)
  {
    if |parts| > 1 {
      var rest := Join(parts[1..], sep);
      assert Join(parts, sep) == parts[0] + [sep] + rest;
      if i == 0 {
        assert Join(parts, sep)[k] == parts[0][k];
      } else {
        JoinCharsBack(parts[1..], sep, i - 1, k);
        var j :| 0 <= j < |rest| && rest[j] == parts[i][k];
        assert Join(parts, sep)[|parts[0]| + 1 + j] == parts[i][k];
      }
    }
  }

  /**
   * The URL list is empty exactly when the textarea holds nothing but white
   * space (line breaks included).
   */
  lemma NormalizeEmptyIff(text: string)
    ensures Normalize(text) == [] <==> AllSpace(text)
  {
    var lines := Split(text, '\n');
    NonBlankKeepsExactly(lines);
    if AllSpace(text) {
      forall i | 0 <= i < |lines| ensures IsBlank(lines[i]) {
        forall k | 0 <= k < |lines[i]| ensures IsSpace(lines[i][k]) {
          SplitChars(text, '\n', i, k);
        }
      }
    } else {
      var j :| 0 <= j < |text| && !IsSpace(text[j]);
      JoinSplit(text, '\n');
      JoinChars(lines, '\n', j);
      var i, k :| 0 <= i < |lines| && 0 <= k < |lines[i]| && lines[i][k] == text[j];
      assert !IsBlank(lines[i]);
      assert multiset(lines)[lines[i]] > 0;
      assert lines[i] in multiset(NonBlank(lines));
    }
  }

}
