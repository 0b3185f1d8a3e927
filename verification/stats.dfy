/**
 * The editor's live statistics (`updateStats`): a snapshot computed from
 * the editor's rendered text, its markup and the keyword of the session.
 */
module Stats {
  import opened Text
  import opened Matching
  import opened Wrappers

  /** The live statistics shown beside the editor. */
  datatype Snapshot = Snapshot(
    words: nat,        // length of the trimmed text, in UTF-16 code units
    keywords: nat,     // matches of the keyword in the text
    density: real,     // keyword matches per hundred counted characters
    h1: nat, h2: nat, h3: nat,
    imgs: nat,
    readingTime: nat   // minutes, at 400 counted characters a minute
  )

  /** The all-zero snapshot the editor starts with. */
  const Initial := Snapshot(0, 0, 0.0, 0, 0, 0, 0, 0)

  /** Counted characters read per minute. */
  const CharsPerMinute: nat := 400

  /** The markup patterns whose matches give the heading and image counts. */
  const H1Tag := "<h1"
  const H2Tag := "<h2"
  const H3Tag := "<h3"
  const ImgTag := "<img"

  /** What the statistics read from the editor: its `innerText` and its `innerHTML`. */
  datatype Editor = Editor(text: string, html: string)

  /** `Math.ceil(words / 400)`: the fewest whole minutes that cover the counted characters. */
  function ReadingTime(words: nat): (m: nat)
    ensures m * CharsPerMinute >= words
    ensures m > 0 ==> (m - 1) * CharsPerMinute < words
  {
    (words + CharsPerMinute - 1) / CharsPerMinute
  }

  /**
   * Matches of the keyword in the text; none for an empty keyword.
   *
   * The source hands the keyword to `new RegExp(keywords, 'gi')`, so there
   * regular-expression metacharacters in the keyword act as operators and a
   * malformed pattern throws before any count is taken. This model matches
   * the keyword as a literal string.
   */
  function KeywordCount(text: string, keyword: string): (n: nat)
    ensures keyword == [] ==> n == 0
    ensures keyword != [] ==> n == Count(text, keyword)
    ensures keyword != [] ==> (n == 0 <==> !Occurs(text, keyword))
    ensures n * |keyword| <= |text|
  {
    if keyword == [] then 0
    else
      CountZeroIff(text, keyword);
      Count(text, keyword)
  }

  /** Keyword matches as a percentage of the counted characters, and 0 when there are none. */
  function Density(kwCount: nat, words: nat): (d: real)
    ensures d >= 0.0
    ensures words == 0 || kwCount == 0 ==> d == 0.0
    ensures words > 0 ==> d * words as real == kwCount as real * 100.0
  {
    if words > 0 then (kwCount as real / words as real) * 100.0 else 0.0
  }

  /** Matches of a markup pattern, ignoring case; zero exactly when the pattern does not occur. */
  function TagCount(html: string, tag: string): (n: nat)
    requires |tag| > 0
    ensures n == Count(html, tag)
    ensures n == 0 <==> !Occurs(html, tag)
  {
    CountZeroIff(html, tag);
    Count(html, tag)
  }

  /** The snapshot for one state of the editor. */
  function Compute(text: string, html: string, keyword: string): (r: Snapshot)
    ensures r.words == 0 <==> AllSpace(text)
    ensures r.words == Utf16Length(Trim(text)) && r.words >= |Trim(text)|
    ensures r.readingTime * CharsPerMinute >= r.words
    ensures r.readingTime > 0 ==> (r.readingTime - 1) * CharsPerMinute < r.words
    ensures r.keywords == KeywordCount(text, keyword)
    ensures keyword == [] ==> r.keywords == 0 && r.density == 0.0
    ensures keyword != [] ==> (r.keywords == 0 <==> !Occurs(text, keyword))
    ensures r.words == 0 ==> r.density == 0.0
    ensures r.words > 0 ==> r.density == r.keywords as real / r.words as real * 100.0
    ensures r.h1 == 0 <==> !Occurs(html, H1Tag)
    ensures r.h2 == 0 <==> !Occurs(html, H2Tag)
    ensures r.h3 == 0 <==> !Occurs(html, H3Tag)
    ensures r.imgs == 0 <==> !Occurs(html, ImgTag)
    ensures r.h1 == Count(html, H1Tag) && r.h2 == Count(html, H2Tag)
    ensures r.h3 == Count(html, H3Tag) && r.imgs == Count(html, ImgTag)
  {
    var words := Utf16Length(Trim(text));
    var kwCount := KeywordCount(text, keyword);
    var minutes := ReadingTime(words);
    assert |H1Tag| == 3 && |H2Tag| == 3 && |H3Tag| == 3 && |ImgTag| == 4;
    var h1 := TagCount(html, H1Tag);
    var h2 := TagCount(html, H2Tag);
    var h3 := TagCount(html, H3Tag);
    var imgs := TagCount(html, ImgTag);
    var density := Density(kwCount, words);
    assert words > 0 ==> density == kwCount as real / words as real * 100.0;
    Snapshot(words, kwCount, density, h1, h2, h3, imgs, minutes)
  }

  /** `updateStats`: without a mounted editor the previous snapshot stays. */
  function Update(prev: Snapshot, editor: Option<Editor>, keyword: string): (r: Snapshot)
    ensures editor.None? ==> r == prev
    ensures editor.Some? ==> r == Compute(editor.value.text, editor.value.html, keyword)
  {
    match editor
    case None => prev
    case Some(e) => Compute(e.text, e.html, keyword)
  }

  /**
   * With a mounted editor the snapshot depends only on the editor and the
   * keyword: the previous one is discarded, so updating twice is updating
   * once.
   */
  lemma UpdateIgnoresPrevious(p: Snapshot, q: Snapshot, editor: Option<Editor>, keyword: string)
    requires editor.Some?
    ensures Update(p, editor, keyword) == Update(q, editor, keyword)
    ensures Update(Update(p, editor, keyword), editor, keyword) == Update(p, editor, keyword)
  {
  }

  /** A tag written once in otherwise empty markup is counted once. */
  lemma OneTagCountsOne(tag: string)
    requires |tag| > 0
    ensures TagCount(tag, tag) == 1
  {
    assert MatchAt(tag, 0, tag) by {
      assert tag[0..|tag|] == tag;
    }
    CountZeroIff(tag, tag);
  }

  /** The all-zero snapshot the editor starts with is the one an empty editor gives, whatever the keyword. */
  lemma InitialIsEmptyEditor(prev: Snapshot, keyword: string)
    ensures Update(prev, Some(Editor([], [])), keyword) == Initial
  {
  }

  /** Heading and image counts do not depend on the case of the markup. */
  lemma {:induction false} TagCountsIgnoreCase(text: string, html: string, keyword: string)
    ensures Compute(text, CanonStr(html), keyword).h1 == Compute(text, html, keyword).h1
    ensures Compute(text, CanonStr(html), keyword).h2 == Compute(text, html, keyword).h2
    ensures Compute(text, CanonStr(html), keyword).h3 == Compute(text, html, keyword).h3
    ensures Compute(text, CanonStr(html), keyword).imgs == Compute(text, html, keyword).imgs
  {
    CountIgnoresCase(html, H1Tag);
    CountIgnoresCase(html, H2Tag);
    CountIgnoresCase(html, H3Tag);
    CountIgnoresCase(html, ImgTag);
  }

  /**
   * Heading and image counts add up when two pieces of markup are joined,
   * provided no tag is split across the join.
   */
  lemma {:induction false} TagCountsAdd(text: string, a: string, b: string, keyword: string)
    requires NoStraddle(a, b, H1Tag) && NoStraddle(a, b, H2Tag)
    requires NoStraddle(a, b, H3Tag) && NoStraddle(a, b, ImgTag)
    ensures Compute(text, a + b, keyword).h1 == Compute(text, a, keyword).h1 + Compute(text, b, keyword).h1
    ensures Compute(text, a + b, keyword).h2 == Compute(text, a, keyword).h2 + Compute(text, b, keyword).h2
    ensures Compute(text, a + b, keyword).h3 == Compute(text, a, keyword).h3 + Compute(text, b, keyword).h3
    ensures Compute(text, a + b, keyword).imgs == Compute(text, a, keyword).imgs + Compute(text, b, keyword).imgs
  {
    CountConcat(a, b, H1Tag);
    CountConcat(a, b, H2Tag);
    CountConcat(a, b, H3Tag);
    CountConcat(a, b, ImgTag);
  }

  /** Text inside the Basic Multilingual Plane is counted one unit per character. */
  lemma {:induction false} BmpLength(s: string)
    requires forall i :: 0 <= i < |s| ==> s[i] as int <= 0xFFFF
    ensures Utf16Length(s) == |s|
  {
    if s != [] {
      BmpLength(s[1..]);
    }
  }

}
