/// `build_html_from_vocabulary` (viewer.py): the digest of a selection of
/// vocabulary entries, as plain text (one line per entry) and as a small HTML
/// page (one list item per entry), each joined with newlines.
module Digest {
  import opened Common

  /** One selected vocabulary entry: the items of its dict. */
  type Entry = seq<(string, Json)>

  /** `"\n".join(xs)`. */
  function JoinLines(xs: seq<string>): string
  {
    if xs == [] then ""
    else if |xs| == 1 then xs[0]
    else xs[0] + "\n" + JoinLines(xs[1..])
  }

  /** `s.split("\n")`: always at least one part, an empty text giving [""]. */
  function SplitLines(s: string): (r: seq<string>)
    ensures |r| >= 1
  {
    if s == [] then [""]
    else
      var rest := SplitLines(s[1..]);
      if s[0] == '\n' then [""] + rest
      else [[s[0]] + rest[0]] + rest[1..]
  }

  /** A text free of newlines glues onto the first part of what follows it. */
  lemma {:induction false} SplitLinesPrefix(x: string, t: string)
    requires '\n' !in x
    ensures SplitLines(x + t) == [x + SplitLines(t)[0]] + SplitLines(t)[1..]
    decreases |x|
  {
    var rest := SplitLines(t);
    if x == [] {
      assert x + t == t && x + rest[0] == rest[0];
      assert rest == [rest[0]] + rest[1..];
    } else {
      assert (x + t)[0] == x[0];
      assert (x + t)[1..] == x[1..] + t;
      SplitLinesPrefix(x[1..], t);
      assert [x[0]] + (x[1..] + rest[0]) == x + rest[0];
    }
  }

  /** Splitting undoes joining, for at least one line and lines without newlines. */
  lemma {:induction false} SplitJoinLines(xs: seq<string>)
    requires |xs| >= 1
    requires forall i :: 0 <= i < |xs| ==> '\n' !in xs[i]
    ensures SplitLines(JoinLines(xs)) == xs
  {
    if |xs| == 1 {
      SplitLinesPrefix(xs[0], "");
      assert xs[0] + "" == xs[0];
    } else {
      var t := JoinLines(xs[1..]);
      SplitJoinLines(xs[1..]);
      assert ("\n" + t)[0] == '\n' && ("\n" + t)[1..] == t;
      assert SplitLines("\n" + t) == [""] + xs[1..];
      assert JoinLines(xs) == xs[0] + ("\n" + t);
      SplitLinesPrefix(xs[0], "\n" + t);
      assert xs[0] + "" == xs[0];
      assert xs == [xs[0]] + xs[1..];
    }
  }

  /** `f"{w.get(key, '')}"`. */
  function Text(e: Entry, key: string, o: Oracles): string
  {
    Show(Get(e, key, Str("")), o)
  }

  /** A key the entry does not hold reads as the empty text. */
  lemma MissingKeyReadsEmpty(e: Entry, key: string, o: Oracles)
    requires forall i :: 0 <= i < |e| ==> e[i].0 != key
    ensures Text(e, key, o) == ""
  {
    GetFirstBinding(e, key, Str(""));
  }

  function PlainLine(e: Entry, o: Oracles): string
  {
    "- " + Text(e, "word", o) + " | " + Text(e, "meaning", o) + " | " +
    Text(e, "phrase", o) + " | " + Text(e, "media", o)
  }

  function HtmlItem(e: Entry, o: Oracles): string
  {
    "<li><strong>" + Text(e, "word", o) + "</strong> &mdash; " + Text(e, "meaning", o) +
    "<br/><em>" + Text(e, "phrase", o) + "</em><br/><em>" + Text(e, "media", o) + "</em></li>"
  }

  const DigestHeader: seq<string> := ["<html><body>", "<h2>Today's Mailed Words</h2>", "<ul>"]
  const DigestFooter: seq<string> := ["</ul>", "</body></html>"]

  /** The plain lines of the digest, entry by entry. */
  function PlainLines(words: seq<Entry>, o: Oracles): seq<string>
  {
    if words == [] then []
    else PlainLines(words[..|words| - 1], o) + [PlainLine(words[|words| - 1], o)]
  }

  /** The list items of the HTML digest, entry by entry. */
  function HtmlItems(words: seq<Entry>, o: Oracles): seq<string>
  {
    if words == [] then []
    else HtmlItems(words[..|words| - 1], o) + [HtmlItem(words[|words| - 1], o)]
  }

  /** All lines of the HTML digest. */
  function HtmlLines(words: seq<Entry>, o: Oracles): seq<string>
  {
    DigestHeader + HtmlItems(words, o) + DigestFooter
  }

  /** Exactly one plain line per entry, in input order. */
  lemma {:induction false} PlainLinesInOrder(words: seq<Entry>, o: Oracles)
    ensures |PlainLines(words, o)| == |words|
    ensures forall i :: 0 <= i < |words| ==> PlainLines(words, o)[i] == PlainLine(words[i], o)
  {
    if words != [] {
      var init := words[..|words| - 1];
      PlainLinesInOrder(init, o);
      assert forall i :: 0 <= i < |init| ==> init[i] == words[i];
    }
  }

  /** Exactly one list item per entry, in input order. */
  lemma {:induction false} HtmlItemsInOrder(words: seq<Entry>, o: Oracles)
    ensures |HtmlItems(words, o)| == |words|
    ensures forall i :: 0 <= i < |words| ==> HtmlItems(words, o)[i] == HtmlItem(words[i], o)
  {
    if words != [] {
      var init := words[..|words| - 1];
      HtmlItemsInOrder(init, o);
      assert forall i :: 0 <= i < |init| ==> init[i] == words[i];
    }
  }

  /** The four texts of an entry, none holding a newline. */
  predicate SingleLine(e: Entry, o: Oracles)
  {
    '\n' !in Text(e, "word", o) && '\n' !in Text(e, "meaning", o) &&
    '\n' !in Text(e, "phrase", o) && '\n' !in Text(e, "media", o)
  }

  lemma PlainLineSingle(e: Entry, o: Oracles)
    requires SingleLine(e, o)
    ensures '\n' !in PlainLine(e, o)
  {
  }

  lemma HtmlItemSingle(e: Entry, o: Oracles)
    requires SingleLine(e, o)
    ensures '\n' !in HtmlItem(e, o)
  {
  }

  /** When no text holds a newline, the plain digest of a non-empty selection
      reads back as exactly one line per entry, in order. */
  lemma PlainDigestLines(words: seq<Entry>, o: Oracles)
    requires |words| > 0
    requires forall i :: 0 <= i < |words| ==> SingleLine(words[i], o)
    ensures var lines := SplitLines(JoinLines(PlainLines(words, o)));
            |lines| == |words| && forall i :: 0 <= i < |words| ==> lines[i] == PlainLine(words[i], o)
  {
    PlainLinesInOrder(words, o);
    var plain := PlainLines(words, o);
    forall i | 0 <= i < |plain| ensures '\n' !in plain[i] {
      PlainLineSingle(words[i], o);
    }
    SplitJoinLines(plain);
  }

  /** The HTML digest is the three header lines, one item per entry in order,
      `</ul>` and `</body></html>`. */
  lemma HtmlLinesShape(words: seq<Entry>, o: Oracles)
    ensures var html := HtmlLines(words, o);
            |html| == |words| + 5 &&
            html[..3] == DigestHeader &&
            (forall i :: 0 <= i < |words| ==> html[3 + i] == HtmlItem(words[i], o)) &&
            html[|words| + 3..] == DigestFooter
  {
    HtmlItemsInOrder(words, o);
    var items := HtmlItems(words, o);
    var html := HtmlLines(words, o);
    assert html == DigestHeader + items + DigestFooter;
    forall i | 0 <= i < |words| ensures html[3 + i] == HtmlItem(words[i], o) {
      assert html[3 + i] == items[i];
    }
    assert html[|words| + 3..] == DigestFooter;
  }

  /** No line of the HTML digest holds a newline when no text does. */
  lemma HtmlLinesSingle(words: seq<Entry>, o: Oracles)
    requires forall i :: 0 <= i < |words| ==> SingleLine(words[i], o)
    ensures forall i :: 0 <= i < |HtmlLines(words, o)| ==> '\n' !in HtmlLines(words, o)[i]
  {
    HtmlLinesShape(words, o);
    var html := HtmlLines(words, o);
    forall i | 0 <= i < |html| ensures '\n' !in html[i] {
      if i < 3 {
        assert html[i] == html[..3][i] == DigestHeader[i];
      } else if i < |words| + 3 {
        assert html[3 + (i - 3)] == HtmlItem(words[i - 3], o);
        HtmlItemSingle(words[i - 3], o);
      } else {
        assert html[i] == html[|words| + 3..][i - |words| - 3] == DigestFooter[i - |words| - 3];
      }
    }
  }

  /** When no text holds a newline, the HTML digest reads back as its lines:
      the three header lines, one item per entry in order, `</ul>` and `</body></html>`. */
  lemma HtmlDigestLines(words: seq<Entry>, o: Oracles)
    requires forall i :: 0 <= i < |words| ==> SingleLine(words[i], o)
    ensures var lines := SplitLines(JoinLines(HtmlLines(words, o)));
            |lines| == |words| + 5 &&
            lines[..3] == DigestHeader &&
            (forall i :: 0 <= i < |words| ==> lines[3 + i] == HtmlItem(words[i], o)) &&
            lines[|words| + 3..] == DigestFooter
  {
    HtmlLinesSingle(words, o);
    HtmlLinesShape(words, o);
    SplitJoinLines(HtmlLines(words, o));
  }

  /** `build_html_from_vocabulary`: the plain digest and the HTML digest. */
  method BuildHtmlFromVocabulary(words: seq<Entry>, o: Oracles) returns (plain: string, html: string)
    ensures plain == JoinLines(PlainLines(words, o))
    ensures html == JoinLines(HtmlLines(words, o))
  {
    var lines: seq<string> := [];
    var htmlLines := DigestHeader;
    for k := 0 to |words|
      invariant lines == PlainLines(words[..k], o)
      invariant htmlLines == DigestHeader + HtmlItems(words[..k], o)
    {
      var w := words[k];
      var word := Show(Get(w, "word", Str("")), o);
      var meaning := Show(Get(w, "meaning", Str("")), o);
      var phrase := Show(Get(w, "phrase", Str("")), o);
      var media := Show(Get(w, "media", Str("")), o);
      lines := lines + ["- " + word + " | " + meaning + " | " + phrase + " | " + media];
      htmlLines := htmlLines + ["<li><strong>" + word + "</strong> &mdash; " + meaning +
                                "<br/><em>" + phrase + "</em><br/><em>" + media + "</em></li>"];
      assert words[..k + 1][..k] == words[..k];
    }
    assert words[..|words|] == words;
    htmlLines := htmlLines + ["</ul>"];
    htmlLines := htmlLines + ["</body></html>"];
    assert htmlLines == DigestHeader + HtmlItems(words, o) + DigestFooter;
    plain := JoinLines(lines);
    html := JoinLines(htmlLines);
  }
}
