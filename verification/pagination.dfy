/** The text layout behind `GuiHandler._split_text_into_pages`: the text is
    split into paragraphs at line breaks, each paragraph is wrapped greedily
    character by character against a font width, and the resulting lines are
    grouped into pages of at most `maxLines` lines joined by line breaks.
    The font is abstract: `width(s)` is the rendered width of `s`. */
module Pagination {

  type Width = string -> nat

  /** `s.split('\n')`. */
  function SplitLines(s: string): (r: seq<string>)
    ensures |r| >= 1
    decreases |s|
  {
    if s == [] then [""]
    else if s[0] == '\n' then [""] + SplitLines(s[1..])
    else
      var t := SplitLines(s[1..]);
      [[s[0]] + t[0]] + t[1..]
  }

  /** `'\n'.join(ls)`. */
  function JoinLines(ls: seq<string>): (s: string)
    decreases |ls|
  {
    if ls == [] then ""
    else if |ls| == 1 then ls[0]
    else ls[0] + "\n" + JoinLines(ls[1..])
  }

  /** `''.join(ls)`, accumulated from the back as the lines are appended. */
  function Concat(ls: seq<string>): (s: string)
    decreases |ls|
  {
    if ls == [] then "" else Concat(ls[..|ls| - 1]) + ls[|ls| - 1]
  }

  predicate NoNewline(s: string)
  {
    '\n' !in s
  }

  /** The loop state of the inner loop: the lines produced so far and the
      line under construction (`all_lines`, `current_line`). */
  datatype WrapState = WrapState(lines: seq<string>, current: string)

  const Start := WrapState([], "")

  /** One character of the greedy wrap: extend the current line if it still
      fits; otherwise emit the current line and start a new one with the
      character, or, when the current line is empty, emit the character
      alone on a line of its own. */
  function WrapChar(st: WrapState, c: char, maxWidth: int, width: Width): (r: WrapState)
  {
    var test := st.current + [c];
    if width(test) <= maxWidth then WrapState(st.lines, test)
    else if st.current != "" then WrapState(st.lines + [st.current], [c])
    else WrapState(st.lines + [[c]], "")
  }

  /** The greedy wrap over a whole paragraph, from an initial state. */
  function WrapChars(st: WrapState, para: string, maxWidth: int, width: Width): (r: WrapState)
    decreases |para|
  {
    if para == [] then st
    else WrapChar(WrapChars(st, para[..|para| - 1], maxWidth, width), para[|para| - 1], maxWidth, width)
  }

  /** The lines one paragraph produces: the wrap, then the unfinished line
      if it is not empty. */
  function WrapParagraph(para: string, maxWidth: int, width: Width): (ls: seq<string>)
  {
    var st := WrapChars(Start, para, maxWidth, width);
    if st.current != "" then st.lines + [st.current] else st.lines
  }

  /** `all_lines`: the lines of every paragraph, in order. */
  function WrapParagraphs(paras: seq<string>, maxWidth: int, width: Width): (ls: seq<string>)
    decreases |paras|
  {
    if paras == [] then []
    else WrapParagraphs(paras[..|paras| - 1], maxWidth, width) + WrapParagraph(paras[|paras| - 1], maxWidth, width)
  }

  function Min(a: int, b: int): int
  {
    if a < b then a else b
  }

  /** Groups of `maxLines` consecutive lines (the last group may be shorter),
      each joined with line breaks. */
  function Paginate(lines: seq<string>, maxLines: nat): (pages: seq<string>)
    requires maxLines > 0
    decreases |lines|
  {
    if lines == [] then []
    else
      var k := Min(maxLines, |lines|);
      [JoinLines(lines[..k])] + Paginate(lines[k..], maxLines)
  }

  /** The pages `_split_text_into_pages` returns. */
  function Pages(text: string, maxWidth: int, maxLines: nat, width: Width): (pages: seq<string>)
    requires maxLines > 0
  {
    if text == "" then [""]
    else
      var pages := Paginate(WrapParagraphs(SplitLines(text), maxWidth, width), maxLines);
      if pages == [] then [""] else pages
  }

  /** Paginating from line `i` emits the slice starting at `i`, then
      continues `maxLines` further on. */
  lemma PaginateFrom(lines: seq<string>, i: nat, maxLines: nat)
    requires maxLines > 0 && i < |lines|
    ensures Paginate(lines[i..], maxLines)
      == [JoinLines(lines[i..Min(i + maxLines, |lines|)])] + Paginate(lines[Min(i + maxLines, |lines|)..], maxLines)
  {
    var k := Min(maxLines, |lines| - i);
    assert lines[i..][..k] == lines[i..Min(i + maxLines, |lines|)];
    assert lines[i..][k..] == lines[Min(i + maxLines, |lines|)..];
  }

  /** One more slice taken from line `i` keeps the pages emitted so far,
      followed by the pagination of the lines left, equal to the whole
      pagination. */
  lemma PaginateStep(lines: seq<string>, i: nat, maxLines: nat, pages: seq<string>)
    requires maxLines > 0 && i < |lines|
    requires pages + Paginate(lines[i..], maxLines) == Paginate(lines, maxLines)
    ensures (pages + [JoinLines(lines[i..Min(i + maxLines, |lines|)])])
              + Paginate(lines[Min(i + maxLines, |lines|)..], maxLines) == Paginate(lines, maxLines)
  {
    var next := Min(i + maxLines, |lines|);
    PaginateFrom(lines, i, maxLines);
    assert (pages + [JoinLines(lines[i..next])]) + Paginate(lines[next..], maxLines)
        == pages + ([JoinLines(lines[i..next])] + Paginate(lines[next..], maxLines));
  }

  /** A line the wrap may produce: not empty, and within the width unless it
      is a single character that is wider on its own. */
  ghost predicate Fits(line: string, maxWidth: int, width: Width)
  {
    line != "" && (width(line) <= maxWidth || |line| == 1)
  }

  lemma ConcatSnoc(ls: seq<string>, x: string)
    ensures Concat(ls + [x]) == Concat(ls) + x
  {
    assert (ls + [x])[..|ls|] == ls;
  }

  /** What the inner loop keeps true: the emitted lines followed by the
      current line spell out the characters seen so far, every emitted line
      fits, and the current line fits or is empty. */
  lemma {:induction false} WrapCharsFacts(para: string, maxWidth: int, width: Width)
    ensures var st := WrapChars(Start, para, maxWidth, width);
      && Concat(st.lines) + st.current == para
      && (forall l :: l in st.lines ==> Fits(l, maxWidth, width))
      && (st.current == "" || Fits(st.current, maxWidth, width))
    decreases |para|
  {
    if para != [] {
      var q, c := para[..|para| - 1], para[|para| - 1];
      WrapCharsFacts(q, maxWidth, width);
      var st := WrapChars(Start, q, maxWidth, width);
      assert para == q + [c];
      var r := WrapChars(Start, para, maxWidth, width);
      assert r == WrapChar(st, c, maxWidth, width);
      var test := st.current + [c];
      if width(test) <= maxWidth {
        assert r == WrapState(st.lines, test);
        assert Concat(st.lines) + test == (Concat(st.lines) + st.current) + [c];
      } else if st.current != "" {
        assert r == WrapState(st.lines + [st.current], [c]);
        ConcatSnoc(st.lines, st.current);
      } else {
        assert r == WrapState(st.lines + [[c]], "");
        ConcatSnoc(st.lines, [c]);
      }
    }
  }

  /** Lines wrapped from a paragraph without line breaks have none either. */
  lemma {:induction false} WrapCharsNoNewline(para: string, maxWidth: int, width: Width)
    requires NoNewline(para)
    ensures var st := WrapChars(Start, para, maxWidth, width);
      && (forall l :: l in st.lines ==> NoNewline(l))
      && NoNewline(st.current)
    decreases |para|
  {
    if para != [] {
      var q, c := para[..|para| - 1], para[|para| - 1];
      assert para == q + [c];
      assert c in para;
      WrapCharsNoNewline(q, maxWidth, width);
    }
  }

  /** Joining the lines of a paragraph gives back the paragraph exactly;
      every line fits; an empty paragraph gives no lines. */
  lemma WrapParagraphFacts(para: string, maxWidth: int, width: Width)
    ensures Concat(WrapParagraph(para, maxWidth, width)) == para
    ensures forall l :: l in WrapParagraph(para, maxWidth, width) ==> Fits(l, maxWidth, width)
    ensures para == "" <==> WrapParagraph(para, maxWidth, width) == []
    ensures NoNewline(para) ==> forall l :: l in WrapParagraph(para, maxWidth, width) ==> NoNewline(l)
  {
    WrapCharsFacts(para, maxWidth, width);
    var st := WrapChars(Start, para, maxWidth, width);
    if st.current != "" {
      ConcatSnoc(st.lines, st.current);
    }
    if NoNewline(para) {
      WrapCharsNoNewline(para, maxWidth, width);
    }
  }

  /** The lines of a list of pages, page after page. */
  function LinesOf(pages: seq<string>): (ls: seq<string>)
    decreases |pages|
  {
    if pages == [] then [] else SplitLines(pages[0]) + LinesOf(pages[1..])
  }

  lemma {:induction false} SplitLinesNoNewline(s: string)
    ensures forall p :: p in SplitLines(s) ==> NoNewline(p)
    decreases |s|
  {
    if s != [] {
      SplitLinesNoNewline(s[1..]);
      var t := SplitLines(s[1..]);
      if s[0] != '\n' {
        assert t[0] in t;
        assert NoNewline([s[0]] + t[0]);
        assert forall p :: p in t[1..] ==> p in t;
      }
    }
  }

  /** Splitting at line breaks and joining with line breaks is the identity. */
  lemma {:induction false} JoinSplit(s: string)
    ensures JoinLines(SplitLines(s)) == s
    decreases |s|
  {
    if s != [] {
      JoinSplit(s[1..]);
      var t := SplitLines(s[1..]);
      if s[0] == '\n' {
        assert s == "\n" + s[1..];
      } else if |t| == 1 {
        assert s == [s[0]] + s[1..];
      } else {
        assert t == [t[0]] + t[1..];
        assert JoinLines(t) == t[0] + "\n" + JoinLines(t[1..]);
        var r := SplitLines(s);
        assert r[1..] == t[1..];
        assert s == [s[0]] + s[1..];
      }
    }
  }

  lemma {:induction false} SplitNoNewline(a: string)
    requires NoNewline(a)
    ensures SplitLines(a) == [a]
    decreases |a|
  {
    if a != [] {
      assert a[0] in a;
      SplitNoNewline(a[1..]);
      assert a == [a[0]] + a[1..];
    }
  }

  lemma {:induction false} SplitAtFirstBreak(a: string, b: string)
    requires NoNewline(a)
    ensures SplitLines(a + "\n" + b) == [a] + SplitLines(b)
    decreases |a|
  {
    if a == [] {
      assert a + "\n" + b == "\n" + b;
      assert ("\n" + b)[1..] == b;
    } else {
      var s := a + "\n" + b;
      assert a[0] in a;
      assert s[0] == a[0] && s[1..] == a[1..] + "\n" + b;
      SplitAtFirstBreak(a[1..], b);
      assert a == [a[0]] + a[1..];
    }
  }

  /** Joining lines without line breaks and splitting again gives back the
      same lines. */
  lemma {:induction false} SplitJoin(ls: seq<string>)
    requires |ls| >= 1
    requires forall l :: l in ls ==> NoNewline(l)
    ensures SplitLines(JoinLines(ls)) == ls
    decreases |ls|
  {
    if |ls| == 1 {
      SplitNoNewline(ls[0]);
    } else {
      assert ls[0] in ls;
      SplitJoin(ls[1..]);
      SplitAtFirstBreak(ls[0], JoinLines(ls[1..]));
      assert ls == [ls[0]] + ls[1..];
    }
  }

  /** The lines of every paragraph fit, and carry no line break when the
      paragraphs carry none. */
  lemma {:induction false} WrapParagraphsFacts(paras: seq<string>, maxWidth: int, width: Width)
    ensures forall l :: l in WrapParagraphs(paras, maxWidth, width) ==> Fits(l, maxWidth, width)
    ensures (forall p :: p in paras ==> NoNewline(p)) ==>
              forall l :: l in WrapParagraphs(paras, maxWidth, width) ==> NoNewline(l)
    decreases |paras|
  {
    if paras != [] {
      var init, last := paras[..|paras| - 1], paras[|paras| - 1];
      WrapParagraphsFacts(init, maxWidth, width);
      WrapParagraphFacts(last, maxWidth, width);
      assert last in paras;
      assert forall p :: p in init ==> p in paras;
    }
  }

  /** Every page holds between one and `maxLines` lines. */
  lemma {:induction false} PaginatePageSizes(lines: seq<string>, maxLines: nat)
    requires maxLines > 0
    requires forall l :: l in lines ==> NoNewline(l)
    ensures forall j :: 0 <= j < |Paginate(lines, maxLines)| ==>
              1 <= |SplitLines(Paginate(lines, maxLines)[j])| <= maxLines
    decreases |lines|
  {
    if lines != [] {
      var k := Min(maxLines, |lines|);
      var chunk, rest := lines[..k], lines[k..];
      NoNewlineParts(lines, k);
      SplitJoin(chunk);
      PaginatePageSizes(rest, maxLines);
      var pages, tail := Paginate(lines, maxLines), Paginate(rest, maxLines);
      assert pages == [JoinLines(chunk)] + tail;
      forall j | 0 <= j < |pages|
        ensures 1 <= |SplitLines(pages[j])| <= maxLines
      {
        if j == 0 {
          assert pages[0] == JoinLines(chunk) && 1 <= |chunk| <= maxLines;
        } else {
          assert pages[j] == tail[j - 1];
        }
      }
    }
  }

  /** Reading the pages' lines in order gives back the lines that were
      paginated. */
  lemma {:induction false} PaginateLines(lines: seq<string>, maxLines: nat)
    requires maxLines > 0
    requires forall l :: l in lines ==> NoNewline(l)
    ensures LinesOf(Paginate(lines, maxLines)) == lines
    decreases |lines|
  {
    if lines != [] {
      var k := Min(maxLines, |lines|);
      var chunk, rest := lines[..k], lines[k..];
      NoNewlineParts(lines, k);
      SplitJoin(chunk);
      PaginateLines(rest, maxLines);
      var pages, tail := Paginate(lines, maxLines), Paginate(rest, maxLines);
      assert pages[0] == JoinLines(chunk) && pages[1..] == tail;
      calc {
        LinesOf(pages);
        SplitLines(pages[0]) + LinesOf(pages[1..]);
        chunk + LinesOf(tail);
        chunk + rest;
        { assert lines == chunk + rest; }
        lines;
      }
    }
  }

  /** Both parts of lines without line breaks carry none. */
  lemma NoNewlineParts(lines: seq<string>, k: nat)
    requires k <= |lines|
    requires forall l :: l in lines ==> NoNewline(l)
    ensures forall l :: l in lines[..k] ==> NoNewline(l)
    ensures forall l :: l in lines[k..] ==> NoNewline(l)
  {
    assert forall l :: l in lines[..k] ==> l in lines;
    assert forall l :: l in lines[k..] ==> l in lines;
  }

  /** Every page holds between one and `maxLines` lines, reading the pages'
      lines in order gives back the lines that were paginated, and lines
      give at least one page. */
  lemma PaginateFacts(lines: seq<string>, maxLines: nat)
    requires maxLines > 0
    requires forall l :: l in lines ==> NoNewline(l)
    ensures forall page :: page in Paginate(lines, maxLines) ==> 1 <= |SplitLines(page)| <= maxLines
    ensures LinesOf(Paginate(lines, maxLines)) == lines
    ensures lines != [] ==> Paginate(lines, maxLines) != []
  {
    PaginatePageSizes(lines, maxLines);
    PaginateLines(lines, maxLines);
  }

  /** The promises of `_split_text_into_pages`: never an empty list, `[""]`
      for the empty text, at most `maxLines` lines per page, every line
      within the width unless it is a lone wider character, and the pages
      together hold exactly the wrapped lines of every paragraph, in order. */
  lemma PagesFacts(text: string, maxWidth: int, maxLines: nat, width: Width)
    requires maxLines > 0
    ensures |Pages(text, maxWidth, maxLines, width)| >= 1
    ensures text == "" ==> Pages(text, maxWidth, maxLines, width) == [""]
    ensures forall page :: page in Pages(text, maxWidth, maxLines, width) ==>
              1 <= |SplitLines(page)| <= maxLines
    ensures var all := WrapParagraphs(SplitLines(text), maxWidth, width);
      && (forall l :: l in all ==> Fits(l, maxWidth, width))
      && (all != [] ==> LinesOf(Pages(text, maxWidth, maxLines, width)) == all)
      && (all == [] ==> Pages(text, maxWidth, maxLines, width) == [""])
  {
    var all := WrapParagraphs(SplitLines(text), maxWidth, width);
    SplitLinesNoNewline(text);
    WrapParagraphsFacts(SplitLines(text), maxWidth, width);
    PaginateFacts(all, maxLines);
    assert SplitLines("") == [""];
  }
}
