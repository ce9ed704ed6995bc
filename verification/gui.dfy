/** The text, page and state bookkeeping of `GuiHandler` (src/gui.py):
    pagination, automatic page switching and the time-based typing effect
    of the agent text. Drawing is not modelled; the font enters only as its
    width function. */
module Gui {
  import opened Pagination

  /** GUI state codes. */
  const StateIdle := 0
  const StateListening := 1
  const StateProcessing := 2
  const StateSpeaking := 3

  const UserTextMaxLines := 2
  const AgentTextMaxLines := 3
  /** Milliseconds between automatic page switches. */
  const PageSwitchInterval := 3000

  const UserPrefix := "You: "
  const AgentPrefix := "Kikai-kun: "

  /** A page index is usable: there are no pages, or it points at one. */
  predicate PageIndexOk(pages: seq<string>, index: int)
  {
    pages == [] || 0 <= index < |pages|
  }

  /** The automatic page switch: advance modulo the page count, but only
      when there is more than one page. */
  function NextPage(pages: seq<string>, index: int): (r: int)
  {
    if |pages| > 1 then (index + 1) % |pages| else index
  }

  /** Rotation keeps a usable index usable, and moves it only when there is
      more than one page. */
  lemma NextPageInBounds(pages: seq<string>, index: int)
    requires PageIndexOk(pages, index)
    ensures PageIndexOk(pages, NextPage(pages, index))
    ensures |pages| > 1 ==> NextPage(pages, index) != index
    ensures |pages| <= 1 ==> NextPage(pages, index) == index
  {
  }

  /** Characters of agent text revealed per millisecond (about twelve per
      second). */
  const TypingSpeed: real := 0.012

  /** Python's `int()` on a float: truncation toward zero. */
  function Trunc(x: real): (r: int)
    ensures x >= 0.0 ==> r as real <= x < r as real + 1.0
    ensures x < 0.0 ==> r as real - 1.0 < x <= r as real
  {
    if x >= 0.0 then x.Floor else -((-x).Floor)
  }

  /** Python's `s[:n]`: a negative `n` counts from the end, and an `n`
      beyond the end takes the whole string. */
  function SlicePrefix(s: string, n: int): (r: string)
    ensures r <= s
    ensures 0 <= n <= |s| ==> |r| == n
    ensures n >= |s| ==> r == s
    ensures n < 0 ==> |r| == if -n < |s| then |s| + n else 0
  {
    if n >= |s| then s
    else if n >= 0 then s[..n]
    else if -n < |s| then s[..|s| + n]
    else ""
  }

  /** The typing rate: doubled once the agent is no longer speaking, so the
      rest of the text catches up. */
  function RevealRate(state: int): (r: real)
    ensures r > 0.0
    ensures state == StateSpeaking <==> r == TypingSpeed
  {
    if state != StateSpeaking then TypingSpeed * 2.0 else TypingSpeed
  }

  /** One step of the typing effect on a text still being revealed: advance
      by rate times elapsed time, never beyond the text's length. */
  function Reveal(count: real, textLen: nat, state: int, delta: int): (r: real)
    requires count < textLen as real
    ensures r <= textLen as real
    ensures delta >= 0 ==> count <= r
    ensures r == textLen as real <==> count + RevealRate(state) * delta as real >= textLen as real
  {
    var c := count + RevealRate(state) * delta as real;
    if c > textLen as real then textLen as real else c
  }

  /** The agent pages when `n` characters of `text` are revealed: the
      layout of that much of the text after the prefix. */
  function TypedPages(text: string, n: int, maxWidth: int, width: Width): seq<string>
  {
    Pages(SlicePrefix(AgentPrefix + text, n + |AgentPrefix|), maxWidth, AgentTextMaxLines, width)
  }

  /** What the agent text area shows: how many characters are revealed,
      the pages laid out so far and the page on screen. */
  datatype AgentView = AgentView(count: real, pages: seq<string>, index: int)

  /** The typing effect of one `update`, `delta` ms after the previous
      one, for the full agent text `text` laid out `maxWidth` wide. While
      the text is not fully revealed the count advances; when a further
      whole character appears, the revealed part of the prefixed text is
      laid out again and its last page shown. */
  function Typed(v: AgentView, text: string, state: int, delta: int, maxWidth: int, width: Width): AgentView
  {
    if text != "" && v.count < |text| as real then
      var c := Reveal(v.count, |text|, state, delta);
      if Trunc(c) > Trunc(v.count) then
        var pages := TypedPages(text, Trunc(c), maxWidth, width);
        AgentView(c, pages, |pages| - 1)
      else AgentView(c, v.pages, v.index)
    else v
  }

  /** The typing effect changes nothing once the text is fully revealed;
      otherwise the count moves forward but never past the text's end. The
      pages are laid out again exactly when a further whole character
      appears, and then show the revealed part of the prefixed text from
      its last page. A usable page index stays usable. */
  lemma TypedFacts(v: AgentView, text: string, state: int, delta: int, maxWidth: int, width: Width)
    ensures var r := Typed(v, text, state, delta, maxWidth, width);
      && (text == "" || v.count >= |text| as real ==> r == v)
      && (text != "" && v.count < |text| as real ==>
            r.count <= |text| as real && (delta >= 0 ==> v.count <= r.count))
      && (Trunc(r.count) > Trunc(v.count) ==>
            && r.pages == Pages(SlicePrefix(AgentPrefix + text, Trunc(r.count) + |AgentPrefix|), maxWidth, AgentTextMaxLines, width)
            && r.index == |r.pages| - 1)
      && (Trunc(r.count) <= Trunc(v.count) ==> r.pages == v.pages && r.index == v.index)
      && (PageIndexOk(v.pages, v.index) ==> PageIndexOk(r.pages, r.index))
  {
    if text != "" && v.count < |text| as real {
      var c := Reveal(v.count, |text|, state, delta);
      PagesFacts(SlicePrefix(AgentPrefix + text, Trunc(c) + |AgentPrefix|), maxWidth, AgentTextMaxLines, width);
    }
  }

  class GuiHandler {
    var state: int
    var running: bool
    var userText: string
    var userTextPages: seq<string>
    var userPageIndex: int
    var agentFullText: string
    /** Characters of the agent text shown so far (a float in the source). */
    var agentDisplayCount: real
    var agentTextPages: seq<string>
    var agentPageIndex: int
    var lastPageSwitchTime: int
    /** Clock reading at the previous `Update`, for the typing effect. */
    var lastUpdateTime: int
    const screenW: int
    /** The rendered width of a string in the GUI font. */
    const width: Width

    ghost predicate Valid()
      reads this
    {
      && PageIndexOk(userTextPages, userPageIndex)
      && PageIndexOk(agentTextPages, agentPageIndex)
    }

    constructor (screenW: int, width: Width)
      ensures Valid()
      ensures this.screenW == screenW && this.width == width
      ensures state == StateIdle && running
      ensures userText == "" && userTextPages == [] && userPageIndex == 0
      ensures agentFullText == "" && agentDisplayCount == 0.0
      ensures agentTextPages == [] && agentPageIndex == 0
      ensures lastPageSwitchTime == 0 && lastUpdateTime == 0
    {
      this.screenW := screenW;
      this.width := width;
      state := StateIdle;
      running := true;
      userText, userTextPages, userPageIndex := "", [], 0;
      agentFullText, agentDisplayCount := "", 0.0;
      agentTextPages, agentPageIndex := [], 0;
      lastPageSwitchTime := 0;
      lastUpdateTime := 0;
    }

    /** What `update` at time `now` does to the texts: the agent count,
        pages and page index become `Typed` of the old ones over the time
        elapsed since the previous update; then, once the switch interval
        has passed, both page indices rotate and the switch clock restarts.
        The texts and the user pages are kept. */
    twostate predicate UpdatedTexts(now: int)
      reads this
    {
      var typed := Typed(AgentView(old(agentDisplayCount), old(agentTextPages), old(agentPageIndex)),
                         old(agentFullText), old(state), now - old(lastUpdateTime), screenW - 60, width);
      var switching := now - old(lastPageSwitchTime) > PageSwitchInterval;
      && lastUpdateTime == now
      && agentDisplayCount == typed.count
      && agentTextPages == typed.pages
      && agentPageIndex == (if switching then NextPage(typed.pages, typed.index) else typed.index)
      && lastPageSwitchTime == (if switching then now else old(lastPageSwitchTime))
      && userPageIndex == (if switching then NextPage(old(userTextPages), old(userPageIndex)) else old(userPageIndex))
      && userText == old(userText) && userTextPages == old(userTextPages)
      && agentFullText == old(agentFullText)
    }

    /** `update` without the drawing: a quit event stops the GUI; the
        typing effect reveals more of the agent text and, when a further
        character appears, re-lays out the revealed part and shows its last
        page; every `PageSwitchInterval` ms each text with more than one
        page advances to its next page. */
    method Update(now: int, quitRequested: bool)
      requires Valid()
      modifies this
      ensures Valid()
      ensures running == (old(running) && !quitRequested)
      ensures state == old(state)
      ensures UpdatedTexts(now)
    {
      // The quit event touches only `running`, so it is handled last here.
      AdvanceTyping(now);
      ghost var typedPages, typedIndex := agentTextPages, agentPageIndex;
      RotatePages(now);
      assert agentPageIndex == if now - old(lastPageSwitchTime) > PageSwitchInterval
        then NextPage(typedPages, typedIndex) else typedIndex;
      if quitRequested {
        running := false;
      }
    }

    /** The automatic page switch of `update`. */
    method RotatePages(now: int)
      requires Valid()
      modifies this`lastPageSwitchTime, this`userPageIndex, this`agentPageIndex
      ensures Valid()
      ensures var switching := now - old(lastPageSwitchTime) > PageSwitchInterval;
        && lastPageSwitchTime == (if switching then now else old(lastPageSwitchTime))
        && userPageIndex == (if switching then NextPage(userTextPages, old(userPageIndex)) else old(userPageIndex))
        && agentPageIndex == (if switching then NextPage(agentTextPages, old(agentPageIndex)) else old(agentPageIndex))
    {
      if now - lastPageSwitchTime > PageSwitchInterval {
        lastPageSwitchTime := now;
        NextPageInBounds(userTextPages, userPageIndex);
        NextPageInBounds(agentTextPages, agentPageIndex);
        if |userTextPages| > 1 {
          userPageIndex := (userPageIndex + 1) % |userTextPages|;
        }
        if |agentTextPages| > 1 {
          agentPageIndex := (agentPageIndex + 1) % |agentTextPages|;
        }
      }
    }

    /** The typing-effect part of `update`. */
    method AdvanceTyping(now: int)
      requires Valid()
      modifies this`agentDisplayCount, this`agentTextPages, this`agentPageIndex, this`lastUpdateTime
      ensures Valid()
      ensures lastUpdateTime == now
      ensures AgentView(agentDisplayCount, agentTextPages, agentPageIndex)
        == Typed(AgentView(old(agentDisplayCount), old(agentTextPages), old(agentPageIndex)),
                 old(agentFullText), old(state), now - old(lastUpdateTime), screenW - 60, width)
    {
      var r := TypingStep(AgentView(agentDisplayCount, agentTextPages, agentPageIndex),
                          agentFullText, state, now - lastUpdateTime);
      lastUpdateTime := now;
      agentDisplayCount, agentTextPages, agentPageIndex := r.count, r.pages, r.index;
    }

    /** The typing effect on the values `update` reads: the revealed count,
        the pages and the page on screen afterwards. */
    method TypingStep(v: AgentView, text: string, st: int, delta: int) returns (r: AgentView)
      ensures r == Typed(v, text, st, delta, screenW - 60, width)
      ensures PageIndexOk(v.pages, v.index) ==> PageIndexOk(r.pages, r.index)
    {
      if text != "" && v.count < |text| as real {
        var revealed := Reveal(v.count, |text|, st, delta);
        var newCount := Trunc(revealed);
        if newCount > Trunc(v.count) {
          var pages := LayOutTyped(text, newCount);
          r := AgentView(revealed, pages, |pages| - 1);
        } else {
          r := AgentView(revealed, v.pages, v.index);
        }
      } else {
        r := v;
      }
    }

    /** The re-layout step of the typing effect: `_split_text_into_pages`
        on the revealed part of the prefixed agent text. */
    method LayOutTyped(text: string, n: int) returns (pages: seq<string>)
      ensures pages == TypedPages(text, n, screenW - 60, width)
      ensures |pages| >= 1
    {
      var fullDisplay := AgentPrefix + text;
      pages := SplitTextIntoPages(SlicePrefix(fullDisplay, n + |AgentPrefix|), screenW - 60, AgentTextMaxLines);
    }

    /** `set_state`. */
    method SetState(code: int)
      modifies this`state
      ensures state == code
    {
      state := code;
    }

    /** `reset_texts`: clears the user text and the agent text, their pages
        and their page indices. */
    method ResetTexts()
      modifies this`userText, this`userTextPages, this`userPageIndex
      modifies this`agentFullText, this`agentDisplayCount, this`agentTextPages, this`agentPageIndex
      ensures Valid()
      ensures userText == "" && userTextPages == [] && userPageIndex == 0
      ensures agentFullText == "" && agentDisplayCount == 0.0
      ensures agentTextPages == [] && agentPageIndex == 0
      ensures state == old(state) && running == old(running)
      ensures lastPageSwitchTime == old(lastPageSwitchTime) && lastUpdateTime == old(lastUpdateTime)
    {
      userText := "";
      userTextPages := [];
      userPageIndex := 0;
      agentFullText := "";
      agentDisplayCount := 0.0;
      agentTextPages := [];
      agentPageIndex := 0;
    }

    /** `clear_user_text`: clears the user fields only. */
    method ClearUserText()
      requires Valid()
      modifies this`userText, this`userTextPages, this`userPageIndex
      ensures Valid()
      ensures userText == "" && userTextPages == [] && userPageIndex == 0
    {
      userText := "";
      userTextPages := [];
      userPageIndex := 0;
    }

    /** What `set_user_text(text)` at time `now` does: an agent text that
        was fully displayed is cleared with its pages (its page index is
        kept), and otherwise left alone; the user text is laid out on pages
        shown from the first, and the switch clock restarts. */
    twostate predicate ShowsUserText(text: string, now: int)
      reads this
    {
      var finished := old(agentFullText) != "" && old(agentDisplayCount) >= |old(agentFullText)| as real;
      && (finished ==> agentFullText == "" && agentDisplayCount == 0.0 && agentTextPages == [])
      && (!finished ==> agentFullText == old(agentFullText) && agentDisplayCount == old(agentDisplayCount)
                        && agentTextPages == old(agentTextPages))
      && agentPageIndex == old(agentPageIndex)
      && userText == text && userPageIndex == 0 && lastPageSwitchTime == now
      && userTextPages == Pages(UserPrefix + text, screenW - 40, UserTextMaxLines, width)
      && |userTextPages| >= 1
    }

    /** `set_user_text`: lays out "You: " + text on user pages and shows the
        first; the previous agent text is cleared only once it has been
        fully displayed. */
    method SetUserText(text: string, now: int)
      requires Valid()
      modifies this`agentFullText, this`agentDisplayCount, this`agentTextPages
      modifies this`userText, this`userTextPages, this`userPageIndex, this`lastPageSwitchTime
      ensures Valid()
      ensures ShowsUserText(text, now)
      ensures state == old(state) && running == old(running)
    {
      ClearFinishedAgentText();
      ShowUserText(text, now);
    }

    /** The first part of `set_user_text`: an agent text that has been fully
        displayed is cleared with its pages. */
    method ClearFinishedAgentText()
      requires Valid()
      modifies this`agentFullText, this`agentDisplayCount, this`agentTextPages
      ensures Valid()
      ensures var finished := old(agentFullText) != "" && old(agentDisplayCount) >= |old(agentFullText)| as real;
        && (finished ==> agentFullText == "" && agentDisplayCount == 0.0 && agentTextPages == [])
        && (!finished ==> agentFullText == old(agentFullText) && agentDisplayCount == old(agentDisplayCount)
                          && agentTextPages == old(agentTextPages))
    {
      if agentFullText != "" && agentDisplayCount >= |agentFullText| as real {
        agentFullText, agentDisplayCount, agentTextPages := "", 0.0, [];
      }
    }

    /** The second part of `set_user_text`: lay out the user text and show
        its first page, restarting the page-switch clock. */
    method ShowUserText(text: string, now: int)
      requires Valid()
      modifies this`userText, this`userTextPages, this`userPageIndex, this`lastPageSwitchTime
      ensures Valid()
      ensures userText == text && userPageIndex == 0 && lastPageSwitchTime == now
      ensures userTextPages == Pages(UserPrefix + text, screenW - 40, UserTextMaxLines, width)
      ensures |userTextPages| >= 1
    {
      var pages := SplitTextIntoPages(UserPrefix + text, screenW - 40, UserTextMaxLines);
      userText, userTextPages, userPageIndex, lastPageSwitchTime := text, pages, 0, now;
    }

    /** What `set_agent_text(text)` does to the agent fields: nothing
        while listening or for the text already shown; otherwise the text
        is replaced, and when idle it is shown whole from its first page,
        while in any other state the display progress is kept if the new
        text extends the old one and restarts from 0 if not. */
    twostate predicate ShowsAgentText(text: string)
      reads this
    {
      && (old(state) == StateListening || old(agentFullText) == text ==>
            agentFullText == old(agentFullText) && agentDisplayCount == old(agentDisplayCount)
            && agentTextPages == old(agentTextPages) && agentPageIndex == old(agentPageIndex))
      && (old(state) != StateListening && old(agentFullText) != text ==>
            && agentFullText == text
            && (old(state) == StateIdle ==>
                  agentDisplayCount == |text| as real && agentPageIndex == 0
                  && agentTextPages == Pages(AgentPrefix + text, screenW - 60, AgentTextMaxLines, width))
            && (old(state) != StateIdle ==>
                  agentDisplayCount == (if old(agentFullText) <= text then old(agentDisplayCount) else 0.0)
                  && agentTextPages == old(agentTextPages) && agentPageIndex == old(agentPageIndex)))
    }

    /** `set_agent_text`: ignored while listening; a new text keeps the
        display progress when it extends the shown text and restarts it
        otherwise; when idle the whole text is shown at once. */
    method SetAgentText(text: string)
      requires Valid()
      modifies this`agentFullText, this`agentDisplayCount, this`agentTextPages, this`agentPageIndex
      ensures Valid()
      ensures ShowsAgentText(text)
      ensures state == old(state) && running == old(running) && lastPageSwitchTime == old(lastPageSwitchTime)
      ensures userText == old(userText) && userTextPages == old(userTextPages) && userPageIndex == old(userPageIndex)
    {
      if state == StateListening {
        return;
      }
      if agentFullText != text {
        if !(agentFullText <= text) {
          agentDisplayCount := 0.0;
        }
        agentFullText := text;
        if state == StateIdle {
          ShowAgentTextAtOnce(text);
        }
      }
    }

    /** The idle case of `set_agent_text`: the whole text is revealed, laid
        out and shown from its first page. */
    method ShowAgentTextAtOnce(text: string)
      modifies this`agentDisplayCount, this`agentTextPages, this`agentPageIndex
      ensures PageIndexOk(agentTextPages, agentPageIndex)
      ensures agentDisplayCount == |text| as real && agentPageIndex == 0
      ensures agentTextPages == Pages(AgentPrefix + text, screenW - 60, AgentTextMaxLines, width)
    {
      var pages := SplitTextIntoPages(AgentPrefix + text, screenW - 60, AgentTextMaxLines);
      agentDisplayCount, agentTextPages, agentPageIndex := |text| as real, pages, 0;
    }

    /** `_split_text_into_pages`: wrap every paragraph greedily and group the
        lines into pages; `[""]` when there is no text or no line. */
    method SplitTextIntoPages(text: string, maxWidth: int, maxLines: nat) returns (pages: seq<string>)
      requires maxLines > 0
      ensures pages == Pages(text, maxWidth, maxLines, width)
      ensures |pages| >= 1
      ensures text == "" ==> pages == [""]
    {
      if text == "" {
        return [""];
      }
      var allLines := WrapText(SplitLines(text), maxWidth);
      pages := GroupIntoPages(allLines, maxLines);
      if pages == [] {
        pages := [""];
      }
    }

    /** Step 1 of `_split_text_into_pages`: the lines of all paragraphs. */
    method WrapText(paragraphs: seq<string>, maxWidth: int) returns (allLines: seq<string>)
      ensures allLines == WrapParagraphs(paragraphs, maxWidth, width)
    {
      allLines := [];
      for k := 0 to |paragraphs|
        invariant allLines == WrapParagraphs(paragraphs[..k], maxWidth, width)
      {
        allLines := WrapInto(allLines, paragraphs[k], maxWidth);
        assert paragraphs[..k + 1][..k] == paragraphs[..k];
      }
      assert paragraphs[..|paragraphs|] == paragraphs;
    }

    /** The inner loop over one paragraph's characters, appending its lines
        to `allLines`. */
    method WrapInto(allLines: seq<string>, para: string, maxWidth: int) returns (lines: seq<string>)
      ensures lines == allLines + WrapParagraph(para, maxWidth, width)
    {
      lines := allLines;
      var currentLine := "";
      for j := 0 to |para|
        invariant lines == allLines + WrapChars(Start, para[..j], maxWidth, width).lines
        invariant currentLine == WrapChars(Start, para[..j], maxWidth, width).current
      {
        assert para[..j + 1][..j] == para[..j];
        var testLine := currentLine + [para[j]];
        if width(testLine) <= maxWidth {
          currentLine := testLine;
        } else if currentLine != "" {
          lines := lines + [currentLine];
          currentLine := [para[j]];
        } else {
          lines := lines + [[para[j]]];
          currentLine := "";
        }
      }
      assert para[..|para|] == para;
      if currentLine != "" {
        lines := lines + [currentLine];
      }
    }

    /** Step 2 of `_split_text_into_pages`: slices of `maxLines` lines, each
        joined with line breaks. */
    method GroupIntoPages(allLines: seq<string>, maxLines: nat) returns (pages: seq<string>)
      requires maxLines > 0
      ensures pages == Paginate(allLines, maxLines)
    {
      pages := [];
      var i := 0;
      while i < |allLines|
        invariant 0 <= i
        invariant pages + Paginate(allLines[Min(i, |allLines|)..], maxLines) == Paginate(allLines, maxLines)
        decreases |allLines| - i
      {
        var next := Min(i + maxLines, |allLines|);
        PaginateStep(allLines, i, maxLines, pages);
        pages := pages + [JoinLines(allLines[i..next])];
        i := i + maxLines;
        assert Min(i, |allLines|) == next;
      }
      assert allLines[Min(i, |allLines|)..] == [];
    }
  }
}
