/**
 * "Export intake PDF": headings and paragraphs laid out top to bottom on
 * letter-size pages. The cursor `y` moves down as text is drawn; paragraph
 * lines that would start below the bottom line go to a fresh page. How a
 * paragraph is cut into lines is the PDF library's business and comes in
 * as a parameter.
 */
module Intake {
  import opened Options
  import opened Text
  import opened Chat

  /** The left margin, also the cursor's position at the top of a page. */
  const Margin := 56
  /** A paragraph line is drawn only at or above this position. */
  const PageBottom := 740
  const LineHeight := 16
  const ParagraphGap := 6
  const HeadingAdvance := 22

  datatype Style = Heading | Body

  /** One piece of text as drawn: its page (the first is 1), its `y`, its font. */
  datatype Placement = Placement(page: nat, y: int, style: Style, text: string)

  /** A paragraph's lines as drawn, and where the cursor is left. */
  datatype Flow = Flow(placed: seq<Placement>, page: nat, y: int)

  /** The lines of one paragraph drawn from `(page, y)`: each line first
      moves to the top of a new page if the cursor is past the bottom line,
      and then moves the cursor one line down. */
  function LinesFlow(page: nat, y: int, lines: seq<string>): Flow
    decreases |lines|
  {
    if lines == [] then Flow([], page, y)
    else
      var f := LinesFlow(page, y, lines[..|lines| - 1]);
      var breaks := f.y > PageBottom;
      var p := if breaks then f.page + 1 else f.page;
      var top := if breaks then Margin else f.y;
      Flow(f.placed + [Placement(p, top, Body, lines[|lines| - 1])], p, top + LineHeight)
  }

  /** Where one line goes from the cursor `(page, cursor)`. */
  predicate Follows(page: nat, cursor: int, pl: Placement) {
    if cursor > PageBottom then pl.page == page + 1 && pl.y == Margin
    else pl.page == page && pl.y == cursor
  }

  /** What the layout guarantees about a paragraph started at or below the
      top margin: its lines in order and in the body font, each at or below
      the margin and at or above the bottom line, and the cursor left one
      line below the last line. */
  lemma {:induction false} LinesFlowSpec(page: nat, y: int, lines: seq<string>)
    requires y >= Margin
    ensures var f := LinesFlow(page, y, lines);
      && |f.placed| == |lines|
      && (forall i :: 0 <= i < |lines| ==> f.placed[i].text == lines[i] && f.placed[i].style == Body)
      && (forall i :: 0 <= i < |lines| ==> Margin <= f.placed[i].y <= PageBottom)
      && (lines == [] ==> f.page == page && f.y == y)
      && (lines != [] ==> f.page == f.placed[|lines| - 1].page && f.y == f.placed[|lines| - 1].y + LineHeight)
      && f.y >= Margin
  {
    if lines != [] {
      var init := lines[..|lines| - 1];
      LinesFlowSpec(page, y, init);
      var g := LinesFlow(page, y, init);
      var f := LinesFlow(page, y, lines);
      assert f.placed == g.placed + [f.placed[|lines| - 1]];
      forall i | 0 <= i < |init| ensures f.placed[i] == g.placed[i] && lines[i] == init[i] {
      }
    }
  }

  /** Pages never go back. */
  lemma {:induction false} LinesFlowPages(page: nat, y: int, lines: seq<string>)
    requires y >= Margin
    ensures var f := LinesFlow(page, y, lines);
      && |f.placed| == |lines|
      && (forall i :: 0 <= i < |lines| ==> page <= f.placed[i].page <= f.page)
      && (forall i, j :: 0 <= i < j < |lines| ==> f.placed[i].page <= f.placed[j].page)
  {
    LinesFlowSpec(page, y, lines);
    if lines != [] {
      var init := lines[..|lines| - 1];
      LinesFlowPages(page, y, init);
      LinesFlowSpec(page, y, init);
      var g := LinesFlow(page, y, init);
      var f := LinesFlow(page, y, lines);
      assert f.placed == g.placed + [f.placed[|lines| - 1]];
      forall i | 0 <= i < |init| ensures f.placed[i] == g.placed[i] {
      }
    }
  }

  /** A new page starts exactly when the cursor had passed the bottom line,
      and otherwise each line sits one line below the previous one. */
  lemma {:induction false} LinesFlowFollows(page: nat, y: int, lines: seq<string>)
    requires y >= Margin
    ensures var f := LinesFlow(page, y, lines);
      && |f.placed| == |lines|
      && (lines != [] ==> Follows(page, y, f.placed[0]))
      && (forall i :: 0 < i < |lines| ==> Follows(f.placed[i - 1].page, f.placed[i - 1].y + LineHeight, f.placed[i]))
  {
    LinesFlowSpec(page, y, lines);
    if lines != [] {
      var init := lines[..|lines| - 1];
      LinesFlowFollows(page, y, init);
      LinesFlowSpec(page, y, init);
      var g := LinesFlow(page, y, init);
      var f := LinesFlow(page, y, lines);
      assert f.placed == g.placed + [f.placed[|lines| - 1]];
      forall i | 0 <= i < |init| ensures f.placed[i] == g.placed[i] {
      }
    }
  }

  /** The texts drawn in one font, in order. */
  function Texts(ps: seq<Placement>, style: Style): seq<string> {
    if ps == [] then []
    else (if ps[0].style == style then [ps[0].text] else []) + Texts(ps[1..], style)
  }

  lemma {:induction false} TextsAppend(a: seq<Placement>, b: seq<Placement>, style: Style)
    ensures Texts(a + b, style) == Texts(a, style) + Texts(b, style)
  {
    if a == [] {
      assert a + b == b;
    } else {
      assert (a + b)[0] == a[0];
      assert (a + b)[1..] == a[1..] + b;
      TextsAppend(a[1..], b, style);
    }
  }

  /** A paragraph adds its lines to the body text and nothing to the headings. */
  lemma {:induction false} TextsFlow(page: nat, y: int, lines: seq<string>)
    ensures Texts(LinesFlow(page, y, lines).placed, Body) == lines
    ensures Texts(LinesFlow(page, y, lines).placed, Heading) == []
  {
    if lines != [] {
      var init := lines[..|lines| - 1];
      var last := lines[|lines| - 1];
      var g := LinesFlow(page, y, init);
      var breaks := g.y > PageBottom;
      var pl := Placement(if breaks then g.page + 1 else g.page, if breaks then Margin else g.y, Body, last);
      assert LinesFlow(page, y, lines).placed == g.placed + [pl];
      TextsFlow(page, y, init);
      TextsAppend(g.placed, [pl], Body);
      TextsAppend(g.placed, [pl], Heading);
      assert Texts([pl], Body) == [last];
      assert Texts([pl], Heading) == [];
      assert init + [last] == lines;
    }
  }

  /** Every paragraph line lies between the margin and the bottom line. */
  predicate BodyInBounds(ps: seq<Placement>) {
    forall i :: 0 <= i < |ps| && ps[i].style == Body ==> Margin <= ps[i].y <= PageBottom
  }

  /** The document being drawn: the cursor, the current page and what has
      been drawn so far. */
  class Layout {
    var y: int
    var page: nat
    var drawn: seq<Placement>

    constructor ()
      ensures y == Margin && page == 1 && drawn == []
    {
      y := Margin;
      page := 1;
      drawn := [];
    }

    /** `H`: a heading at the cursor, with no check for the page bottom. */
    method H(text: string)
      modifies this
      ensures drawn == old(drawn) + [Placement(old(page), old(y), Heading, text)]
      ensures y == old(y) + HeadingAdvance && page == old(page)
    {
      drawn := drawn + [Placement(page, y, Heading, text)];
      y := y + HeadingAdvance;
    }

    /** `P`: a paragraph, already cut into lines, then a small gap. */
    method P(lines: seq<string>)
      modifies this
      ensures drawn == old(drawn) + LinesFlow(old(page), old(y), lines).placed
      ensures page == LinesFlow(old(page), old(y), lines).page
      ensures y == LinesFlow(old(page), old(y), lines).y + ParagraphGap
    {
      var i := 0;
      while i < |lines|
        invariant 0 <= i <= |lines|
        invariant drawn == old(drawn) + LinesFlow(old(page), old(y), lines[..i]).placed
        invariant page == LinesFlow(old(page), old(y), lines[..i]).page
        invariant y == LinesFlow(old(page), old(y), lines[..i]).y
      {
        assert lines[..i + 1][..i] == lines[..i];
        if y > PageBottom {
          page := page + 1;
          y := Margin;
        }
        drawn := drawn + [Placement(page, y, Body, lines[i])];
        y := y + LineHeight;
        i := i + 1;
      }
      assert lines[..i] == lines;
      y := y + ParagraphGap;
    }
  }

  /** `slice(-12)`: the last twelve messages, or all of them when fewer. */
  function Recent(ms: seq<ChatMsg>): (r: seq<ChatMsg>)
    ensures |r| == if |ms| < 12 then |ms| else 12
    ensures r == ms[|ms| - |r|..]
  {
    if |ms| > 12 then ms[|ms| - 12..] else ms
  }

  /** `t(en, zh)`. */
  function Pick(lang: Lang, en: string, zh: string): string {
    if lang == Zh then zh else en
  }

  function Speaker(role: Role, lang: Lang): string {
    if role == User then Pick(lang, "Client", "来访者") else "Credibot"
  }

  /** The style tag after a reply's speaker; the template would print
      "undefined" for a key missing from the list. */
  function Tag(modality: Option<ModKey>): string {
    match modality
    case None => ""
    case Some(k) =>
      var short := match Lookup(Modalities, k) case Some(info) => info.short case None => "undefined";
      " [" + short + "]"
  }

  /** One excerpt entry: `who[tag]: text`. */
  function FormatMessage(m: ChatMsg, lang: Lang): string {
    Speaker(m.role, lang) + Tag(m.modality) + ": " + m.text
  }

  /** An entry starts with the speaker and ends with the message text. */
  lemma FormatMessageSpec(m: ChatMsg, lang: Lang)
    ensures StartsWith(FormatMessage(m, lang), Speaker(m.role, lang))
    ensures EndsWith(FormatMessage(m, lang), ": " + m.text)
  {
    FourParts(Speaker(m.role, lang), Tag(m.modality), ": ", m.text);
  }

  /** Only replies asked in a style carry a tag, and it holds that style's short name. */
  lemma TagSpec(modality: Option<ModKey>)
    ensures modality.None? ==> Tag(modality) == ""
    ensures modality.Some? ==> Tag(modality) == " [" + Modalities[KeyIndex(modality.value)].short + "]"
  {
    if modality.Some? {
      ModalitiesSearch(modality.value);
    }
  }

  function FormatAll(ms: seq<ChatMsg>, lang: Lang): (r: seq<string>)
    ensures |r| == |ms|
    ensures forall i :: 0 <= i < |ms| ==> r[i] == FormatMessage(ms[i], lang)
  {
    if ms == [] then [] else [FormatMessage(ms[0], lang)] + FormatAll(ms[1..], lang)
  }

  /** The excerpt: the entries separated by blank lines. */
  function Conversation(ms: seq<ChatMsg>, lang: Lang): string {
    Join(FormatAll(ms, lang), "\n\n")
  }

  /** The excerpt is empty exactly when there are no messages, which is when
      "No messages yet." is printed instead. */
  lemma ConversationEmpty(ms: seq<ChatMsg>, lang: Lang)
    ensures Conversation(ms, lang) == "" <==> ms == []
  {
    if ms != [] {
      var parts := FormatAll(ms, lang);
      JoinStartsWith(parts, "\n\n");
      FormatMessageSpec(ms[0], lang);
      assert |parts[0]| >= 2;
    }
  }

  /** The active style's full name, with the person-centered name as fallback. */
  function FullName(k: ModKey): string {
    match Lookup(Modalities, k)
    case Some(info) => if info.name != "" then info.name else "Person-Centered (PCT)"
    case None => "Person-Centered (PCT)"
  }

  lemma FullNameSpec(k: ModKey)
    ensures FullName(k) == Modalities[KeyIndex(k)].name
  {
    ModalitiesSearch(k);
  }

  const NotesEn := "This document is for preparation and discussion with a licensed clinician. It is not diagnosis or treatment. If you are in crisis, contact your local emergency number or 988 in the U.S."
  const NotesZh := "本文件用于与持证临床医生进行准备与沟通，不构成诊断或治疗。如果你处于危机中，请联系当地紧急电话（在美国拨打 988）。"

  /** The four headings, in order, in the page's language. */
  function Headings(lang: Lang): seq<string> {
    [ Pick(lang, "Credibot - Therapy Intake Snapshot", "Credibot - 治疗准备摘要"),
      Pick(lang, "Active Style", "当前风格"),
      Pick(lang, "Recent Conversation (excerpt)", "最近对话（节选）"),
      Pick(lang, "Notes and Boundaries", "说明与边界") ]
  }

  /** The four paragraphs, before they are cut into lines. */
  function Paragraphs(messages: seq<ChatMsg>, active: ModKey, lang: Lang, dateText: string): seq<string> {
    var convo := Conversation(Recent(messages), lang);
    [ dateText,
      FullName(active),
      if convo != "" then convo else Pick(lang, "No messages yet.", "暂无对话。"),
      Pick(lang, NotesEn, NotesZh) ]
  }

  /** A heading and a paragraph drawn from a cursor at or below the margin
      keep every paragraph line in bounds and leave the cursor below the margin. */
  lemma SectionStep(before: seq<Placement>, page: nat, y: int, heading: string, lines: seq<string>)
    requires BodyInBounds(before) && y >= Margin
    ensures var f := LinesFlow(page, y + HeadingAdvance, lines);
      && BodyInBounds(before + [Placement(page, y, Heading, heading)] + f.placed)
      && f.y + ParagraphGap >= Margin
  {
    var f := LinesFlow(page, y + HeadingAdvance, lines);
    LinesFlowSpec(page, y + HeadingAdvance, lines);
    var ps := before + [Placement(page, y, Heading, heading)] + f.placed;
    forall i | 0 <= i < |ps| && ps[i].style == Body ensures Margin <= ps[i].y <= PageBottom {
      if i > |before| {
        assert ps[i] == f.placed[i - |before| - 1];
      } else if i < |before| {
        assert ps[i] == before[i];
      }
    }
  }

  /** A section's contribution to the headings and to the body text. */
  lemma SectionTexts(before: seq<Placement>, page: nat, y: int, heading: string, lines: seq<string>)
    ensures var ps := before + [Placement(page, y, Heading, heading)] + LinesFlow(page, y + HeadingAdvance, lines).placed;
      && Texts(ps, Heading) == Texts(before, Heading) + [heading]
      && Texts(ps, Body) == Texts(before, Body) + lines
  {
    var fp := LinesFlow(page, y + HeadingAdvance, lines).placed;
    TextsFlow(page, y + HeadingAdvance, lines);
    TextsAroundHeading(before, Placement(page, y, Heading, heading), fp);
  }

  /** A heading followed by placements with no heading among them. */
  lemma TextsAroundHeading(a: seq<Placement>, h: Placement, c: seq<Placement>)
    requires h.style == Heading && Texts(c, Heading) == []
    ensures Texts(a + [h] + c, Heading) == Texts(a, Heading) + [h.text]
    ensures Texts(a + [h] + c, Body) == Texts(a, Body) + Texts(c, Body)
  {
    TextsAround(a, h, c, Heading);
    TextsAround(a, h, c, Body);
    TextsOfHeading(h);
    assert Texts(a, Heading) + [h.text] + [] == Texts(a, Heading) + [h.text];
    assert Texts(a, Body) + [] + Texts(c, Body) == Texts(a, Body) + Texts(c, Body);
  }

  lemma TextsAround(a: seq<Placement>, pl: Placement, c: seq<Placement>, style: Style)
    ensures Texts(a + [pl] + c, style) == Texts(a, style) + Texts([pl], style) + Texts(c, style)
  {
    TextsAppend(a + [pl], c, style);
    TextsAppend(a, [pl], style);
  }

  lemma TextsOfHeading(h: Placement)
    requires h.style == Heading
    ensures Texts([h], Heading) == [h.text] && Texts([h], Body) == []
  {
    assert Texts([h], Heading) == [h.text] + Texts([], Heading);
  }

  /** The whole export: four headings, each followed by its paragraph. What
      is drawn is the headings in order in the page's language, the
      paragraphs' lines in order, and every paragraph line within the page's
      printable band. */
  method ExportIntake(messages: seq<ChatMsg>, active: ModKey, lang: Lang, dateText: string,
                      split: string -> seq<string>)
    returns (drawn: seq<Placement>)
    ensures Texts(drawn, Heading) == Headings(lang)
    ensures var ps := Paragraphs(messages, active, lang, dateText);
      Texts(drawn, Body) == split(ps[0]) + split(ps[1]) + split(ps[2]) + split(ps[3])
    ensures BodyInBounds(drawn)
  {
    var ps := Paragraphs(messages, active, lang, dateText);
    var hs := Headings(lang);
    var doc := new Layout();
    Section(doc, hs[0], split(ps[0]));
    Section(doc, hs[1], split(ps[1]));
    Section(doc, hs[2], split(ps[2]));
    Section(doc, hs[3], split(ps[3]));
    FourParts(hs[0], hs[1], hs[2], hs[3]);
    FromEmpty(split(ps[0]));
    drawn := doc.drawn;
  }

  lemma FourParts<T>(a: T, b: T, c: T, d: T)
    ensures [] + [a] + [b] + [c] + [d] == [a, b, c, d]
  {
  }

  lemma FromEmpty<T>(s: seq<T>)
    ensures [] + s == s
  {
  }

  /** `H(heading); P(text)`, with what it adds to the document. */
  method Section(doc: Layout, heading: string, lines: seq<string>)
    requires doc.y >= Margin && BodyInBounds(doc.drawn)
    modifies doc
    ensures doc.y >= Margin && BodyInBounds(doc.drawn)
    ensures Texts(doc.drawn, Heading) == old(Texts(doc.drawn, Heading)) + [heading]
    ensures Texts(doc.drawn, Body) == old(Texts(doc.drawn, Body)) + lines
  {
    SectionStep(doc.drawn, doc.page, doc.y, heading, lines);
    SectionTexts(doc.drawn, doc.page, doc.y, heading, lines);
    doc.H(heading);
    doc.P(lines);
  }
}
