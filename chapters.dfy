/**
 * The Chapter composite of the PDF creator: a numbered, titled container with a
 * heading paragraph and an ordered list of child drawables, and the creator
 * that numbers chapters and owns the table of contents.
 */
module Chapters {
  import opened Wrappers
  import opened Decimal
  import opened Headings
  import opened Blocks
  import opened Pagination

  datatype Positioning = PositionRelative | PositionAbsolute

  datatype Sizing = SizingOccupyAvailableSpace | SizingFixedSize

  datatype Margins = Margins(left: real, right: real, top: real, bottom: real)

  /**
   * The drawables a chapter may be handed. Chapters are compared by object
   * identity; every other kind carries an identity of its own.
   */
  datatype Drawable =
    | ParagraphItem(id: nat)
    | ImageItem(id: nat)
    | BlockItem(id: nat)
    | SubchapterItem(id: nat)
    | ChapterItem(chapter: Chapter)
    | OtherItem(id: nat)

  /** The kinds Add appends to the contents. */
  predicate Insertable(d: Drawable) {
    d.ParagraphItem? || d.ImageItem? || d.BlockItem? || d.SubchapterItem?
  }

  /** How a child item renders itself in a given context. */
  type Renderer = (Drawable, DrawContext) -> Generated

  /** How the heading paragraph renders its text in a given context. */
  type HeadingRenderer = (string, DrawContext) -> Generated

  /** Sum of the children's heights, in order. */
  function TotalHeight(items: seq<Drawable>, heightOf: Drawable -> real): real
    decreases |items|
  {
    if items == [] then 0.0 else TotalHeight(items[..|items| - 1], heightOf) + heightOf(items[|items| - 1])
  }

  /** Height is additive over consecutive runs of children. */
  lemma {:induction false} TotalHeightAppend(xs: seq<Drawable>, ys: seq<Drawable>, heightOf: Drawable -> real)
    ensures TotalHeight(xs + ys, heightOf) == TotalHeight(xs, heightOf) + TotalHeight(ys, heightOf)
    decreases |ys|
  {
    if ys != [] {
      assert (xs + ys)[..|xs + ys| - 1] == xs + ys[..|ys| - 1];
      TotalHeightAppend(xs, ys[..|ys| - 1], heightOf);
    } else {
      assert xs + ys == xs;
    }
  }

  /**
   * The largest of zero and the children's widths: it bounds every width, is
   * never negative, and is zero or the width of some child.
   */
  function MaxWidth(items: seq<Drawable>, widthOf: Drawable -> real): (w: real)
    ensures w >= 0.0
    ensures forall i :: 0 <= i < |items| ==> widthOf(items[i]) <= w
    ensures w == 0.0 || exists i :: 0 <= i < |items| && w == widthOf(items[i])
    decreases |items|
  {
    if items == [] then 0.0
    else
      var front := items[..|items| - 1];
      var m := MaxWidth(front, widthOf);
      var last := widthOf(items[|items| - 1]);
      assert forall i :: 0 <= i < |front| ==> items[i] == front[i];
      if m >= last then m else last
  }

  /** The paragraph used as a chapter heading; only its text is modelled. */
  class Paragraph {
    var text: string

    constructor (text: string)
      ensures this.text == text
    {
      this.text := text;
    }

    method SetText(text: string)
      modifies this
      ensures this.text == text
    {
      this.text := text;
    }
  }

  datatype TocEntry = TocEntry(title: string, chapter: nat, level: int, page: int)

  /** The creator's table of contents, seen as the list of entries added to it. */
  class TableOfContents {
    var entries: seq<TocEntry>

    constructor ()
      ensures entries == []
    {
      entries := [];
    }

    method Add(title: string, chapter: nat, level: int, page: int)
      modifies this
      ensures entries == old(entries) + [TocEntry(title, chapter, level, page)]
    {
      entries := entries + [TocEntry(title, chapter, level, page)];
    }
  }

  class Chapter {
    const number: nat
    const title: string
    const heading: Paragraph
    var contents: seq<Drawable>
    var showNumbering: bool
    var includeInTOC: bool
    var positioning: Positioning
    var xPos: real
    var yPos: real
    var margins: Margins
    const sizing: Sizing
    const toc: TableOfContents

    /**
     * What the chapter's own operations keep whatever is done to the heading:
     * the sizing is always "occupy available space" and the contents hold only
     * insertable kinds.
     */
    ghost predicate Shape()
      reads this
    {
      && sizing == SizingOccupyAvailableSpace
      && forall i :: 0 <= i < |contents| ==> Insertable(contents[i])
    }

    /**
     * In addition, the heading text follows number, title and flag. Callers can
     * retext the heading paragraph directly, which breaks only this conjunct;
     * SetShowNumbering restores it.
     */
    ghost predicate Valid()
      reads this, heading
    {
      && heading.text == HeadingText(number, title, showNumbering)
      && Shape()
    }

    /** The fields NewChapter sets up; everything else keeps Go's zero value. */
    constructor (number: nat, title: string, toc: TableOfContents)
      ensures Valid() && fresh(heading)
      ensures this.number == number && this.title == title && this.toc == toc
      ensures heading.text == NatToString(number) + ". " + title
      ensures showNumbering && includeInTOC && contents == []
      ensures sizing == SizingOccupyAvailableSpace
      ensures positioning == PositionRelative && xPos == 0.0 && yPos == 0.0
      ensures margins == Margins(0.0, 0.0, 0.0, 0.0)
    {
      this.number := number;
      this.title := title;
      showNumbering := true;
      includeInTOC := true;
      heading := new Paragraph(NatToString(number) + ". " + title);
      contents := [];
      sizing := SizingOccupyAvailableSpace;
      this.toc := toc;
      positioning := PositionRelative;
      xPos, yPos := 0.0, 0.0;
      margins := Margins(0.0, 0.0, 0.0, 0.0);
    }

    method SetShowNumbering(show: bool)
      requires Shape()
      modifies this`showNumbering, heading
      ensures Valid()
      ensures showNumbering == show
      ensures heading.text == if show then NatToString(number) + ". " + title else title
    {
      if show {
        heading.SetText(NatToString(number) + ". " + title);
      } else {
        heading.SetText(title);
      }
      showNumbering := show;
    }

    method SetIncludeInTOC(includeInTOC: bool)
      requires Shape()
      modifies this`includeInTOC
      ensures Shape() && (old(Valid()) ==> Valid())
      ensures this.includeInTOC == includeInTOC
    {
      this.includeInTOC := includeInTOC;
    }

    function GetSizingMechanism(): (s: Sizing)
      requires Shape()
      reads this
      ensures s == SizingOccupyAvailableSpace
    {
      sizing
    }

    /** Sum of the children's heights; the heading is not counted. */
    method Height(heightOf: Drawable -> real) returns (h: real)
      ensures h == TotalHeight(contents, heightOf)
    {
      h := 0.0;
      var i := 0;
      while i < |contents|
        invariant 0 <= i <= |contents|
        invariant h == TotalHeight(contents[..i], heightOf)
      {
        assert contents[..i + 1][..i] == contents[..i];
        h := h + heightOf(contents[i]);
        i := i + 1;
      }
      assert contents[..i] == contents;
    }

    /** The largest child width, zero when there is no child. */
    method Width(widthOf: Drawable -> real) returns (maxW: real)
      ensures maxW == MaxWidth(contents, widthOf)
    {
      maxW := 0.0;
      var i := 0;
      while i < |contents|
        invariant 0 <= i <= |contents|
        invariant maxW == MaxWidth(contents[..i], widthOf)
      {
        assert contents[..i + 1][..i] == contents[..i];
        var w := widthOf(contents[i]);
        maxW := if maxW >= w then maxW else w;
        i := i + 1;
      }
      assert contents[..i] == contents;
    }

    method SetPos(x: real, y: real)
      requires Shape()
      modifies this`positioning, this`xPos, this`yPos
      ensures Shape() && (old(Valid()) ==> Valid())
      ensures positioning == PositionAbsolute && xPos == x && yPos == y
    {
      positioning := PositionAbsolute;
      xPos := x;
      yPos := y;
    }

    method SetMargins(left: real, right: real, top: real, bottom: real)
      requires Shape()
      modifies this`margins
      ensures Shape() && (old(Valid()) ==> Valid())
      ensures GetMargins() == (left, right, top, bottom)
    {
      margins := margins.(left := left);
      margins := margins.(right := right);
      margins := margins.(top := top);
      margins := margins.(bottom := bottom);
    }

    /** Left, right, top and bottom margins, in that order. */
    function GetMargins(): (m: (real, real, real, real))
      reads this
      ensures Margins(m.0, m.1, m.2, m.3) == margins
    {
      (margins.left, margins.right, margins.top, margins.bottom)
    }

    /**
     * Appends a paragraph, image, block or subchapter; the chapter itself,
     * any other chapter and any other kind are dropped without an error.
     */
    method Add(d: Drawable)
      requires Shape()
      modifies this`contents
      ensures Shape() && (old(Valid()) ==> Valid())
      ensures d == ChapterItem(this) ==> contents == old(contents)
      ensures contents == if Insertable(d) then old(contents) + [d] else old(contents)
    {
      if d == ChapterItem(this) {
        return;
      }
      match d
      case ChapterItem(_) =>
      case ParagraphItem(_) => contents := contents + [d];
      case ImageItem(_) => contents := contents + [d];
      case BlockItem(_) => contents := contents + [d];
      case SubchapterItem(_) => contents := contents + [d];
      case OtherItem(_) =>
    }

    /**
     * Renders the heading, moves one page on when the heading overflowed,
     * registers the chapter in the table of contents, then folds the children's
     * blocks into the heading's.
     */
    method GeneratePageBlocks(ctx: DrawContext, renderHeading: HeadingRenderer, render: Renderer) returns (o: Outcome)
      modifies toc
      ensures o == Paginate(renderHeading(heading.text, ctx), contents, render)
      ensures var h := renderHeading(heading.text, ctx);
        toc.entries == old(toc.entries) +
          (if h.err.None? && includeInTOC then [TocEntry(title, number, 0, AfterHeading(h).page)] else [])
    {
      var h := renderHeading(heading.text, ctx);
      var blocks, c, err := h.blocks, h.ctx, h.err;
      if err.Some? {
        return Returned(blocks, c, err);
      }
      if |blocks| > 1 {
        c := c.(page := c.page + 1);
      }
      if includeInTOC {
        toc.Add(title, number, 0, c.page);
      }
      ghost var entries := toc.entries;
      var i := 0;
      while i < |contents|
        invariant 0 <= i <= |contents|
        invariant Fold(blocks, c, contents[i..], render) == Paginate(h, contents, render)
        invariant toc.entries == entries
      {
        var g := render(contents[i], c);
        assert contents[i..][1..] == contents[i + 1..];
        if g.err.Some? {
          return Returned(blocks, c, g.err);
        }
        if |g.blocks| >= 1 {
          if |blocks| == 0 {
            return Panicked;
          }
          ghost var merged := MergeInto(blocks, g.blocks);
          blocks := blocks[|blocks| - 1 := MergeBlocks(blocks[|blocks| - 1], g.blocks[0])];
          blocks := blocks + g.blocks[1..];
          assert blocks == merged;
          c := g.ctx;
        }
        i := i + 1;
      }
      return Returned(blocks, c, None);
    }
  }

  class Creator {
    var chapters: nat
    const toc: TableOfContents

    constructor ()
      ensures chapters == 0 && fresh(toc) && toc.entries == []
    {
      chapters := 0;
      toc := new TableOfContents();
    }

    /** Takes the next chapter number and builds the chapter with its numbered heading. */
    method NewChapter(title: string) returns (chap: Chapter)
      modifies this`chapters
      ensures chapters == old(chapters) + 1
      ensures fresh(chap) && fresh(chap.heading) && chap.Valid()
      ensures chap.number == chapters && chap.title == title && chap.toc == toc
      ensures chap.heading.text == NatToString(chap.number) + ". " + title
      ensures chap.showNumbering && chap.includeInTOC && chap.contents == []
      ensures chap.sizing == SizingOccupyAvailableSpace
    {
      chapters := chapters + 1;
      chap := new Chapter(chapters, title, toc);
    }
  }

  /** Building the chapter "Intro": its number, heading, accepted contents and numbering toggle. */
  method IntroContentsScenario() {
    var creator := new Creator();
    var chap := creator.NewChapter("Intro");
    assert chap.number == 1 && chap.heading.text == "1. Intro";

    chap.Add(ParagraphItem(7));
    chap.Add(ChapterItem(chap));
    var other := creator.NewChapter("Other");
    chap.Add(ChapterItem(other));
    chap.Add(OtherItem(8));
    assert chap.contents == [ParagraphItem(7)];

    chap.SetShowNumbering(false);
    assert chap.heading.text == "Intro";
    chap.SetShowNumbering(true);
    assert chap.heading.text == "1. Intro";
  }

  /** A heading retexted by a caller: the chapter stays usable and SetShowNumbering repairs it. */
  method RetextedHeadingScenario() {
    var creator := new Creator();
    var chap := creator.NewChapter("Intro");
    chap.heading.SetText("Custom");
    chap.Add(ParagraphItem(1));
    chap.SetIncludeInTOC(false);
    chap.SetPos(1.0, 2.0);
    chap.SetMargins(1.0, 2.0, 3.0, 4.0);
    assert chap.GetSizingMechanism() == SizingOccupyAvailableSpace;
    assert chap.contents == [ParagraphItem(1)];
    chap.SetShowNumbering(true);
    assert chap.Valid() && chap.heading.text == "1. Intro";
  }

  /** Generating the chapter "Intro" with one paragraph that fits, from page 0, with and without a TOC entry. */
  method IntroGenerationScenario() {
    var creator := new Creator();
    var chap := creator.NewChapter("Intro");
    chap.Add(ParagraphItem(7));
    assert chap.heading.text == "1. Intro";

    var start := DrawContext(0, 0.0, 0.0, 0.0, 0.0);
    var renderHeading := (text: string, c: DrawContext) => Generated([Block([text])], c, None);
    var render := (d: Drawable, c: DrawContext) => Generated([Block(["body"])], c, None);
    var o := chap.GeneratePageBlocks(start, renderHeading, render);
    var h := Generated([Block(["1. Intro"])], start, None);
    assert renderHeading(chap.heading.text, start) == h;
    assert AfterHeading(h) == start;
    assert MergeBlocks(Block(["1. Intro"]), Block(["body"])) == Block(["1. Intro", "body"]);
    assert MergeInto(h.blocks, [Block(["body"])]) == [Block(["1. Intro", "body"])];
    assert Fold(h.blocks, start, chap.contents, render) == Fold([Block(["1. Intro", "body"])], start, [], render);
    assert o == Returned([Block(["1. Intro", "body"])], start, None);
    assert creator.toc.entries == [TocEntry("Intro", 1, 0, 0)];

    chap.SetIncludeInTOC(false);
    var o' := chap.GeneratePageBlocks(start, renderHeading, render);
    assert o' == o;
    assert creator.toc.entries == [TocEntry("Intro", 1, 0, 0)];
  }
}
