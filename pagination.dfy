/**
 * The pagination fold of a chapter: the heading's blocks, then every content
 * item's blocks stitched on, the first block of each item merged into the last
 * block accumulated so far. The item type is generic; how one item renders
 * itself is a parameter `render`, called with the context left by the items
 * before it.
 */
module Pagination {
  import opened Wrappers
  import opened Blocks

  /** The drawing context threaded from item to item. */
  datatype DrawContext = DrawContext(page: int, x: real, y: real, width: real, height: real)

  datatype Error = Error(message: string)

  /** What one GeneratePageBlocks call returns: blocks, updated context, error or none. */
  datatype Generated = Generated(blocks: seq<Block>, ctx: DrawContext, err: Option<Error>)

  /**
   * How the chapter's own GeneratePageBlocks ends: it returns, or it indexes
   * the last block of an empty block list and panics.
   */
  datatype Outcome = Returned(blocks: seq<Block>, ctx: DrawContext, err: Option<Error>) | Panicked

  /** Merge the first of `more` into the last of `acc`, then append the rest of `more`. */
  function MergeInto(acc: seq<Block>, more: seq<Block>): (r: seq<Block>)
    requires |acc| >= 1 && |more| >= 1
    ensures |r| == |acc| + |more| - 1
    ensures r[..|acc| - 1] == acc[..|acc| - 1]
    ensures r[|acc| - 1] == MergeBlocks(acc[|acc| - 1], more[0])
    ensures r[|acc|..] == more[1..]
    ensures Flatten(r) == Flatten(acc) + Flatten(more)
  {
    var front, last := acc[..|acc| - 1], acc[|acc| - 1];
    var r := front + [MergeBlocks(last, more[0])] + more[1..];
    assert acc == front + [last];
    assert more == [more[0]] + more[1..];
    FlattenAppend(front, [last]);
    FlattenAppend(front + [MergeBlocks(last, more[0])], more[1..]);
    FlattenAppend(front, [MergeBlocks(last, more[0])]);
    FlattenAppend([more[0]], more[1..]);
    assert r[..|acc| - 1] == front;
    assert r[|acc|..] == more[1..];
    r
  }

  /**
   * The loop over the contents, from accumulated blocks `acc` and context `ctx`.
   * It only panics when nothing was accumulated, and never drops blocks.
   */
  function Fold<D>(acc: seq<Block>, ctx: DrawContext, items: seq<D>, render: (D, DrawContext) -> Generated): (o: Outcome)
    ensures |acc| >= 1 ==> o.Returned?
    ensures o.Returned? ==> |o.blocks| >= |acc|
    decreases |items|
  {
    if items == [] then Returned(acc, ctx, None)
    else
      var g := render(items[0], ctx);
      if g.err.Some? then Returned(acc, ctx, g.err)
      else if |g.blocks| < 1 then Fold(acc, ctx, items[1..], render)
      else if |acc| == 0 then Panicked
      else Fold(MergeInto(acc, g.blocks), g.ctx, items[1..], render)
  }

  /** Continue a fold that stopped at the end of its items with further items. */
  function Resume<D>(o: Outcome, more: seq<D>, render: (D, DrawContext) -> Generated): Outcome {
    if o.Returned? && o.err.None? then Fold(o.blocks, o.ctx, more, render) else o
  }

  /**
   * The results of the items that drew something, in order, up to the first
   * item that fails; each sees the context of the last item that drew.
   */
  function Drawn<D>(ctx: DrawContext, items: seq<D>, render: (D, DrawContext) -> Generated): (gs: seq<Generated>)
    ensures forall i :: 0 <= i < |gs| ==> |gs[i].blocks| >= 1 && gs[i].err.None?
    decreases |items|
  {
    if items == [] then []
    else
      var g := render(items[0], ctx);
      if g.err.Some? then []
      else if |g.blocks| < 1 then Drawn(ctx, items[1..], render)
      else [g] + Drawn(g.ctx, items[1..], render)
  }

  /** Blocks each drawing item adds beyond the one merged into the previous last block. */
  function Extra(gs: seq<Generated>): nat
    requires forall i :: 0 <= i < |gs| ==> |gs[i].blocks| >= 1
    decreases |gs|
  {
    if gs == [] then 0 else |gs[0].blocks| - 1 + Extra(gs[1..])
  }

  /** All operations the drawing items produced, in order. */
  function DrawnOps(gs: seq<Generated>): seq<Op>
    decreases |gs|
  {
    if gs == [] then [] else Flatten(gs[0].blocks) + DrawnOps(gs[1..])
  }

  /** The context returned by the last drawing item, or `ctx` when none drew. */
  function LastCtx(ctx: DrawContext, gs: seq<Generated>): DrawContext {
    if gs == [] then ctx else gs[|gs| - 1].ctx
  }

  /**
   * From a non-empty accumulated list the fold never panics; it keeps all but the
   * last accumulated block as they were and grows by the extra blocks of the
   * items that drew.
   */
  lemma {:induction false} FoldMatchesDrawn<D>(acc: seq<Block>, ctx: DrawContext, items: seq<D>, render: (D, DrawContext) -> Generated)
    requires |acc| >= 1
    ensures Fold(acc, ctx, items, render).Returned?
    ensures |Fold(acc, ctx, items, render).blocks| == |acc| + Extra(Drawn(ctx, items, render))
    ensures Fold(acc, ctx, items, render).blocks[..|acc| - 1] == acc[..|acc| - 1]
    decreases |items|
  {
    if items != [] {
      var g := render(items[0], ctx);
      if g.err.None? && |g.blocks| < 1 {
        FoldMatchesDrawn(acc, ctx, items[1..], render);
      } else if g.err.None? {
        var acc' := MergeInto(acc, g.blocks);
        FoldMatchesDrawn(acc', g.ctx, items[1..], render);
        var rest := Drawn(g.ctx, items[1..], render);
        assert Drawn(ctx, items, render) == [g] + rest;
        assert ([g] + rest)[1..] == rest;
        var b := Fold(acc', g.ctx, items[1..], render).blocks;
        assert b[..|acc| - 1] == b[..|acc'| - 1][..|acc| - 1];
      }
    }
  }

  /**
   * From a non-empty accumulated list the fold keeps every operation in order,
   * the items' operations after the accumulated ones, and ends at the context of
   * the last item that drew (or the starting one).
   */
  lemma {:induction false} FoldKeepsOps<D>(acc: seq<Block>, ctx: DrawContext, items: seq<D>, render: (D, DrawContext) -> Generated)
    requires |acc| >= 1
    ensures Fold(acc, ctx, items, render).Returned?
    ensures Flatten(Fold(acc, ctx, items, render).blocks) == Flatten(acc) + DrawnOps(Drawn(ctx, items, render))
    ensures Fold(acc, ctx, items, render).ctx == LastCtx(ctx, Drawn(ctx, items, render))
    decreases |items|
  {
    if items != [] {
      var g := render(items[0], ctx);
      if g.err.None? && |g.blocks| < 1 {
        FoldKeepsOps(acc, ctx, items[1..], render);
      } else if g.err.None? {
        var acc' := MergeInto(acc, g.blocks);
        FoldKeepsOps(acc', g.ctx, items[1..], render);
        var rest := Drawn(g.ctx, items[1..], render);
        assert Drawn(ctx, items, render) == [g] + rest;
        assert ([g] + rest)[1..] == rest;
      }
    }
  }

  /**
   * The blocks a drawing item adds after its first one end the result
   * unchanged when it is the last item that drew.
   */
  lemma {:induction false} FoldEndsWithLastDrawn<D>(acc: seq<Block>, ctx: DrawContext, items: seq<D>, render: (D, DrawContext) -> Generated)
    requires |acc| >= 1
    requires Drawn(ctx, items, render) != []
    ensures var o, gs := Fold(acc, ctx, items, render), Drawn(ctx, items, render);
      var tail := gs[|gs| - 1].blocks[1..];
      |tail| <= |o.blocks| && o.blocks[|o.blocks| - |tail|..] == tail
    decreases |items|
  {
    var g := render(items[0], ctx);
    if g.err.None? && |g.blocks| < 1 {
      FoldEndsWithLastDrawn(acc, ctx, items[1..], render);
    } else {
      var acc' := MergeInto(acc, g.blocks);
      var rest := Drawn(g.ctx, items[1..], render);
      var gs := Drawn(ctx, items, render);
      assert gs == [g] + rest;
      if rest == [] {
        assert gs[|gs| - 1] == g;
        FoldFromNoDrawers(acc', g.ctx, items[1..], render);
        assert Fold(acc, ctx, items, render).blocks == acc';
        assert acc'[|acc'| - |g.blocks[1..]|..] == acc'[|acc|..];
      } else {
        assert gs[|gs| - 1] == rest[|rest| - 1];
        FoldEndsWithLastDrawn(acc', g.ctx, items[1..], render);
        assert Fold(acc, ctx, items, render) == Fold(acc', g.ctx, items[1..], render);
      }
    }
  }

  /** When no item draws, the fold returns the accumulated blocks unchanged. */
  lemma {:induction false} FoldFromNoDrawers<D>(acc: seq<Block>, ctx: DrawContext, items: seq<D>, render: (D, DrawContext) -> Generated)
    requires Drawn(ctx, items, render) == []
    ensures Fold(acc, ctx, items, render).Returned?
    ensures Fold(acc, ctx, items, render).blocks == acc
    ensures Fold(acc, ctx, items, render).ctx == ctx
    decreases |items|
  {
    if items != [] {
      var g := render(items[0], ctx);
      if g.err.None? {
        FoldFromNoDrawers(acc, ctx, items[1..], render);
      }
    }
  }

  /**
   * From an empty accumulated list the fold panics exactly when some item before
   * the first failure drew something; otherwise it returns no blocks and the
   * starting context.
   */
  lemma {:induction false} FoldFromEmpty<D>(ctx: DrawContext, items: seq<D>, render: (D, DrawContext) -> Generated)
    ensures var o := Fold([], ctx, items, render);
      && (o.Panicked? <==> Drawn(ctx, items, render) != [])
      && (o.Returned? ==> o.blocks == [] && o.ctx == ctx)
    decreases |items|
  {
    if items != [] {
      var g := render(items[0], ctx);
      if g.err.None? && |g.blocks| < 1 {
        FoldFromEmpty(ctx, items[1..], render);
      }
    }
  }

  /** The fold over a concatenation is the fold over the second part resumed from the first. */
  lemma {:induction false} FoldAppend<D>(acc: seq<Block>, ctx: DrawContext, xs: seq<D>, ys: seq<D>, render: (D, DrawContext) -> Generated)
    ensures Fold(acc, ctx, xs + ys, render) == Resume(Fold(acc, ctx, xs, render), ys, render)
    decreases |xs|
  {
    if xs == [] {
      assert xs + ys == ys;
    } else {
      assert (xs + ys)[0] == xs[0];
      assert (xs + ys)[1..] == xs[1..] + ys;
      var g := render(xs[0], ctx);
      if g.err.None? {
        if |g.blocks| < 1 {
          FoldAppend(acc, ctx, xs[1..], ys, render);
        } else if |acc| > 0 {
          FoldAppend(MergeInto(acc, g.blocks), g.ctx, xs[1..], ys, render);
        }
      }
    }
  }

  /**
   * When item k fails, the fold returns the blocks and context reached before
   * item k together with item k's error; the items after k are never rendered.
   */
  lemma FoldStopsAtError<D>(acc: seq<Block>, ctx: DrawContext, items: seq<D>, k: nat, render: (D, DrawContext) -> Generated)
    requires k < |items|
    requires Fold(acc, ctx, items[..k], render).Returned?
    requires Fold(acc, ctx, items[..k], render).err.None?
    requires render(items[k], Fold(acc, ctx, items[..k], render).ctx).err.Some?
    ensures var o := Fold(acc, ctx, items[..k], render);
      Fold(acc, ctx, items, render) == Returned(o.blocks, o.ctx, render(items[k], o.ctx).err)
  {
    assert items == items[..k] + items[k..];
    FoldAppend(acc, ctx, items[..k], items[k..], render);
  }

  /** When no successful item moves the page backwards, neither does the fold. */
  lemma {:induction false} FoldPageMonotone<D>(acc: seq<Block>, ctx: DrawContext, items: seq<D>, render: (D, DrawContext) -> Generated)
    requires forall d, c :: render(d, c).err.None? ==> render(d, c).ctx.page >= c.page
    ensures Fold(acc, ctx, items, render).Returned? ==> Fold(acc, ctx, items, render).ctx.page >= ctx.page
    decreases |items|
  {
    if items != [] {
      var g := render(items[0], ctx);
      if g.err.None? {
        if |g.blocks| < 1 {
          FoldPageMonotone(acc, ctx, items[1..], render);
        } else if |acc| > 0 {
          FoldPageMonotone(MergeInto(acc, g.blocks), g.ctx, items[1..], render);
        }
      }
    }
  }

  /** The context after the heading: one page further when the heading overflowed. */
  function AfterHeading(h: Generated): (c: DrawContext)
    ensures c == h.ctx.(page := c.page)
    ensures c.page == h.ctx.page + (if |h.blocks| > 1 then 1 else 0)
  {
    if |h.blocks| > 1 then h.ctx.(page := h.ctx.page + 1) else h.ctx
  }

  /** The whole chapter pagination, given the heading's own result `h`. */
  function Paginate<D>(h: Generated, items: seq<D>, render: (D, DrawContext) -> Generated): (o: Outcome)
    ensures h.err.Some? ==> o == Returned(h.blocks, h.ctx, h.err)
    ensures h.err.None? && |h.blocks| >= 1 ==> o.Returned? && |o.blocks| >= |h.blocks|
  {
    if h.err.Some? then Returned(h.blocks, h.ctx, h.err)
    else Fold(h.blocks, AfterHeading(h), items, render)
  }

  /**
   * A failing heading is returned as it is. A heading with blocks leads to a
   * result that keeps the heading's operations first and the items' after them,
   * whose length is the heading's block count plus the extra blocks of the items
   * that drew, and that ends at the context of the last item that drew. A heading
   * without blocks panics exactly when some item draws.
   */
  lemma PaginateShape<D>(h: Generated, items: seq<D>, render: (D, DrawContext) -> Generated)
    ensures var o, gs := Paginate(h, items, render), Drawn(AfterHeading(h), items, render);
      && (h.err.Some? ==> o == Returned(h.blocks, h.ctx, h.err))
      && (h.err.None? && |h.blocks| >= 1 ==>
            && o.Returned?
            && |o.blocks| == |h.blocks| + Extra(gs)
            && Flatten(o.blocks) == Flatten(h.blocks) + DrawnOps(gs)
            && o.ctx == LastCtx(AfterHeading(h), gs))
      && (h.err.None? && h.blocks == [] ==> (o.Panicked? <==> gs != []))
  {
    if h.err.None? {
      if |h.blocks| >= 1 {
        FoldMatchesDrawn(h.blocks, AfterHeading(h), items, render);
        FoldKeepsOps(h.blocks, AfterHeading(h), items, render);
      } else {
        FoldFromEmpty(AfterHeading(h), items, render);
      }
    }
  }
}
