# Chapter composite of the unipdf creator, in Dafny

This project models `Chapter` from `pdf/creator/chapters.go` of the unipdf PDF creator. A chapter is a numbered, titled container. It owns a heading paragraph and an ordered list of child drawables. It reports its size to the layout engine. It paginates itself into page blocks and registers itself in the creator's table of contents.

Files and modules:

- `wrappers.dfy` (`Wrappers`): `Option`, used for "error or none".
- `decimal.dfy` (`Decimal`): decimal formatting of a chapter number (Go's `%d` on a positive int) and its inverse.
- `headings.dfy` (`Headings`): the heading text as a function of number, title and show-numbering flag. It also has a parser that recovers number and title from a numbered heading.
- `blocks.dfy` (`Blocks`): page blocks, kept abstract as lists of content operations. `MergeBlocks` appends the following block's operations to the receiver.
- `pagination.dfy` (`Pagination`): the draw context and the result of a `GeneratePageBlocks` call. It holds the left-to-right fold over the children (`Fold`), the list of children that actually drew (`Drawn`), the whole chapter pagination (`Paginate`), and the lemmas about them.
- `chapters.dfy` (`Chapters`): the drawable kinds and the classes `Paragraph` (the heading), `TableOfContents` (the sink), `Chapter` and `Creator` (the chapter counter and the TOC reference). Its methods change their fields in place, as the Go code does. Two client methods at the end build the "Intro" chapter and generate it, with and without a TOC entry.

The rendering of each child and of the heading is a function parameter of `GeneratePageBlocks`. It maps an item and the current draw context to (blocks, context, error or none). So each child is rendered with the context left by the children before it, as in the loop at lines 172-186. Item heights and widths are parameters of `Height` and `Width` in the same way.

Three behaviours of the code are worth naming, and the model keeps them as written:

- When the heading fails, the call returns the heading's own blocks and context (lines 159-161), not an empty list.
- The code adopts each drawing child's returned context as it is (line 185). So the page never decreases, provided no child moves it back. `FoldPageMonotone` proves it under exactly that condition.
- Line 182 indexes the last accumulated block. If the heading returned no blocks and a child draws, Go panics. The model makes this the outcome `Panicked`. `FoldFromEmpty` and `PaginateShape` say exactly when it happens.

## Model

| member | source | states |
|---|---|---|
| `Decimal.NatToString` | pdf/creator/chapters.go:58 | the number's `%d` text is non-empty, made only of decimal digits, and starts with '0' exactly when the number is 0 |
| `Decimal.ParseNatToString` | pdf/creator/chapters.go:58 | reading the formatted number back gives the number, so no two numbers format alike |
| `Headings.HeadingTextShape` | pdf/creator/chapters.go:78-82 | the title always ends the heading; without numbering the heading is the bare title; with numbering it is the number's decimal text, then ". ", then the title |
| `Headings.HeadingRoundTrip` | pdf/creator/chapters.go:58 | a numbered heading "{number}. {title}" parses back to exactly that number and title |
| `Headings.NumberedHeadingInjective` | pdf/creator/chapters.go:51-58 | chapters with different numbers (or titles) get different numbered headings |
| `Pagination.Fold` | pdf/creator/chapters.go:172-188 | the loop over the children panics only when no block was accumulated, and never returns fewer blocks than it started with |
| `Pagination.MergeInto` | pdf/creator/chapters.go:181-183 | merging an item's blocks gives as many blocks as the two lists together minus one; all but the last accumulated block are untouched, the last becomes that block merged with the item's first block, the item's other blocks follow unchanged, and every operation keeps its order |
| `Pagination.Drawn` | pdf/creator/chapters.go:172-186 | the children that drew something, up to the first failure: each produced at least one block and no error |
| `Pagination.FoldMatchesDrawn` | pdf/creator/chapters.go:172-188 | with at least one accumulated block the loop never panics; the length becomes the starting count plus, over the children that drew, their block count − 1; all but the last starting block are unchanged; so the length never shrinks |
| `Pagination.FoldKeepsOps` | pdf/creator/chapters.go:172-188 | the result holds the accumulated operations followed by the drawing children's operations, in order; a child with no blocks leaves the context as it was, and the final context is that of the last child that drew |
| `Pagination.FoldEndsWithLastDrawn` | pdf/creator/chapters.go:182-183 | the blocks after the first one of the last child that drew end the result unchanged |
| `Pagination.FoldFromNoDrawers` | pdf/creator/chapters.go:172-180 | when no child draws, the loop returns the accumulated blocks and the context as they were |
| `Pagination.FoldFromEmpty` | pdf/creator/chapters.go:177-183 | with no accumulated block the loop panics exactly when some child before the first failure draws; otherwise it returns no blocks and the starting context |
| `Pagination.FoldAppend` | pdf/creator/chapters.go:172-186 | the loop is a left fold: over xs + ys it is the loop over ys resumed from where the loop over xs ended without error |
| `Pagination.FoldStopsAtError` | pdf/creator/chapters.go:173-176 | when child k fails, the call returns the blocks and the context from before child k with child k's error, and the later children play no part |
| `Pagination.FoldPageMonotone` | pdf/creator/chapters.go:172-186 | if no successful child moves the page backwards, the final page is at least the starting page |
| `Pagination.AfterHeading` | pdf/creator/chapters.go:163-165 | the context after the heading is the heading's returned context, one page further exactly when the heading produced more than one block; all other fields are unchanged |
| `Pagination.Paginate` | pdf/creator/chapters.go:158-188 | a failing heading is returned with its own blocks, context and error; a heading that succeeded with blocks never leads to a panic and its blocks are never dropped |
| `Pagination.PaginateShape` | pdf/creator/chapters.go:158-188 | a failing heading is returned as is; a heading with blocks gives a result of heading count + extra child blocks, heading operations first, ending at the last drawing child's context; a heading with no blocks panics exactly when a child draws |
| `Chapters.TotalHeightAppend` | pdf/creator/chapters.go:102-108 | the chapter height is additive: adding contents adds exactly their heights |
| `Chapters.MaxWidth` | pdf/creator/chapters.go:111-117 | the width is non-negative, at least every child's width, and either 0 or some child's width |
| `Chapters.Chapter.Height` | pdf/creator/chapters.go:102-108 | the accumulator loop returns the sum of the children's heights, without the heading |
| `Chapters.Chapter.Width` | pdf/creator/chapters.go:111-117 | the accumulator loop returns the maximum of 0 and the children's widths |
| `Chapters.Chapter.constructor` | pdf/creator/chapters.go:49-70 | number, title and TOC reference as given, heading "{number}. {title}", both flags true, empty contents, occupy-available-space sizing, relative positioning and zero margins |
| `Chapters.Creator.NewChapter` | pdf/creator/chapters.go:48-73 | the creator's counter goes up by exactly one, and the new chapter takes the new value as its number, with the heading "{number}. {title}", both flags true, empty contents, the creator's TOC and occupy-available-space sizing |
| `Chapters.Chapter.SetShowNumbering` | pdf/creator/chapters.go:76-85 | the heading becomes "{number}. {title}" when showing and the bare title otherwise; the flag records the argument; the heading invariant holds afterwards even if a caller had retexted the heading, so repeating a call changes nothing and off-then-on restores the numbered heading |
| `Chapters.Chapter.SetIncludeInTOC` | pdf/creator/chapters.go:88-90 | the flag records the argument and nothing else changes; a retexted heading is accepted |
| `Chapters.Chapter.GetSizingMechanism` | pdf/creator/chapters.go:97-99 | a chapter always reports occupy-available-space, whatever its heading holds |
| `Chapters.Chapter.SetPos` | pdf/creator/chapters.go:120-124 | switches to absolute positioning and stores both coordinates; nothing else changes |
| `Chapters.Chapter.SetMargins` | pdf/creator/chapters.go:127-137 | afterwards GetMargins returns left, right, top, bottom as given; nothing else changes |
| `Chapters.Chapter.GetMargins` | pdf/creator/chapters.go:134-137 | the four values, read as left, right, top, bottom, give back the chapter's margins record |
| `Chapters.Chapter.Add` | pdf/creator/chapters.go:140-154 | a paragraph, image, block or subchapter is appended at the end with earlier contents kept as a prefix; the chapter itself, any other chapter or another kind leaves the contents unchanged; no error is raised |
| `Chapters.Chapter.GeneratePageBlocks` | pdf/creator/chapters.go:158-189 | the result is `Paginate` of the heading's result and the contents; the chapter itself adds exactly one TOC entry (title, number, 0, page after the heading) when the heading succeeded and the flag is set, and none otherwise, even when a child fails later |

## Left out

- Rendering of the heading paragraph and of every child is not modelled: it is a function parameter. The paragraph, image, block and subchapter sources are not part of this model.
- `mergeBlocks` is modelled as appending the following block's operations. Its resource renaming and its error result, which line 182 ignores, are not modelled; block.go is not part of this model.
- Blocks are values. Aliasing between the `*Block` pointers of different results is not modelled.
- Children render through a pure function parameter, so entries that a nested subchapter adds to the shared table of contents during the call are not modelled; `GeneratePageBlocks` states only the chapter's own entry.
- The table of contents is modelled only as "append one entry" (`TableOfContents.Add`). Its storage and rendering are not part of this model. The entry's third field, 0 here, is named `level`.
- `DrawContext` keeps the page, the cursor and the available size. Its margins and page dimensions are not modelled, because the chapter never reads them.
- Font setup of the heading (lines 60-61) is not modelled; it is library configuration with no logic here.
- Debug logging (lines 142, 148, 152) is not modelled; it is output only.
- Float semantics in `Height`, `Width`, `SetPos` and `SetMargins` are left out: reals stand for float64, so rounding is not modelled and neither is the NaN behaviour of `math.Max`.
- The unused `subchapters` field (line 22) is not modelled.
- `GetHeading` (lines 92-94) is not a separate member: the heading is the chapter's public `heading` field. Since callers may retext it, no chapter operation requires the heading invariant: the setters, `Add` and `GetSizingMechanism` require only the sizing and contents invariant (`Shape`), keep the heading invariant when it held, and `GeneratePageBlocks` renders whatever text the heading holds.
- `fmt.Sprintf` is modelled only as decimal formatting of a non-negative number and concatenation; the counter starts at 0 and only grows. 64-bit overflow of the counter is not modelled.
- `Creator` is modelled only with its chapter counter and its TOC reference; the rest of the creator is not part of this model.
