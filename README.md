# pretty.rs layout engine, modelled in Dafny

This project models the core of `pretty.rs`, the Wadler/Hughes-style
document layout engine in `src/doc.rs`. The model covers:

- the document tree `Doc` and the rendering `Mode`;
- the lookahead `fitting`, which walks a scratch stack with a signed
  budget and borrows committed items from the main stack once its own stack
  is empty;
- the main loop `best`, with its committed stack of `(indent, mode, doc)`
  items, the column `pos`, the annotation-level stack, the re-check after a
  forced newline and the end-of-iteration scope close;
- the emission helpers `write_str_all` (the default loop), `write_spaces`
  and `write_newline`, against a sink whose `write_str` takes between one
  byte and all of its argument, or fails;
- the colour stack of the `termcolor` back end, as recorded `SetColor` and
  `Reset` commands.

Files:

- `docs.dfy` (module `Docs`): bytes, `Mode`, `Doc`, work items `Cmd`. It
  also defines the left-to-right token stream `Leaves` of a document. This
  stream is the reference definition both loops are proved against. The
  expansion of an `Append` onto a stack is here too.
- `fitting.dfy` (module `LineFit`): `fitting` as a method with its loop. It
  is proved equal to `Fits`, the lookahead on the token stream, and `Fits`
  is characterised by the width up to the first line end.
- `sink.dfy` (module `Sinks`): the sink as a class that records an event
  trace of `Write(chunk)`, `Push(a)`, `Pop` and `Fail` (a call that
  reported an error), with nondeterministic failure and partial writes.
  The emission helpers are methods over it. `Outcome` states how `try!`
  ends a run of calls: a success made no failing call and no empty write,
  and an error comes from the last call made, after no earlier failure or
  empty write.
- `best.dfy` (module `Best`): one iteration of `best` as a function `Step`,
  the whole rendering as `Run`/`Render`, and `best` itself as a method
  whose loop is proved to deliver exactly `Render(doc, width)`. On a sink
  failure it returns the error unchanged after a prefix of that output.
  `Step` is built from three functions, the reference definitions of
  src/doc.rs:358-432: `Exec` (one popped item's match arm), `Recheck`
  (the re-check after a newline) and `CloseScope` (the end-of-iteration
  close).
- `laws.dfy` (module `RenderLaws`): what the rendering means. Leaves come
  out in order, text verbatim, and only the modes of spaces are chosen.
  Documents without layout choices render as their texts. Group decisions
  are decided by the width up to the next line end. Annotations do not
  steer the layout, nested indentation composes, and pops never outnumber
  pushes.
- `colors.dfy` (module `Colors`): the `TermColored` colour stack.
- `scenarios.dfy` (module `Scenarios`): concrete renderings. These include
  the `"hello world"` doc-comment example and one scenario for each quirk
  below.

Text is a sequence of bytes, and its width is its length, as `str.len()`
counts UTF-8 bytes. Integers are unbounded. The sink is the only source of
failure, and its behaviour is a free choice at every call.

Behaviours modelled as the code has them, where an idealised Wadler/Hughes
pretty-printer would behave otherwise:

- A flat `Space` writes one blank but does not advance `pos`
  (src/doc.rs:386-389). An idealised pretty-printer advances the column by
  one. `Scenarios.OverlongLine` shows a six-column line at
  width five that results.
- After a `Newline`, the copy of the flat run into `fcmds` is discarded
  because `fitting` clears `fcmds` first. The lookahead therefore reads
  the top item once as the popped item and once more as the top of
  `bcmds` (src/doc.rs:408-411). `Scenarios.RecheckBreaksShortLine` shows a
  five-column phrase broken at width eight as a result.
- At most one annotation scope closes per iteration (src/doc.rs:429 is an
  `if`). When two annotations end together, the inner one closes and the
  outer close is delayed. It happens at the next iteration that ends with
  the stack at the outer scope's recorded height, and never if no later
  iteration does. An idealised pretty-printer closes both scopes at once.
  `Scenarios.DelayedClose` shows text that follows both annotations written
  inside the outer scope. `Scenarios.OneClose` shows the close dropped at
  the end of the document. `RenderLaws.Scopes` proves the direction that
  does hold: pops never outnumber pushes.
- A `Nest` is one more iteration of the loop, so one more end-of-iteration
  scope check. `Nest(n1, Nest(n2, d))` writes the same bytes as
  `Nest(n1 + n2, d)` (`RenderLaws.NestBytes`). Its whole rendering is the
  same when no open scope was recorded at the height where the outer nest
  sits (`RenderLaws.NestRun`), as at the top of a document
  (`RenderLaws.NestCompose`). When one was, the extra check can close one
  more delayed scope. `Scenarios.NestCloses` shows three annotations ending
  together, followed by a text under two nests: all three scopes close
  before the text. Under one `Nest(2, ..)` only two do, and the text lands
  inside the outermost scope.
- Each group is decided when it is popped, from the flat width of the
  group itself and of what follows it, up to the next line end
  (src/doc.rs:369-381). A break decision is never revised. A flat one is
  revised only by the re-check after a forced newline (src/doc.rs:408-414),
  as the second bullet above shows. A wider target can therefore produce
  more line breaks.
  `Scenarios.WiderBreaksMore` renders one document with one line feed at
  width 6 and with two at width 7. At width 6 the first group breaks, so
  the second starts near the left margin and fits. At width 7 the first
  group fits flat, and the second, starting further right, no longer
  fits. `Scenarios.GreedyNarrow` and `Scenarios.GreedyWide` state the
  same for any texts whose widths meet the two conditions.

## Model

| member | source | states |
|---|---|---|
| `Docs.PushAppend` | src/doc.rs:308-319 | Expanding an `Append` pushes the right child, walks the left spine pushing each right child, then pushes the leftmost document, all with the parent's indent and mode; the result equals the spine expansion `PushSpine` |
| `Docs.PushSpineTokens` | src/doc.rs:360-368 | Popping what the `Append` expansion pushed yields the leaves of the `Append` tree in left-to-right order, followed by the stack that was there before |
| `Docs.PushSpineFrame` | src/doc.rs:360-368 | The expansion only pushes: the old stack stays below, every new item has the parent's indent and mode, and the new top is not an `Append` |
| `Docs.PushSpineSize` | src/doc.rs:308-319 | The expansion never grows the total document size on the stack, and strictly shrinks it for an `Append` (termination measure of both loops) |
| `Docs.ShapeModeFree` | src/doc.rs:10-31 | The mode a document is expanded under changes only which way its spaces go, never which leaves it has or their indentation |
| `LineFit.Fitting` | src/doc.rs:282-344 | `fitting` returns exactly `Fits(next, bcmds, rem)`: the leaves of `next` followed by the committed stack read from the top down, whatever `fcmds` held; that holds iff the width up to the first line end is at most `rem`; and it is false when `rem < 0` |
| `LineFit.Expand` | src/doc.rs:305-340 | One popped lookahead item: `Nil` costs nothing, `Append` pushes its spine, `Group` and `Annotated` keep the mode, `Nest` adds its offset, text costs its length, flat `Space` costs 1, break `Space` and `Newline` stop with success; the pending stream keeps its verdict and the scratch size shrinks |
| `LineFit.FitsTokensWidth` | src/doc.rs:326-337 | The lookahead on a token stream succeeds iff the summed cost of the tokens before the first line end is at most the budget |
| `LineFit.FitsMonotone` | src/doc.rs:294-343 | The traversal does not depend on the budget, so fitting at budget `r` implies fitting at every `r' >= r` |
| `Sinks.Sink.WriteStr` | src/doc.rs:46 | `write_str` either fails with the sink's error and records one `Fail`, or consumes between 1 and `|s|` bytes and records that prefix as one write |
| `Sinks.Sink.WriteStrAll` | src/doc.rs:48-54 | The default `write_str_all` loop records non-empty chunks that join to exactly `s` on success, with no failed call; on an error, the failing `write_str` is the last call made, its error is returned, and the chunks before it join to a prefix of `s` |
| `Sinks.Sink.PushAnnotation` | src/doc.rs:95 | `push_annotation` records one `Push(a)` event, or fails with the sink's error and records one `Fail` |
| `Sinks.Sink.PopAnnotation` | src/doc.rs:96 | `pop_annotation` records one `Pop` event, or fails with the sink's error and records one `Fail` |
| `Sinks.WriteRun` | src/doc.rs:275-276 | One write of the first `k <= 100` blanks of the literal run of spaces records a chunk of between 1 and `k` blanks |
| `Sinks.WriteSpaces` | src/doc.rs:260-279 | `write_spaces(n)` records non-empty chunks of at most 100 bytes that join to exactly `n` blanks; on an error the failing call is the last one, after chunks that join to a prefix of the blanks |
| `Sinks.WriteNewline` | src/doc.rs:252-258 | `write_newline(i)` records chunks that join to a line feed followed by `i` blanks; if either write fails, the failing call is the last one made, after a prefix of that output |
| `Best.FlatRunStart` | src/doc.rs:402-407 | The start of the run above the topmost break-mode item: every item from it up is flat, and the item just below it (if any) is in break mode |
| `Best.FindFlatRun` | src/doc.rs:402-407 | The reverse scan for the first break-mode item computes `FlatRunStart` |
| `Best.BreakAll` | src/doc.rs:412-414 | The loop over `bcmds[docs..]` sets those items' modes to `Break` and leaves all else as it was |
| `Best.RecheckFrame` | src/doc.rs:395-417 | After a newline, only the run above the topmost break-mode item can change, and only in its modes, all set to `Break`; indents, documents and everything below stay; a break-mode top means no change; the stack changes iff the top is flat and the lookahead over the top item's leaves twice, then the rest, fails |
| `Best.RecheckLine` | src/doc.rs:401-416 | The re-check code, with its discarded copy into `fcmds` and the pop of its top, computes `Recheck` |
| `Best.StepShrinks` | src/doc.rs:357-433 | Every iteration strictly shrinks the total size of the committed documents, so the loop terminates |
| `Best.Layout` | src/doc.rs:359-385 | `Nil`, `Append`, `Group` and `Nest` emit nothing and leave the column and levels alone; a `Group` under a flat parent pushes its child flat without lookahead, under a break parent it pushes it flat iff `fitting((ind, Flat, child), bcmds, width - pos)` holds |
| `Best.EmitSpace` | src/doc.rs:386-394 | A flat `Space` emits one blank and leaves `pos` unchanged; a break `Space` emits a line feed and `ind` blanks and sets `pos = ind` |
| `Best.EmitText` | src/doc.rs:418-421 | A `Text` is emitted verbatim and advances `pos` by its byte length |
| `Best.EmitNewline` | src/doc.rs:395-417 | A `Newline` emits a line feed and `ind` blanks, sets `pos = ind` and replaces the stack by its re-check; on a sink failure the error comes back at once |
| `Best.EmitOpen` | src/doc.rs:422-426 | `Annotated` calls `push_annotation` first, then records the stack height before pushing its child, then pushes the child in the same indent and mode |
| `Best.CloseIfDone` | src/doc.rs:429-432 | At most one `pop_annotation` per iteration, and only when the stack height equals the top recorded level, which is then dropped |
| `Best.Execute` | src/doc.rs:358-427 | One popped item's sink calls deliver exactly that item's output and produce the next state; a sink failure is returned unchanged from the last call made, after a prefix of it |
| `Best.Iterate` | src/doc.rs:357-433 | One whole iteration keeps the account between what was delivered and what is still to render, and shrinks the stack; a failure comes from the last sink call made and leaves a prefix of the whole rendering |
| `Best.Best` | src/doc.rs:347-435 | `best` delivers exactly `Render(doc, width)` on success, with no failed sink call and no empty write; on an error the failing sink call is the last call made, the error is returned unchanged, and the output is a prefix of the rendering |
| `RenderLaws.Content` | src/doc.rs:383-421 | The bytes rendered are the document's leaves in left-to-right order, texts verbatim and every `Space`/`Newline` at its own indentation; layout only chooses each space's mode |
| `RenderLaws.ExecBytes` | src/doc.rs:383-421 | Each popped item outputs exactly the bytes of the leaf it is, and structural items output no bytes |
| `RenderLaws.ExecShape` | src/doc.rs:358-417 | Each popped item keeps the pending leaves, modes aside: what it emits followed by the new stack's leaves is its own leaves followed by the old stack's |
| `RenderLaws.PlainRender` | src/doc.rs:358-421 | A tree without `Group`, `Space` or `Newline` renders, annotations aside, as the concatenation of its texts at every width |
| `RenderLaws.GroupDecision` | src/doc.rs:369-381 | A `Group` emits nothing and pushes its child flat under a flat parent, and under a break parent flat iff the flat width of the child followed by the committed stack, up to the first line end, is at most `width - pos` |
| `RenderLaws.ExecScopes` | src/doc.rs:422-426 | An item's output is nested in the scopes already open, and the item opens exactly as many scopes as annotation levels it records |
| `RenderLaws.ExecOpens` | src/doc.rs:358-427 | An item records a new annotation level exactly when it is `Annotated`, and its output holds no `Close`: scopes are closed only by the end-of-iteration check |
| `RenderLaws.DecidedLevels` | src/doc.rs:358-421 | The layout decisions and the bytes written do not depend on the recorded annotation levels: the same stack and column give the same decisions under any level stack |
| `RenderLaws.NestDecided` | src/doc.rs:383-385 | On any committed stack, a nest of two nests and one nest by the sum lead to the same layout decisions |
| `RenderLaws.NestBytes` | src/doc.rs:383-385 | On any committed stack, a nest of two nests and one nest by the sum write the same bytes |
| `RenderLaws.NestRun` | src/doc.rs:383-432 | When no open scope was recorded at the height of the outer nest, a nest of two nests and one nest by the sum render identically, annotation events included |
| `RenderLaws.NestCompose` | src/doc.rs:383-385 | At the top of a document, `Nest(n1, Nest(n2, d))` and `Nest(n1 + n2, d)` render identically at every width |
| `RenderLaws.Scopes` | src/doc.rs:422-432 | In every rendering each `pop_annotation` closes a scope opened earlier and not closed yet, so pops never outnumber pushes |
| `Colors.TermColored.PushAnnotation` | src/doc.rs:151-154 | Pushing a colour puts it on the colour stack and sends `set_color` for it, after which the terminal shows the top of the stack |
| `Colors.TermColored.PopAnnotation` | src/doc.rs:155-161 | Popping drops the innermost colour (nothing on an empty stack) and sends `set_color` for the new top, or `reset` when the stack is empty, so the terminal shows the top of the stack |
| `Colors.ReplayNested` | src/doc.rs:155-161 | Replaying properly nested scopes on the colour stack never pops an empty stack, and leaves it as deep as the scopes still open |
| `Colors.RenderColors` | src/doc.rs:232-247 | Rendering any document to the colour back end never pops an empty colour stack; what is left on it is the number of scopes left open |
| `Scenarios.HelloWorld` | src/doc.rs:215-220 | The group `"hello" + space + "world"` renders as `hello world` at width 80 |
| `Scenarios.TwoWords` | src/doc.rs:369-381 | A group of two words joined by a space renders on one line iff both words and the blank fit the width, otherwise on two lines |
| `Scenarios.BlankNotCounted` | src/doc.rs:386-389 | Two groups, the first ending and the second starting with a space, both stay flat when only one blank is counted, because the flat blank does not advance the column |
| `Scenarios.OverlongLine` | src/doc.rs:386-389 | With a one-byte and a three-byte word, the flat-space quirk produces a six-column line at width five |
| `Scenarios.RecheckOne` | src/doc.rs:408-416 | Re-checking a stack of one flat item looks ahead over that item's leaves twice |
| `Scenarios.RecheckTwice` | src/doc.rs:395-416 | A group that opens with a newline keeps its phrase on one line only when twice the phrase's width fits |
| `Scenarios.RecheckBreaksShortLine` | src/doc.rs:401-416 | The phrase `abc d` needs five columns, yet after a leading newline it is broken at width eight |
| `Scenarios.Indented` | src/doc.rs:383-385 | A newline inside `Nest(k, ..)` breaks to column `k` |
| `Scenarios.IndentedWords` | src/doc.rs:369-394 | Two words in a group under `Nest(k, ..)` that do not fit: the group breaks and the space becomes a newline plus `k` blanks |
| `Scenarios.NestedGroup` | src/doc.rs:369-394 | `Nest(2, Group("a" Space "b"))` at width 1 renders `a`, newline, two blanks, `b` |
| `Scenarios.TwoScopes` | src/doc.rs:422-432 | Two nested annotations around a text emit push, push, the text, one pop |
| `Scenarios.OneClose` | src/doc.rs:429-432 | Because at most one scope closes per iteration, two annotations that end the document together leave the outer scope open: no later iteration reaches its height, so there is one more push than pop |
| `Scenarios.NestCloses` | src/doc.rs:429-432 | Three annotations ending together, then a text: under two nests all three scopes close before the text, under one nest by the sum only two do |
| `Scenarios.GreedyNarrow` | src/doc.rs:369-381 | For texts `a`..`e` with `width < |a|+1+|b|+|c|` and `|b|+|c|+1+|d|+1+|e| <= width`, the first group breaks and the second stays flat |
| `Scenarios.GreedyWide` | src/doc.rs:369-381 | For texts with `|a|+1+|b|+|c| <= width` and `width < |a|+|b|+|c|+1+|d|+1+|e|`, the first group stays flat and the second breaks |
| `Scenarios.WiderBreaksMore` | src/doc.rs:369-381 | The same document renders with one line feed at width 6 and with two at width 7: a wider target does not mean fewer breaks |
| `Scenarios.DelayedClose` | src/doc.rs:422-432 | Two annotations that end together, followed by two texts: the inner scope closes after its text, the outer one only after the first following text, which is therefore emitted inside it |

## Left out

- The `IoWrite` and `FmtWrite` adapters (src/doc.rs:57-122) are thin
  delegations to `std::io::Write` and `std::fmt::Write`; the sink is
  modelled abstractly instead, including their no-op annotation calls.
- The `termcolor` calls in `TermColored` are a foreign library; only its
  colour stack is modelled, with `set_color`/`reset` as recorded commands
  that may fail.
- The `Pretty` display wrapper and the entry points `render`, `render_fmt`,
  `render_raw` and `render_colored` (src/doc.rs:164-248) only forward to
  `best`; the `From` conversion, `Cow`, lifetimes and the generic `Deref`
  pointer do not affect behaviour. Children are held directly in the tree.
- `usize` overflow of `ind + off` and `pos += len`, and the `isize` casts
  of `width - pos` and of text lengths, are not modelled: all integers are
  unbounded.
- Sinks.Sink.WriteStrAll: does not model the panic of `s = &s[count..]`
  (src/doc.rs:51) when a sink's count falls inside a multi-byte UTF-8
  character. Text is bytes here, so such a split is written as two chunks
  and the loop goes on.
- `Sinks.Sink.fault`: every failing call of one sink reports the same
  error value, so the contracts identify the failing call by its place in
  the trace (the last call made) rather than by the error it returned.
- A sink whose `write_str` returns 0 for a non-empty string would make the
  write loops spin forever; the sink here always makes progress.
- The adapters' own `write_str_all` overrides are not part of this model;
  every sink here uses the default loop.
- The reuse of one `fcmds` buffer across calls is modelled by passing the
  stack value in and out; allocation and capacity are not modelled.
- Display widths other than UTF-8 byte length are not modelled; neither is
  the source.
