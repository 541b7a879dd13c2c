/** The main loop `best` (src/doc.rs:346-435): pop a committed item, emit
    what it stands for, decide groups with the lookahead, re-check the current
    line after a forced newline, and close annotation scopes. */
module Best {
  import opened Docs
  import opened LineFit
  import opened Sinks

  /** Everything `best` keeps between iterations besides the sink: the
      committed stack, the column it believes it is at, and the stack heights
      at which the open annotations were entered. */
  datatype State<A> = State(bcmds: seq<Cmd<A>>, pos: nat, levels: seq<nat>)

  function Initial<A>(doc: Doc<A>): State<A>
  {
    State([Cmd(0, Break, doc)], 0, [])
  }

  // ---------------------------------------------------------------------
  // The re-check after a newline (src/doc.rs:399-416)

  /** Start of the run of items above the topmost break-mode item: the
      `bcmds.len() - position` of src/doc.rs:402-407. */
  function FlatRunStart<A>(s: seq<Cmd<A>>): (docs: nat)
    ensures docs <= |s|
    ensures forall i :: docs <= i < |s| ==> s[i].mode == Flat
    ensures docs == 0 || s[docs - 1].mode == Break
  {
    if s == [] || s[|s| - 1].mode == Break then |s|
    else
      var below := FlatRunStart(s[..|s| - 1]);
      assert s[|s| - 1].mode == Flat;
      assert forall i :: below <= i < |s| - 1 ==> s[i].mode == s[..|s| - 1][i].mode == Flat;
      below
  }

  /** `s` with every item from `docs` up switched to break mode. */
  function BreakFrom<A>(s: seq<Cmd<A>>, docs: nat): (t: seq<Cmd<A>>)
    requires docs <= |s|
  {
    seq(|s|, i requires 0 <= i < |s| => if i < docs then s[i] else s[i].(mode := Break))
  }

  /** The run of flat items above the topmost break item is checked by
      looking ahead from its top item, with all of `s` behind it; when that
      fails the whole run goes to break mode. */
  function Recheck<A>(s: seq<Cmd<A>>, pos: nat, width: nat): seq<Cmd<A>>
  {
    var docs := FlatRunStart(s);
    if docs == |s| then s
    else if Fits(s[|s| - 1], s, width - pos) then s
    else BreakFrom(s, docs)
  }

  /** Only the run above the topmost break-mode item can change, and only in
      its modes, all to break; documents, indents and everything below stay.
      The stack changes exactly when that run is non-empty and the lookahead
      fails, and that lookahead reads the top item twice: once as the popped
      copy and once more as the top of the stack. */
  lemma {:induction false} RecheckFrame<A>(s: seq<Cmd<A>>, pos: nat, width: nat)
    ensures var t := Recheck(s, pos, width);
      && |t| == |s|
      && (forall i :: 0 <= i < |s| ==> t[i].ind == s[i].ind && t[i].doc == s[i].doc)
      && (forall i :: 0 <= i < FlatRunStart(s) ==> t[i] == s[i])
      && (t == s || forall i :: FlatRunStart(s) <= i < |s| ==> t[i].mode == Break)
    ensures |s| > 0 && s[|s| - 1].mode == Break ==> Recheck(s, pos, width) == s
    ensures |s| > 0 ==> var top := s[|s| - 1];
      (Recheck(s, pos, width) != s <==>
        && top.mode == Flat
        && !FitsTokens(Leaves(top.doc, top.ind, top.mode) + Leaves(top.doc, top.ind, top.mode)
                       + StackTokens(s[..|s| - 1]), width - pos))
  {
    if |s| > 0 {
      var top := s[|s| - 1];
      assert Lookahead(top, s) == Leaves(top.doc, top.ind, top.mode) + Leaves(top.doc, top.ind, top.mode)
                                  + StackTokens(s[..|s| - 1]);
      if FlatRunStart(s) < |s| && Recheck(s, pos, width) != s {
        assert Recheck(s, pos, width)[|s| - 1].mode == Break;
      }
    }
  }

  // ---------------------------------------------------------------------
  // One iteration

  /** What a line break to indentation `ind` outputs: a line feed, then
      `ind` blanks. */
  function LineBreak<A>(ind: nat): seq<Item<A>>
  {
    Chars([NewlineByte] + Spaces(ind))
  }

  /** Emission and stack effect of one popped item `c` on the remaining
      state `st` (src/doc.rs:358-427). */
  function Exec<A>(c: Cmd<A>, st: State<A>, width: nat): (State<A>, seq<Item<A>>)
  {
    match c.doc
    case Nil => (st, [])
    case Append(_, _) => (st.(bcmds := PushSpine(st.bcmds, c.ind, c.mode, c.doc)), [])
    case Group(b) =>
      if c.mode == Flat then (st.(bcmds := st.bcmds + [Cmd(c.ind, Flat, b)]), [])
      else if Fits(Cmd(c.ind, Flat, b), st.bcmds, width - st.pos) then
        (st.(bcmds := st.bcmds + [Cmd(c.ind, Flat, b)]), [])
      else (st.(bcmds := st.bcmds + [Cmd(c.ind, Break, b)]), [])
    case Nest(off, b) => (st.(bcmds := st.bcmds + [Cmd(c.ind + off, c.mode, b)]), [])
    case Space =>
      if c.mode == Flat then (st, Chars([SpaceByte]))
      else (st.(pos := c.ind), LineBreak(c.ind))
    case Newline =>
      (st.(pos := c.ind, bcmds := Recheck(st.bcmds, c.ind, width)), LineBreak(c.ind))
    case Text(s) => (st.(pos := st.pos + |s|), Chars(s))
    case Annotated(a, b) =>
      (State(st.bcmds + [Cmd(c.ind, c.mode, b)], st.pos, st.levels + [|st.bcmds|]), [Open(a)])
  }

  /** The end-of-iteration check: close the innermost annotation when the
      stack is back at its recorded height (src/doc.rs:429-432). */
  function CloseScope<A>(st: State<A>): (State<A>, seq<Item<A>>)
  {
    if |st.levels| > 0 && st.levels[|st.levels| - 1] == |st.bcmds| then
      (st.(levels := st.levels[..|st.levels| - 1]), [Close])
    else (st, [])
  }

  function Step<A>(st: State<A>, width: nat): (State<A>, seq<Item<A>>)
    requires st.bcmds != []
  {
    var c := st.bcmds[|st.bcmds| - 1];
    var (st1, out) := Exec(c, st.(bcmds := st.bcmds[..|st.bcmds| - 1]), width);
    var (st2, close) := CloseScope(st1);
    (st2, out + close)
  }

  /** Every iteration shrinks the total size of the committed documents. */
  lemma {:induction false} StepShrinks<A>(st: State<A>, width: nat)
    requires st.bcmds != []
    ensures StackSize(Step(st, width).0.bcmds) < StackSize(st.bcmds)
  {
    var c := st.bcmds[|st.bcmds| - 1];
    var rest := st.bcmds[..|st.bcmds| - 1];
    var st1 := Exec(c, st.(bcmds := rest), width).0;
    assert Step(st, width).0.bcmds == st1.bcmds;
    ExecShrinks(c, st.(bcmds := rest), width);
  }

  /** The item's own document is replaced by its strictly smaller parts. */
  lemma {:induction false} ExecShrinks<A>(c: Cmd<A>, st: State<A>, width: nat)
    ensures StackSize(Exec(c, st, width).0.bcmds) < StackSize(st.bcmds) + Size(c.doc)
  {
    var rest := st.bcmds;
    match c.doc {
      case Append(_, _) => PushSpineSize(rest, c.ind, c.mode, c.doc);
      case Newline =>
        RecheckFrame(rest, c.ind, width);
        StackSizeDocsOnly(rest, Recheck(rest, c.ind, width));
      case Group(b) =>
        assert (rest + [Cmd(c.ind, Flat, b)])[..|rest|] == rest;
        assert (rest + [Cmd(c.ind, Break, b)])[..|rest|] == rest;
      case Nest(off, b) => assert (rest + [Cmd(c.ind + off, c.mode, b)])[..|rest|] == rest;
      case Annotated(_, b) => assert (rest + [Cmd(c.ind, c.mode, b)])[..|rest|] == rest;
      case _ =>
    }
  }

  /** What the loop emits from state `st` until the stack is empty. */
  function Run<A>(st: State<A>, width: nat): seq<Item<A>>
    decreases StackSize(st.bcmds), 1
  {
    if st.bcmds == [] then [] else Continue(st, width)
  }

  /** What the loop emits from a state with work left: one iteration, then
      the rest. */
  function Continue<A>(st: State<A>, width: nat): seq<Item<A>>
    requires st.bcmds != []
    decreases StackSize(st.bcmds), 0
  {
    StepShrinks(st, width);
    var (st', out) := Step(st, width);
    out + Run(st', width)
  }

  /** A render with work left is one iteration's items, then the render
      from the state that iteration leaves, which is smaller. */
  lemma {:induction false} RunSplits<A>(st: State<A>, width: nat)
    requires st.bcmds != []
    ensures Run(st, width) == Step(st, width).1 + Run(Step(st, width).0, width)
    ensures StackSize(Step(st, width).0.bcmds) < StackSize(st.bcmds)
  {
    StepShrinks(st, width);
  }

  /** The items a successful render delivers to the sink. */
  function Render<A>(doc: Doc<A>, width: nat): seq<Item<A>>
  {
    Run(Initial(doc), width)
  }

  // ---------------------------------------------------------------------
  // The loops of `best`

  /** The `iter().rev().position(..)` scan of src/doc.rs:402-407. */
  method FindFlatRun<A>(bcmds: seq<Cmd<A>>) returns (docs: nat)
    ensures docs == FlatRunStart(bcmds)
  {
    var p := 0;
    while p < |bcmds| && bcmds[|bcmds| - 1 - p].mode != Break
      invariant p <= |bcmds|
      invariant FlatRunStart(bcmds[..|bcmds| - p]) == FlatRunStart(bcmds)
    {
      assert bcmds[..|bcmds| - p][..|bcmds| - (p + 1)] == bcmds[..|bcmds| - (p + 1)];
      p := p + 1;
    }
    docs := |bcmds| - p;
    assert bcmds[..|bcmds| - p][..docs] == bcmds[..docs];
  }

  /** The loop of src/doc.rs:412-414 switching `bcmds[docs..]` to break mode. */
  method BreakAll<A>(bcmds: seq<Cmd<A>>, docs: nat) returns (t: seq<Cmd<A>>)
    requires docs <= |bcmds|
    ensures t == BreakFrom(bcmds, docs)
  {
    t := bcmds;
    var i := docs;
    while i < |t|
      invariant docs <= i <= |t| == |bcmds|
      invariant forall k :: 0 <= k < |t| ==> t[k] == (if docs <= k < i then bcmds[k].(mode := Break) else bcmds[k])
    {
      t := t[i := t[i].(mode := Break)];
      i := i + 1;
    }
  }

  /** Lines 401-416: recompute whether the current line still fits after a
      newline, with the scratch stack `fcmds` reused. */
  method RecheckLine<A>(bcmds: seq<Cmd<A>>, fcmds0: seq<Cmd<A>>, pos: nat, width: nat)
    returns (bcmds': seq<Cmd<A>>, fcmds: seq<Cmd<A>>)
    ensures bcmds' == Recheck(bcmds, pos, width)
  {
    bcmds' := bcmds;
    fcmds := [];
    var docs := FindFlatRun(bcmds);
    fcmds := fcmds + bcmds[docs..];
    assert |fcmds| == |bcmds| - docs;
    if fcmds != [] {
      var next := fcmds[|fcmds| - 1];
      assert next == bcmds[|bcmds| - 1];
      fcmds := fcmds[..|fcmds| - 1];
      var fits;
      fits, fcmds := Fitting(next, bcmds, fcmds, width - pos);
      RecheckUnfold(bcmds, pos, width, docs, fits);
      if !fits {
        bcmds' := BreakAll(bcmds, docs);
      }
    } else {
      RecheckUnfold(bcmds, pos, width, docs, true);
    }
  }

  lemma {:induction false} RecheckUnfold<A>(s: seq<Cmd<A>>, pos: nat, width: nat, docs: nat, fits: bool)
    requires docs == FlatRunStart(s)
    requires docs < |s| ==> fits == Fits(s[|s| - 1], s, width - pos)
    ensures Recheck(s, pos, width) == if docs == |s| || fits then s else BreakFrom(s, docs)
  {
  }

  /** What a sink call sequence amounts to: on success no call failed and
      exactly `emitted` was added to the observed output; on failure the
      last call made is the one that failed, and its error comes back after
      a prefix of `emitted`. */
  ghost predicate Delivered<A, E>(r: Result<(), E>, fault: E, before: seq<Event<A>>, after: seq<Event<A>>,
                                  emitted: seq<Item<A>>)
  {
    && Outcome(r, before, after)
    && (r.Ok? ==> Observe(after) == Observe(before) + emitted)
    && (r.Err? ==> r.error == fault && Observe(before) <= Observe(after) <= Observe(before) + emitted)
  }

  /** The items that only rearrange the stack (src/doc.rs:359-385): they
      emit nothing, leave the column and the annotation scopes alone, and a
      `Group` in break mode is decided by the lookahead. */
  method Layout<A>(c: Cmd<A>, bcmds: seq<Cmd<A>>, pos: nat, levels: seq<nat>, fcmds0: seq<Cmd<A>>, width: nat)
    returns (bcmds': seq<Cmd<A>>, fcmds: seq<Cmd<A>>)
    requires c.doc.Nil? || c.doc.Append? || c.doc.Group? || c.doc.Nest?
    ensures Exec(c, State(bcmds, pos, levels), width) == (State(bcmds', pos, levels), [])
  {
    bcmds', fcmds := bcmds, fcmds0;
    match c.doc {
      case Nil =>
      case Append(ldoc, rdoc) =>
        bcmds' := PushAppend(bcmds, c.ind, c.mode, ldoc, rdoc);
      case Group(body) =>
        if c.mode == Flat {
          bcmds' := bcmds + [Cmd(c.ind, Flat, body)];
        } else {
          var next := Cmd(c.ind, Flat, body);
          var fits;
          fits, fcmds := Fitting(next, bcmds, fcmds, width as int - pos as int);
          if fits {
            bcmds' := bcmds + [next];
          } else {
            bcmds' := bcmds + [Cmd(c.ind, Break, body)];
          }
        }
      case Nest(off, body) =>
        bcmds' := bcmds + [Cmd(c.ind + off, c.mode, body)];
    }
  }

  /** A `Space`: one blank in flat mode, otherwise a line break to the
      item's indentation (src/doc.rs:386-394). */
  method EmitSpace<A, E>(c: Cmd<A>, pos: nat, out: Sink<A, E>)
    returns (r: Result<(), E>, pos': nat)
    requires c.doc.Space?
    modifies out
    ensures r.Ok? ==> pos' == if c.mode == Flat then pos else c.ind
    ensures Delivered(r, out.fault, old(out.trace), out.trace,
                      if c.mode == Flat then Chars([SpaceByte]) else LineBreak(c.ind))
  {
    pos' := pos;
    if c.mode == Flat {
      r := WriteSpaces(1, out);
      assert Spaces(1) == [SpaceByte];
    } else {
      r := WriteNewline(c.ind, out);
      pos' := c.ind;
    }
  }

  /** A `Text`: its bytes, and the column moves by its length
      (src/doc.rs:418-421). */
  method EmitText<A, E>(c: Cmd<A>, pos: nat, out: Sink<A, E>)
    returns (r: Result<(), E>, pos': nat)
    requires c.doc.Text?
    modifies out
    ensures r.Ok? ==> pos' == pos + |c.doc.text|
    ensures Delivered(r, out.fault, old(out.trace), out.trace, Chars(c.doc.text))
  {
    r := out.WriteStrAll(c.doc.text);
    pos' := pos + |c.doc.text|;
  }

  /** A forced `Newline`: break the line, then re-check the flat run that
      is still open on it (src/doc.rs:395-417). */
  method EmitNewline<A, E>(c: Cmd<A>, bcmds: seq<Cmd<A>>, pos: nat, fcmds0: seq<Cmd<A>>, width: nat,
                           out: Sink<A, E>)
    returns (r: Result<(), E>, bcmds': seq<Cmd<A>>, pos': nat, fcmds: seq<Cmd<A>>)
    requires c.doc.Newline?
    modifies out
    ensures r.Ok? ==> pos' == c.ind && bcmds' == Recheck(bcmds, c.ind, width)
    ensures Delivered(r, out.fault, old(out.trace), out.trace, LineBreak(c.ind))
  {
    bcmds', pos', fcmds := bcmds, pos, fcmds0;
    r := WriteNewline(c.ind, out);
    if r.Err? {
      return;
    }
    pos' := c.ind;
    bcmds', fcmds := RecheckLine(bcmds, fcmds, pos', width);
  }

  /** An `Annotated` item: open the scope at the device and record the stack
      height at which it ends (src/doc.rs:422-426). */
  method EmitOpen<A, E>(c: Cmd<A>, bcmds: seq<Cmd<A>>, levels: seq<nat>, out: Sink<A, E>)
    returns (r: Result<(), E>, bcmds': seq<Cmd<A>>, levels': seq<nat>)
    requires c.doc.Annotated?
    modifies out
    ensures r.Ok? ==> bcmds' == bcmds + [Cmd(c.ind, c.mode, c.doc.body)] && levels' == levels + [|bcmds|]
    ensures Delivered(r, out.fault, old(out.trace), out.trace, [Open(c.doc.ann)])
  {
    bcmds', levels' := bcmds, levels;
    ghost var before := out.trace;
    r := out.PushAnnotation(c.doc.ann);
    if r.Err? {
      return;
    }
    ObserveAppend(before, [Push(c.doc.ann)]);
    levels' := levels + [|bcmds|];
    bcmds' := bcmds + [Cmd(c.ind, c.mode, c.doc.body)];
  }

  /** The body of one iteration of `best` for the popped item `c`
      (src/doc.rs:358-427): what it writes to `out` and the new state. On a
      sink failure the error is handed back after a prefix of the output. */
  method Execute<A, E>(c: Cmd<A>, bcmds: seq<Cmd<A>>, pos: nat, levels: seq<nat>,
                       fcmds0: seq<Cmd<A>>, width: nat, out: Sink<A, E>)
    returns (r: Result<(), E>, bcmds': seq<Cmd<A>>, pos': nat, levels': seq<nat>, fcmds: seq<Cmd<A>>)
    modifies out
    ensures r.Ok? ==> Exec(c, State(bcmds, pos, levels), width).0 == State(bcmds', pos', levels')
    ensures Delivered(r, out.fault, old(out.trace), out.trace, Exec(c, State(bcmds, pos, levels), width).1)
  {
    bcmds', pos', levels', fcmds := bcmds, pos, levels, fcmds0;
    if c.doc.Nil? || c.doc.Append? || c.doc.Group? || c.doc.Nest? {
      bcmds', fcmds := Layout(c, bcmds, pos, levels, fcmds0, width);
      r := Ok(());
      OutcomeNone<A, E>(out.trace);
    } else if c.doc.Space? {
      r, pos' := EmitSpace(c, pos, out);
    } else if c.doc.Text? {
      r, pos' := EmitText(c, pos, out);
    } else if c.doc.Newline? {
      r, bcmds', pos', fcmds := EmitNewline(c, bcmds, pos, fcmds0, width, out);
    } else {
      r, bcmds', levels' := EmitOpen(c, bcmds, levels, out);
    }
  }

  /** Lines 429-432: pop the innermost annotation scope at the device when
      the stack is back at the height it was opened at. */
  method CloseIfDone<A, E>(bcmds: seq<Cmd<A>>, pos: nat, levels: seq<nat>, out: Sink<A, E>)
    returns (r: Result<(), E>, levels': seq<nat>)
    modifies out
    ensures r.Ok? ==> CloseScope(State(bcmds, pos, levels)).0 == State(bcmds, pos, levels')
    ensures Delivered(r, out.fault, old(out.trace), out.trace, CloseScope(State(bcmds, pos, levels)).1)
  {
    levels' := levels;
    r := Ok(());
    OutcomeNone<A, E>(out.trace);
    if |levels| > 0 && levels[|levels| - 1] == |bcmds| {
      levels' := levels[..|levels| - 1];
      r := out.PopAnnotation();
      if r.Ok? {
        ObserveAppend(old(out.trace), [Pop]);
      }
    }
  }

  /** Two deliveries in a row, the second attempted only if the first
      succeeded, deliver the concatenation. */
  lemma {:induction false} DeliveredThen<A, E>(r1: Result<(), E>, r2: Result<(), E>, fault: E,
                            t0: seq<Event<A>>, t1: seq<Event<A>>, t2: seq<Event<A>>,
                            e1: seq<Item<A>>, e2: seq<Item<A>>)
    requires Delivered(r1, fault, t0, t1, e1) && r1.Ok? && Delivered(r2, fault, t1, t2, e2)
    ensures Delivered(r2, fault, t0, t2, e1 + e2)
  {
    OutcomeThen(r2, t0, t1, t2);
    if r2.Ok? {
      assert Observe(t0) + e1 + e2 == Observe(t0) + (e1 + e2);
    } else {
      PrefixTrans(Observe(t0), e1, Observe(t2), e2, e1 + e2);
    }
  }

  /** `done` has been delivered, and what is still to come from `st` makes up
      the rest of `total`. */
  ghost predicate Accounts<A>(done: seq<Item<A>>, st: State<A>, width: nat, total: seq<Item<A>>)
  {
    done + Run(st, width) == total
  }

  /** One whole iteration of the loop of `best` (src/doc.rs:357-433): pop,
      execute, close a scope. Stated as the loop needs it: after a success
      the output has grown by exactly what this step stands for in the
      rendering; after a failure what was output is still a prefix of the
      whole rendering `total`. */
  method Iterate<A, E>(bcmds: seq<Cmd<A>>, pos: nat, levels: seq<nat>, fcmds0: seq<Cmd<A>>, width: nat,
                       out: Sink<A, E>, ghost start: seq<Item<A>>, ghost done: seq<Item<A>>,
                       ghost total: seq<Item<A>>)
    returns (r: Result<(), E>, bcmds': seq<Cmd<A>>, pos': nat, levels': seq<nat>, fcmds: seq<Cmd<A>>,
             ghost done': seq<Item<A>>)
    requires bcmds != []
    requires Observe(out.trace) == start + done && Accounts(done, State(bcmds, pos, levels), width, total)
    modifies out
    ensures r.Ok? ==> StackSize(bcmds') < StackSize(bcmds)
    ensures r.Ok? ==> Observe(out.trace) == start + done' && Accounts(done', State(bcmds', pos', levels'), width, total)
    ensures r.Err? ==> r.error == out.fault && start <= Observe(out.trace) <= start + total
    ensures Outcome(r, old(out.trace), out.trace)
  {
    ghost var st := State(bcmds, pos, levels);
    StepAccounts(st, width, done, total);
    var c := bcmds[|bcmds| - 1];
    var rest := bcmds[..|bcmds| - 1];
    ghost var st1 := Exec(c, State(rest, pos, levels), width).0;
    ghost var items := Exec(c, State(rest, pos, levels), width).1;
    ghost var st2 := CloseScope(st1).0;
    ghost var closing := CloseScope(st1).1;
    ghost var emitted := items + closing;
    assert Step(st, width).0 == st2 && Step(st, width).1 == emitted;
    ghost var mid := out.trace;
    r, bcmds', pos', levels', fcmds := Execute(c, rest, pos, levels, fcmds0, width, out);
    if r.Ok? {
      assert st1 == State(bcmds', pos', levels');
      ghost var mid' := out.trace;
      r, levels' := CloseIfDone(bcmds', pos', levels', out);
      DeliveredThen(Ok(()), r, out.fault, mid, mid', out.trace, items, closing);
    }
    done' := done + emitted;
    if r.Err? {
      PrefixTrans(start, done, Observe(out.trace), emitted, total);
    } else {
      assert st2 == State(bcmds', pos', levels');
      assert Accounts(done', st2, width, total);
      AppendAssoc(start, done, emitted);
    }
  }

  /** One iteration keeps the account: what it emits, followed by the
      rendering from the state it leaves, is the rendering from the state it
      started in; and it makes progress. */
  lemma {:induction false} StepAccounts<A>(st: State<A>, width: nat, done: seq<Item<A>>, total: seq<Item<A>>)
    requires st.bcmds != [] && Accounts(done, st, width, total)
    ensures Accounts(done + Step(st, width).1, Step(st, width).0, width, total)
    ensures done + Step(st, width).1 <= total
    ensures StackSize(Step(st, width).0.bcmds) < StackSize(st.bcmds)
  {
    StepShrinks(st, width);
    assert Run(st, width) == Step(st, width).1 + Run(Step(st, width).0, width);
    AppendAssoc(done, Step(st, width).1, Run(Step(st, width).0, width));
    JoinPrefix(done + Step(st, width).1, Run(Step(st, width).0, width), total);
  }

  lemma {:induction false} PrefixTrans<T>(start: seq<T>, done: seq<T>, obs: seq<T>, emitted: seq<T>, total: seq<T>)
    requires start + done <= obs <= start + done + emitted && done + emitted <= total
    ensures start <= obs <= start + total
  {
    assert start + done + emitted == start + (done + emitted);
  }

  /** `best`: renders `doc` at `width` into `out`. On success the sink has
      received exactly `Render(doc, width)`; the first failing sink call ends
      the loop, and its error is returned unchanged after a prefix of that
      output, and no sink call is made after it. */
  method Best<A, E>(doc: Doc<A>, width: nat, out: Sink<A, E>) returns (r: Result<(), E>)
    modifies out
    ensures Outcome(r, old(out.trace), out.trace)
    ensures r.Ok? ==> Observe(out.trace) == Observe(old(out.trace)) + Render(doc, width)
    ensures r.Err? ==> r.error == out.fault
    ensures r.Err? ==> Observe(old(out.trace)) <= Observe(out.trace) <= Observe(old(out.trace)) + Render(doc, width)
  {
    var pos: nat := 0;
    var bcmds := [Cmd(0, Break, doc)];
    var fcmds: seq<Cmd<A>> := [];
    var levels: seq<nat> := [];
    ghost var done: seq<Item<A>> := [];
    ghost var start := Observe(out.trace);
    OutcomeNone<A, E>(out.trace);

    while bcmds != []
      invariant Outcome<A, E>(Ok(()), old(out.trace), out.trace)
      invariant Observe(out.trace) == start + done
      invariant Accounts(done, State(bcmds, pos, levels), width, Render(doc, width))
      decreases StackSize(bcmds)
    {
      var w;
      ghost var before := out.trace;
      w, bcmds, pos, levels, fcmds, done := Iterate(bcmds, pos, levels, fcmds, width, out, start, done, Render(doc, width));
      OutcomeThen(w, old(out.trace), before, out.trace);
      if w.Err? {
        return Err(w.error);
      }
    }
    r := Ok(());
  }
}
