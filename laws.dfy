/** What the rendering of `best` amounts to, stated against the document:
    the leaves come out in order with text verbatim and each space as a blank
    or a line break, groups are decided by the width up to the next line
    end, annotation scopes are never closed more often than opened. */
module RenderLaws {
  import opened Docs
  import opened LineFit
  import opened Sinks
  import opened Best

  // ---------------------------------------------------------------------
  // Erasing annotations

  /** The bytes of an observed output, with the annotation scopes dropped. */
  function Bytes<A>(items: seq<Item<A>>): seq<byte>
  {
    if items == [] then []
    else Bytes(items[..|items| - 1]) + (if items[|items| - 1].Byte? then [items[|items| - 1].b] else [])
  }

  lemma {:induction false} BytesAppend<A>(a: seq<Item<A>>, b: seq<Item<A>>)
    ensures Bytes(a + b) == Bytes(a) + Bytes(b)
    decreases |b|
  {
    if b == [] {
      assert a + b == a;
    } else {
      var b' := b[..|b| - 1];
      assert (a + b)[..|a + b| - 1] == a + b';
      assert (a + b)[|a + b| - 1] == b[|b| - 1];
      BytesAppend(a, b');
      AppendAssoc(Bytes(a), Bytes(b'), if b[|b| - 1].Byte? then [b[|b| - 1].b] else []);
    }
  }

  lemma {:induction false} BytesChars<A>(s: seq<byte>)
    ensures Bytes(Chars<A>(s)) == s
    decreases |s|
  {
    if s != [] {
      BytesChars<A>(s[..|s| - 1]);
      assert Chars<A>(s)[..|s| - 1] == Chars<A>(s[..|s| - 1]);
      assert s[..|s| - 1] + [s[|s| - 1]] == s;
    }
  }

  // ---------------------------------------------------------------------
  // Content: the leaves, in order, with the modes as decided

  /** The leaf a popped item renders, with the mode it was popped in;
      structural items render none. */
  function Emits<A>(c: Cmd<A>): seq<Token>
  {
    match c.doc
    case Space => [SpaceTok(c.ind, c.mode)]
    case Newline => [NewlineTok(c.ind)]
    case Text(s) => [TextTok(s)]
    case _ => []
  }

  /** The leaves `best` renders from state `st`, each with the mode it was
      decided in. */
  function Decided<A>(st: State<A>, width: nat): seq<Token>
    decreases StackSize(st.bcmds), 1
  {
    if st.bcmds == [] then [] else DecidedOn(st, width)
  }

  function DecidedOn<A>(st: State<A>, width: nat): seq<Token>
    requires st.bcmds != []
    decreases StackSize(st.bcmds), 0
  {
    StepShrinks(st, width);
    Emits(st.bcmds[|st.bcmds| - 1]) + Decided(Step(st, width).0, width)
  }

  /** One item's output, annotations dropped, is the bytes of the leaf it
      renders. */
  lemma {:induction false} ExecBytes<A>(c: Cmd<A>, st: State<A>, width: nat)
    ensures Bytes(Exec(c, st, width).1) == Realise(Emits(c))
  {
    var out := Exec(c, st, width).1;
    match c.doc {
      case Space =>
        var bytes := TokenBytes(SpaceTok(c.ind, c.mode));
        assert out == Chars(bytes);
        BytesChars<A>(bytes);
        assert Realise(Emits(c)) == bytes + [];
      case Newline =>
        var bytes := TokenBytes(NewlineTok(c.ind));
        assert out == Chars(bytes);
        BytesChars<A>(bytes);
        assert Realise(Emits(c)) == bytes + [];
      case Text(s) =>
        assert out == Chars(s);
        BytesChars<A>(s);
        assert Realise(Emits(c)) == s + [];
      case Annotated(a, _) =>
        assert out == [Open(a)];
        assert Bytes(out) == Bytes(out[..0]) + [];
      case _ =>
        assert out == [];
    }
  }

  /** One item keeps the shape of what is left to render: the leaf it
      renders followed by the new stack's leaves is, modes aside, its own
      leaves followed by the rest of the stack. */
  lemma {:induction false} ExecShape<A>(c: Cmd<A>, st: State<A>, width: nat)
    ensures Shape(Emits(c) + StackTokens(Exec(c, st, width).0.bcmds))
         == Shape(Leaves(c.doc, c.ind, c.mode) + StackTokens(st.bcmds))
  {
    if c.doc.Group? {
      GroupShape(c, st, width);
    } else if c.doc.Newline? {
      NewlineShape(c, st, width);
    } else {
      SameLeaves(c, st, width);
    }
  }

  /** Every item but a `Group` or a `Newline` keeps the pending leaves as
      they are, modes included. */
  lemma {:induction false} SameLeaves<A>(c: Cmd<A>, st: State<A>, width: nat)
    requires !c.doc.Group? && !c.doc.Newline?
    ensures Emits(c) + StackTokens(Exec(c, st, width).0.bcmds) == Leaves(c.doc, c.ind, c.mode) + StackTokens(st.bcmds)
  {
    if c.doc.Append? {
      AppendLeaves(c, st, width);
    } else if c.doc.Nest? || c.doc.Annotated? {
      PushLeaves(c, st, width);
    } else {
      LeafLeaves(c, st, width);
    }
  }

  lemma {:induction false} AppendLeaves<A>(c: Cmd<A>, st: State<A>, width: nat)
    requires c.doc.Append?
    ensures Emits(c) + StackTokens(Exec(c, st, width).0.bcmds) == Leaves(c.doc, c.ind, c.mode) + StackTokens(st.bcmds)
  {
    PushSpineTokens(st.bcmds, c.ind, c.mode, c.doc);
    assert Exec(c, st, width).0.bcmds == PushSpine(st.bcmds, c.ind, c.mode, c.doc);
    assert Emits(c) == [];
  }

  lemma {:induction false} PushLeaves<A>(c: Cmd<A>, st: State<A>, width: nat)
    requires c.doc.Nest? || c.doc.Annotated?
    ensures Emits(c) + StackTokens(Exec(c, st, width).0.bcmds) == Leaves(c.doc, c.ind, c.mode) + StackTokens(st.bcmds)
  {
    var next := if c.doc.Nest? then Cmd(c.ind + c.doc.offset, c.mode, c.doc.body) else Cmd(c.ind, c.mode, c.doc.body);
    StackTokensPush(st.bcmds, next);
    assert Exec(c, st, width).0.bcmds == st.bcmds + [next];
    assert Emits(c) == [];
  }

  lemma {:induction false} LeafLeaves<A>(c: Cmd<A>, st: State<A>, width: nat)
    requires c.doc.Nil? || c.doc.Space? || c.doc.Text?
    ensures Emits(c) + StackTokens(Exec(c, st, width).0.bcmds) == Leaves(c.doc, c.ind, c.mode) + StackTokens(st.bcmds)
  {
    assert Exec(c, st, width).0.bcmds == st.bcmds;
    assert Emits(c) == Leaves(c.doc, c.ind, c.mode);
  }

  lemma {:induction false} GroupShape<A>(c: Cmd<A>, st: State<A>, width: nat)
    requires c.doc.Group?
    ensures Shape(Emits(c) + StackTokens(Exec(c, st, width).0.bcmds))
         == Shape(Leaves(c.doc, c.ind, c.mode) + StackTokens(st.bcmds))
  {
    var rest := StackTokens(st.bcmds);
    var b := c.doc.body;
    var m := if c.mode == Flat || Fits(Cmd(c.ind, Flat, b), st.bcmds, width - st.pos) then Flat else Break;
    assert Exec(c, st, width).0.bcmds == st.bcmds + [Cmd(c.ind, m, b)];
    StackTokensPush(st.bcmds, Cmd(c.ind, m, b));
    assert Emits(c) + StackTokens(Exec(c, st, width).0.bcmds) == Leaves(b, c.ind, m) + rest;
    ShapeModeFree(b, c.ind, m, c.mode);
    ShapeAppend(Leaves(b, c.ind, m), rest);
    ShapeAppend(Leaves(b, c.ind, c.mode), rest);
  }

  lemma {:induction false} NewlineShape<A>(c: Cmd<A>, st: State<A>, width: nat)
    requires c.doc.Newline?
    ensures Shape(Emits(c) + StackTokens(Exec(c, st, width).0.bcmds))
         == Shape(Leaves(c.doc, c.ind, c.mode) + StackTokens(st.bcmds))
  {
    var t := Recheck(st.bcmds, c.ind, width);
    RecheckFrame(st.bcmds, c.ind, width);
    StackShapeModeFree(t, st.bcmds);
    assert Exec(c, st, width).0.bcmds == t;
    ShapeAppend([NewlineTok(c.ind)], StackTokens(t));
    ShapeAppend([NewlineTok(c.ind)], StackTokens(st.bcmds));
  }

  /** The end-of-iteration check changes neither the stack nor the bytes. */
  lemma {:induction false} CloseScopeFrame<A>(st: State<A>)
    ensures CloseScope(st).0.bcmds == st.bcmds && CloseScope(st).0.pos == st.pos
    ensures Bytes(CloseScope(st).1) == []
    ensures |CloseScope(st).1| <= 1
  {
    if |st.levels| > 0 && st.levels[|st.levels| - 1] == |st.bcmds| {
      assert Bytes<A>([Close]) == Bytes<A>([]) + [];
    }
  }

  /** One iteration, in bytes and in shape. */
  lemma {:induction false} StepContent<A>(st: State<A>, width: nat)
    requires st.bcmds != []
    ensures Bytes(Step(st, width).1) == Realise(Emits(st.bcmds[|st.bcmds| - 1]))
    ensures Shape(Emits(st.bcmds[|st.bcmds| - 1]) + StackTokens(Step(st, width).0.bcmds))
         == Shape(StackTokens(st.bcmds))
  {
    var c := st.bcmds[|st.bcmds| - 1];
    var st0 := st.(bcmds := st.bcmds[..|st.bcmds| - 1]);
    var (st1, out) := Exec(c, st0, width);
    ExecBytes(c, st0, width);
    ExecShape(c, st0, width);
    CloseScopeFrame(st1);
    BytesAppend(out, CloseScope(st1).1);
    assert Step(st, width).1 == out + CloseScope(st1).1;
    assert Step(st, width).0.bcmds == st1.bcmds;
  }

  /** Content preservation from any state: the bytes rendered are the
      decided leaves realised, and the decided leaves are the pending leaves
      of the stack with only the mode of each space possibly changed. */
  lemma {:induction false} RunContent<A>(st: State<A>, width: nat)
    ensures Bytes(Run(st, width)) == Realise(Decided(st, width))
    ensures Shape(Decided(st, width)) == Shape(StackTokens(st.bcmds))
    decreases StackSize(st.bcmds)
  {
    if st.bcmds != [] {
      StepShrinks(st, width);
      var e := Emits(st.bcmds[|st.bcmds| - 1]);
      var (st', out) := Step(st, width);
      RunContent(st', width);
      StepContent(st, width);
      assert Run(st, width) == out + Run(st', width);
      assert Decided(st, width) == e + Decided(st', width);
      BytesAppend(out, Run(st', width));
      RealiseAppend(e, Decided(st', width));
      ShapeAppend(e, Decided(st', width));
      ShapeAppend(e, StackTokens(st'.bcmds));
    }
  }

  /** `best` renders the document's leaves in left-to-right order: text
      verbatim, every `Space` as one blank or as a line break with its
      indentation, every `Newline` as a line break; only the choice of the
      spaces' modes is made by the layout. */
  lemma {:induction false} Content<A>(doc: Doc<A>, width: nat)
    ensures Bytes(Render(doc, width)) == Realise(Decided(Initial(doc), width))
    ensures Shape(Decided(Initial(doc), width)) == Shape(Leaves(doc, 0, Break))
  {
    RunContent(Initial(doc), width);
    assert StackTokens(Initial(doc).bcmds) == Leaves(doc, 0, Break) + StackTokens<A>([]);
    assert Leaves(doc, 0, Break) + StackTokens<A>([]) == Leaves(doc, 0, Break);
  }

  // ---------------------------------------------------------------------
  // Annotations do not steer the layout; nested indentation composes

  /** One iteration's stack and column do not depend on the annotation
      levels: those only decide whether a scope is closed. */
  lemma {:induction false} StepLevels<A>(st: State<A>, levels: seq<nat>, width: nat)
    requires st.bcmds != []
    ensures Step(State(st.bcmds, st.pos, levels), width).0.bcmds == Step(st, width).0.bcmds
    ensures Step(State(st.bcmds, st.pos, levels), width).0.pos == Step(st, width).0.pos
  {
    var c := st.bcmds[|st.bcmds| - 1];
    var rest := st.bcmds[..|st.bcmds| - 1];
    var e1 := Exec(c, st.(bcmds := rest), width).0;
    var e2 := Exec(c, State(rest, st.pos, levels), width).0;
    assert e1.bcmds == e2.bcmds && e1.pos == e2.pos;
    CloseScopeFrame(e1);
    CloseScopeFrame(e2);
  }

  /** The leaves and modes `best` decides depend only on the stack and the
      column, never on which annotation scopes are open. */
  lemma {:induction false} DecidedLevels<A>(st: State<A>, levels: seq<nat>, width: nat)
    ensures Decided(State(st.bcmds, st.pos, levels), width) == Decided(st, width)
    ensures Bytes(Run(State(st.bcmds, st.pos, levels), width)) == Bytes(Run(st, width))
    decreases StackSize(st.bcmds)
  {
    RunContent(State(st.bcmds, st.pos, levels), width);
    RunContent(st, width);
    if st.bcmds != [] {
      var st2 := State(st.bcmds, st.pos, levels);
      StepShrinks(st, width);
      StepLevels(st, levels, width);
      var next, next2 := Step(st, width).0, Step(st2, width).0;
      DecidedLevels(next, next2.levels, width);
      assert State(next.bcmds, next.pos, next2.levels) == next2;
      assert Decided(st2, width) == Emits(st.bcmds[|st.bcmds| - 1]) + Decided(next2, width);
    }
  }

  /** `Nest(n1, Nest(n2, d))` takes two iterations to reach the state that
      `Nest(n1 + n2, d)` reaches in one: the same stack and column, with
      possibly one more scope closed by the extra end-of-iteration check. */
  lemma {:induction false} NestSteps<A>(rest: seq<Cmd<A>>, ind: nat, mode: Mode, n1: nat, n2: nat, d: Doc<A>,
                                        pos: nat, levels: seq<nat>, width: nat)
    ensures var s1 := State(rest + [Cmd(ind, mode, Nest(n1, Nest(n2, d)))], pos, levels);
      var s2 := State(rest + [Cmd(ind, mode, Nest(n1 + n2, d))], pos, levels);
      && Step(s1, width).0.bcmds == rest + [Cmd(ind + n1, mode, Nest(n2, d))]
      && Step(s1, width).0.pos == pos
      && Step(Step(s1, width).0, width).0.bcmds == rest + [Cmd(ind + n1 + n2, mode, d)]
      && Step(Step(s1, width).0, width).0.pos == pos
      && Step(s2, width).0.bcmds == rest + [Cmd(ind + n1 + n2, mode, d)]
      && Step(s2, width).0.pos == pos
  {
    var s1 := State(rest + [Cmd(ind, mode, Nest(n1, Nest(n2, d)))], pos, levels);
    var s2 := State(rest + [Cmd(ind, mode, Nest(n1 + n2, d))], pos, levels);
    assert s1.bcmds[..|rest|] == rest && s2.bcmds[..|rest|] == rest;
    CloseScopeFrame(State(rest + [Cmd(ind + n1, mode, Nest(n2, d))], pos, levels));
    var t1 := Step(s1, width).0;
    assert t1.bcmds[..|rest|] == rest;
    CloseScopeFrame(State(rest + [Cmd(ind + n1 + n2, mode, d)], pos, t1.levels));
    CloseScopeFrame(State(rest + [Cmd(ind + n1 + n2, mode, d)], pos, levels));
  }

  /** An iteration whose item renders no leaf adds nothing to the
      decided leaves. */
  lemma {:induction false} DecidedSilent<A>(st: State<A>, width: nat)
    requires st.bcmds != [] && Emits(st.bcmds[|st.bcmds| - 1]) == []
    ensures Decided(st, width) == Decided(Step(st, width).0, width)
  {
    assert Decided(st, width) == [] + Decided(Step(st, width).0, width);
  }

  /** `Nest(n1, Nest(n2, d))` and `Nest(n1 + n2, d)` decide the same leaves
      in the same modes. */
  lemma {:induction false} NestDecided<A>(rest: seq<Cmd<A>>, ind: nat, mode: Mode, n1: nat, n2: nat, d: Doc<A>,
                                          pos: nat, levels: seq<nat>, width: nat)
    ensures Decided(State(rest + [Cmd(ind, mode, Nest(n1, Nest(n2, d)))], pos, levels), width)
         == Decided(State(rest + [Cmd(ind, mode, Nest(n1 + n2, d))], pos, levels), width)
  {
    var s1 := State(rest + [Cmd(ind, mode, Nest(n1, Nest(n2, d)))], pos, levels);
    var s2 := State(rest + [Cmd(ind, mode, Nest(n1 + n2, d))], pos, levels);
    NestSteps(rest, ind, mode, n1, n2, d, pos, levels, width);
    var t1 := Step(s1, width).0;
    var u1, u2 := Step(t1, width).0, Step(s2, width).0;
    DecidedSilent(s1, width);
    DecidedSilent(t1, width);
    DecidedSilent(s2, width);
    DecidedLevels(u2, u1.levels, width);
    assert State(u2.bcmds, u2.pos, u1.levels) == u1;
  }

  /** Nested indentation composes: wherever it stands, `Nest(n1, Nest(n2,
      d))` renders the same bytes as `Nest(n1 + n2, d)`. */
  lemma {:induction false} NestBytes<A>(rest: seq<Cmd<A>>, ind: nat, mode: Mode, n1: nat, n2: nat, d: Doc<A>,
                                        pos: nat, levels: seq<nat>, width: nat)
    ensures Bytes(Run(State(rest + [Cmd(ind, mode, Nest(n1, Nest(n2, d)))], pos, levels), width))
         == Bytes(Run(State(rest + [Cmd(ind, mode, Nest(n1 + n2, d))], pos, levels), width))
  {
    RunContent(State(rest + [Cmd(ind, mode, Nest(n1, Nest(n2, d)))], pos, levels), width);
    RunContent(State(rest + [Cmd(ind, mode, Nest(n1 + n2, d))], pos, levels), width);
    NestDecided(rest, ind, mode, n1, n2, d, pos, levels, width);
  }

  /** When no open scope was recorded at the height the nest is popped
      from, the extra iteration closes nothing, and the two render the same
      output, scopes included. */
  lemma {:induction false} NestRun<A>(rest: seq<Cmd<A>>, ind: nat, mode: Mode, n1: nat, n2: nat, d: Doc<A>,
                                      pos: nat, levels: seq<nat>, width: nat)
    requires levels == [] || levels[|levels| - 1] != |rest| + 1
    ensures Run(State(rest + [Cmd(ind, mode, Nest(n1, Nest(n2, d)))], pos, levels), width)
         == Run(State(rest + [Cmd(ind, mode, Nest(n1 + n2, d))], pos, levels), width)
  {
    var s1 := State(rest + [Cmd(ind, mode, Nest(n1, Nest(n2, d)))], pos, levels);
    var s2 := State(rest + [Cmd(ind, mode, Nest(n1 + n2, d))], pos, levels);
    var t1 := State(rest + [Cmd(ind + n1, mode, Nest(n2, d))], pos, levels);
    var u := State(rest + [Cmd(ind + n1 + n2, mode, d)], pos, levels);
    assert s1.bcmds[..|rest|] == rest && s2.bcmds[..|rest|] == rest && t1.bcmds[..|rest|] == rest;
    assert CloseScope(t1) == (t1, []) && CloseScope(u) == (u, []);
    assert Step(s1, width) == (t1, [] + []);
    assert Step(t1, width) == (u, [] + []);
    assert Step(s2, width) == (u, [] + []);
    RunSplits(s1, width);
    RunSplits(t1, width);
    RunSplits(s2, width);
  }

  /** A whole document that is a nest of a nest renders exactly as the
      single nest with the summed offset. */
  lemma {:induction false} NestCompose<A>(n1: nat, n2: nat, d: Doc<A>, width: nat)
    ensures Render(Nest(n1, Nest(n2, d)), width) == Render(Nest(n1 + n2, d), width)
  {
    assert Initial(Nest(n1, Nest(n2, d))) == State([] + [Cmd(0, Break, Nest(n1, Nest(n2, d)))], 0, []);
    assert Initial(Nest(n1 + n2, d)) == State([] + [Cmd(0, Break, Nest(n1 + n2, d))], 0, []);
    NestRun<A>([], 0, Break, n1, n2, d, 0, [], width);
  }

  // ---------------------------------------------------------------------
  // Documents without layout choices

  /** A document with no `Group`, `Space` or `Newline`. */
  predicate Plain<A>(d: Doc<A>)
  {
    match d
    case Append(l, r) => Plain(l) && Plain(r)
    case Nest(_, b) => Plain(b)
    case Annotated(_, b) => Plain(b)
    case Nil => true
    case Text(_) => true
    case _ => false
  }

  /** The concatenation of a document's texts, left to right. */
  function Texts<A>(d: Doc<A>): seq<byte>
  {
    match d
    case Append(l, r) => Texts(l) + Texts(r)
    case Group(b) => Texts(b)
    case Nest(_, b) => Texts(b)
    case Annotated(_, b) => Texts(b)
    case Text(s) => s
    case _ => []
  }

  predicate AllText(ts: seq<Token>)
  {
    ts == [] || (ts[0].TextTok? && AllText(ts[1..]))
  }

  lemma {:induction false} AllTextAppend(a: seq<Token>, b: seq<Token>)
    requires AllText(a) && AllText(b)
    ensures AllText(a + b)
  {
    if a != [] {
      assert (a + b)[0] == a[0] && (a + b)[1..] == a[1..] + b;
      AllTextAppend(a[1..], b);
    } else {
      assert a + b == b;
    }
  }

  lemma {:induction false} PlainLeaves<A>(d: Doc<A>, ind: nat, mode: Mode)
    requires Plain(d)
    ensures AllText(Leaves(d, ind, mode)) && Realise(Leaves(d, ind, mode)) == Texts(d)
  {
    match d
    case Append(l, r) =>
      PlainLeaves(l, ind, mode);
      PlainLeaves(r, ind, mode);
      AllTextAppend(Leaves(l, ind, mode), Leaves(r, ind, mode));
      RealiseAppend(Leaves(l, ind, mode), Leaves(r, ind, mode));
    case Nest(off, b) => PlainLeaves(b, ind + off, mode);
    case Annotated(_, b) => PlainLeaves(b, ind, mode);
    case Text(s) => assert Realise([TextTok(s)]) == s + [];
    case Nil =>
  }

  /** Text leaves have nothing to decide: the shape fixes them. */
  lemma {:induction false} ShapeFixesText(ts: seq<Token>, us: seq<Token>)
    requires AllText(us) && Shape(ts) == Shape(us)
    ensures ts == us
  {
    if ts != [] {
      assert Shape(ts)[0] == SlotOf(ts[0]) && Shape(us)[0] == SlotOf(us[0]);
      assert Shape(ts)[1..] == Shape(ts[1..]) && Shape(us)[1..] == Shape(us[1..]);
      ShapeFixesText(ts[1..], us[1..]);
      assert ts == [ts[0]] + ts[1..] && us == [us[0]] + us[1..];
    }
  }

  /** A document without `Group`, `Space` or `Newline` renders, annotations
      aside, as the concatenation of its texts, whatever the width. */
  lemma {:induction false} PlainRender<A>(doc: Doc<A>, width: nat)
    requires Plain(doc)
    ensures Bytes(Render(doc, width)) == Texts(doc)
  {
    Content(doc, width);
    PlainLeaves(doc, 0, Break);
    ShapeFixesText(Decided(Initial(doc), width), Leaves(doc, 0, Break));
  }

  // ---------------------------------------------------------------------
  // Group decisions

  /** A `Group` decides its child's mode: flat under a flat parent without a
      lookahead; under a break parent flat exactly when the leaves up to the
      first line end, its own flat leaves and then the committed stack, are
      no wider than what is left of the line. It emits nothing. */
  lemma {:induction false} GroupDecision<A>(c: Cmd<A>, st: State<A>, width: nat)
    requires c.doc.Group?
    ensures Exec(c, st, width).1 == []
    ensures var flat := c.mode == Flat
              || FlatWidth(Lookahead(Cmd(c.ind, Flat, c.doc.body), st.bcmds)) <= width - st.pos;
      Exec(c, st, width).0 == st.(bcmds := st.bcmds + [Cmd(c.ind, if flat then Flat else Break, c.doc.body)])
  {
    FitsTokensWidth(Lookahead(Cmd(c.ind, Flat, c.doc.body), st.bcmds), width - st.pos);
  }

  // ---------------------------------------------------------------------
  // Annotation scopes

  /** Scopes opened minus scopes closed. */
  function Depth<A>(items: seq<Item<A>>): int
  {
    if items == [] then 0
    else
      var e := items[|items| - 1];
      Depth(items[..|items| - 1]) + (if e.Open? then 1 else if e.Close? then -1 else 0)
  }

  /** With `d` scopes already open, no `Close` in `items` comes when none is
      open. */
  predicate Nested<A>(items: seq<Item<A>>, d: int)
  {
    items == [] ||
      (Nested(items[..|items| - 1], d) && (items[|items| - 1].Close? ==> d + Depth(items[..|items| - 1]) > 0))
  }

  lemma {:induction false} NestedAppend<A>(a: seq<Item<A>>, b: seq<Item<A>>, d: int)
    requires Nested(a, d) && Nested(b, d + Depth(a))
    ensures Nested(a + b, d) && Depth(a + b) == Depth(a) + Depth(b)
    decreases |b|
  {
    if b == [] {
      assert a + b == a;
    } else {
      var b' := b[..|b| - 1];
      assert (a + b)[..|a + b| - 1] == a + b';
      assert (a + b)[|a + b| - 1] == b[|b| - 1];
      NestedAppend(a, b', d);
    }
  }

  lemma {:induction false} NestedChars<A>(s: seq<byte>, d: int)
    ensures Nested(Chars<A>(s), d) && Depth(Chars<A>(s)) == 0
    decreases |s|
  {
    if s != [] {
      NestedChars<A>(s[..|s| - 1], d);
      assert Chars<A>(s)[..|s| - 1] == Chars<A>(s[..|s| - 1]);
    }
  }

  /** Never more scopes closed than opened, counting those open at the
      start. */
  lemma {:induction false} NestedDepth<A>(items: seq<Item<A>>, d: int)
    requires d >= 0 && Nested(items, d)
    ensures d + Depth(items) >= 0
    decreases |items|
  {
    if items != [] {
      NestedDepth(items[..|items| - 1], d);
    }
  }

  /** One item opens a scope exactly when it records a new level. */
  lemma {:induction false} ExecScopes<A>(c: Cmd<A>, st: State<A>, width: nat)
    ensures Nested(Exec(c, st, width).1, |st.levels|)
    ensures |Exec(c, st, width).0.levels| == |st.levels| + Depth(Exec(c, st, width).1)
  {
    match c.doc {
      case Space =>
        NestedChars<A>([SpaceByte], |st.levels|);
        NestedChars<A>([NewlineByte] + Spaces(c.ind), |st.levels|);
      case Newline =>
        NestedChars<A>([NewlineByte] + Spaces(c.ind), |st.levels|);
      case Text(s) =>
        NestedChars<A>(s, |st.levels|);
      case Annotated(a, _) =>
        assert [Open(a)][..0] == [];
      case _ =>
    }
  }

  /** Only an `Annotated` item opens a scope, and no item closes one: closing
      is left to the end-of-iteration check. */
  lemma {:induction false} ExecOpens<A>(c: Cmd<A>, st: State<A>, width: nat)
    ensures |Exec(c, st, width).0.levels| == |st.levels| + (if c.doc.Annotated? then 1 else 0)
    ensures forall i :: 0 <= i < |Exec(c, st, width).1| ==> !Exec(c, st, width).1[i].Close?
  {
    match c.doc {
      case Space =>
        CharsNoScope<A>([SpaceByte]);
        CharsNoScope<A>([NewlineByte] + Spaces(c.ind));
      case Newline =>
        CharsNoScope<A>([NewlineByte] + Spaces(c.ind));
      case Text(s) =>
        CharsNoScope<A>(s);
      case _ =>
    }
  }

  /** The end-of-iteration check closes a scope only when one is open, and
      drops its level. */
  lemma {:induction false} CloseScopeScopes<A>(st: State<A>)
    ensures Nested(CloseScope(st).1, |st.levels|)
    ensures |CloseScope(st).0.levels| == |st.levels| + Depth(CloseScope(st).1)
  {
    if |st.levels| > 0 && st.levels[|st.levels| - 1] == |st.bcmds| {
      var closing: seq<Item<A>> := [Close];
      assert closing[..0] == [];
    }
  }

  /** One iteration keeps the scopes nested and accounts for its levels. */
  lemma {:induction false} StepScopes<A>(st: State<A>, width: nat)
    requires st.bcmds != []
    ensures Nested(Step(st, width).1, |st.levels|)
    ensures |Step(st, width).0.levels| == |st.levels| + Depth(Step(st, width).1)
  {
    var c := st.bcmds[|st.bcmds| - 1];
    var st0 := st.(bcmds := st.bcmds[..|st.bcmds| - 1]);
    var (st1, out) := Exec(c, st0, width);
    ExecScopes(c, st0, width);
    CloseScopeScopes(st1);
    NestedAppend(out, CloseScope(st1).1, |st.levels|);
    assert Step(st, width).1 == out + CloseScope(st1).1;
    assert Step(st, width).0 == CloseScope(st1).0;
  }

  /** Nesting carries back over one iteration: if what is rendered after
      it is nested in the scopes it leaves open, so is the whole render. */
  lemma {:induction false} StepThenNested<A>(st: State<A>, width: nat)
    requires st.bcmds != []
    requires Nested(Run(Step(st, width).0, width), |Step(st, width).0.levels|)
    ensures Nested(Run(st, width), |st.levels|)
  {
    RunSplits(st, width);
    StepScopes(st, width);
    NestedAppend(Step(st, width).1, Run(Step(st, width).0, width), |st.levels|);
  }

  lemma {:induction false} RunScopes<A>(st: State<A>, width: nat)
    ensures Nested(Run(st, width), |st.levels|)
    decreases StackSize(st.bcmds)
  {
    if st.bcmds != [] {
      StepShrinks(st, width);
      RunScopes(Step(st, width).0, width);
      StepThenNested(st, width);
    }
  }

  /** In every rendering, each `pop_annotation` closes a scope some earlier
      `push_annotation` opened and no other pop closed; so pops never
      outnumber pushes. */
  lemma {:induction false} Scopes<A>(doc: Doc<A>, width: nat)
    ensures Nested(Render(doc, width), 0)
    ensures Depth(Render(doc, width)) >= 0
  {
    RunScopes(Initial(doc), width);
    NestedDepth(Render(doc, width), 0);
  }
}
