module Scenarios {
  import opened Docs
  import opened LineFit
  import opened Sinks
  import opened Best
  import opened RenderLaws

  const Hello: seq<byte> := [104, 101, 108, 108, 111]
  const World: seq<byte> := [119, 111, 114, 108, 100]

  /** With no annotation open, one iteration is the popped item's effect
      and the loop goes on from there. */
  lemma {:induction false} RunTop<A>(rest: seq<Cmd<A>>, c: Cmd<A>, pos: nat, width: nat)
    requires !c.doc.Annotated?
    ensures Run(State(rest + [c], pos, []), width)
         == Exec(c, State(rest, pos, []), width).1 + Run(Exec(c, State(rest, pos, []), width).0, width)
  {
    var st := State(rest + [c], pos, []);
    assert st.bcmds[..|rest|] == rest;
    assert st.bcmds[|rest|] == c;
    var (st1, out) := Exec(c, State(rest, pos, []), width);
    assert st1.levels == [];
    assert out + [] == out;
    assert Step(st, width) == (st1, out);
  }

  lemma {:induction false} RunText<A>(rest: seq<Cmd<A>>, ind: nat, mode: Mode, s: seq<byte>, pos: nat, width: nat)
    ensures Run(State(rest + [Cmd(ind, mode, Text(s))], pos, []), width)
         == Chars(s) + Run(State(rest, pos + |s|, []), width)
  {
    var c: Cmd<A> := Cmd(ind, mode, Text(s));
    RunTop(rest, c, pos, width);
    assert Exec(c, State(rest, pos, []), width) == (State(rest, pos + |s|, []), Chars(s));
  }

  lemma {:induction false} RunFlatSpace<A>(rest: seq<Cmd<A>>, ind: nat, pos: nat, width: nat)
    ensures Run(State(rest + [Cmd(ind, Flat, Space)], pos, []), width)
         == Chars([SpaceByte]) + Run(State(rest, pos, []), width)
  {
    var c: Cmd<A> := Cmd(ind, Flat, Space);
    RunTop(rest, c, pos, width);
  }

  lemma {:induction false} RunAppend<A>(rest: seq<Cmd<A>>, ind: nat, mode: Mode, l: Doc<A>, r: Doc<A>, pos: nat, width: nat)
    ensures Run(State(rest + [Cmd(ind, mode, Append(l, r))], pos, []), width)
         == Run(State(PushSpine(rest, ind, mode, Append(l, r)), pos, []), width)
  {
    RunTop(rest, Cmd(ind, mode, Append(l, r)), pos, width);
  }

  lemma {:induction false} RunBreakSpace<A>(rest: seq<Cmd<A>>, ind: nat, pos: nat, width: nat)
    ensures Run(State(rest + [Cmd(ind, Break, Space)], pos, []), width)
         == LineBreak(ind) + Run(State(rest, ind, []), width)
  {
    var c: Cmd<A> := Cmd(ind, Break, Space);
    RunTop(rest, c, pos, width);
  }

  lemma {:induction false} RunFlatGroup<A>(rest: seq<Cmd<A>>, ind: nat, b: Doc<A>, pos: nat, width: nat)
    requires FlatWidth(Lookahead(Cmd(ind, Flat, b), rest)) <= width - pos
    ensures Run(State(rest + [Cmd(ind, Break, Group(b))], pos, []), width)
         == Run(State(rest + [Cmd(ind, Flat, b)], pos, []), width)
  {
    var c := Cmd(ind, Break, Group(b));
    GroupDecision(c, State(rest, pos, []), width);
    RunTop(rest, c, pos, width);
  }

  lemma {:induction false} RunDone<A>(pos: nat, width: nat)
    ensures Run<A>(State([], pos, []), width) == []
  {
  }

  lemma {:induction false} FlatWidthCons(t: Token, ts: seq<Token>)
    ensures FlatWidth([t] + ts) == if EndsLine(t) then 0 else Cost(t) + FlatWidth(ts)
  {
    assert ([t] + ts)[1..] == ts;
  }

  lemma {:induction false} RunBreakGroup<A>(rest: seq<Cmd<A>>, ind: nat, b: Doc<A>, pos: nat, width: nat)
    requires FlatWidth(Lookahead(Cmd(ind, Flat, b), rest)) > width - pos
    ensures Run(State(rest + [Cmd(ind, Break, Group(b))], pos, []), width)
         == Run(State(rest + [Cmd(ind, Break, b)], pos, []), width)
  {
    var c := Cmd(ind, Break, Group(b));
    GroupDecision(c, State(rest, pos, []), width);
    RunTop(rest, c, pos, width);
  }

  /** A leaf that neither opens a scope nor re-checks the stack. */
  predicate Simple<A>(c: Cmd<A>)
  {
    c.doc.Nil? || c.doc.Space? || c.doc.Text?
  }

  /** What a stack of simple leaves prints, from the top down. */
  function LeafOut<A>(s: seq<Cmd<A>>): seq<Item<A>>
  {
    if s == [] then [] else Exec(s[|s| - 1], State([], 0, []), 0).1 + LeafOut(s[..|s| - 1])
  }

  /** A stack of simple leaves prints each leaf in turn, whatever the
      position and the width. */
  lemma {:induction false} RunLeaves<A>(s: seq<Cmd<A>>, pos: nat, width: nat)
    requires forall i :: 0 <= i < |s| ==> Simple(s[i])
    ensures Run(State(s, pos, []), width) == LeafOut(s)
    decreases |s|
  {
    if s != [] {
      var rest, c := s[..|s| - 1], s[|s| - 1];
      assert s == rest + [c];
      RunTop(rest, c, pos, width);
      var st := Exec(c, State(rest, pos, []), width).0;
      assert st == State(rest, st.pos, []);
      RunLeaves(rest, st.pos, width);
    }
  }

  function WordsMode(a: seq<byte>, b: seq<byte>, width: nat): Mode
  {
    if |a| + 1 + |b| <= width then Flat else Break
  }

  function WordStack<A>(a: seq<byte>, b: seq<byte>, ind: nat, mode: Mode): seq<Cmd<A>>
  {
    [Cmd(ind, mode, Text(b)), Cmd(ind, mode, Space)] + [Cmd(ind, mode, Text(a))]
  }

  lemma {:induction false} WordsOut<A>(a: seq<byte>, b: seq<byte>, ind: nat, mode: Mode, pos: nat, width: nat)
    ensures Run(State(WordStack<A>(a, b, ind, mode), pos, []), width)
         == Chars(a) + ((if mode == Flat then Chars([SpaceByte]) else LineBreak(ind)) + Chars(b))
  {
    var s := WordStack<A>(a, b, ind, mode);
    RunLeaves(s, pos, width);
    assert s[..2] == [s[0], s[1]] && [s[0], s[1]][..1] == [s[0]] && [s[0]][..0] == [];
    assert LeafOut([s[0]]) == Chars(b) + [];
  }

  /** The group's lookahead in flat mode measures both words and the blank,
      whatever the indentation. */
  lemma {:induction false} WordsWidth<A>(a: seq<byte>, b: seq<byte>, ind: nat)
    ensures FlatWidth(Lookahead(Cmd(ind, Flat, Doc<A>.Append(Append(Text(a), Space), Text(b))), [])) == |a| + 1 + |b|
  {
    var body: Doc<A> := Append(Append(Text(a), Space), Text(b));
    var look := [TextTok(a), SpaceTok(ind, Flat), TextTok(b)];
    assert Leaves<A>(Append(Text(a), Space), ind, Flat) == [TextTok(a)] + [SpaceTok(ind, Flat)];
    assert [TextTok(a)] + [SpaceTok(ind, Flat)] == [TextTok(a), SpaceTok(ind, Flat)];
    assert Leaves(body, ind, Flat) == [TextTok(a), SpaceTok(ind, Flat)] + [TextTok(b)];
    assert Lookahead(Cmd(ind, Flat, body), []) == look;
    FlatWidthCons(TextTok(b), []);
    FlatWidthCons(SpaceTok(ind, Flat), [TextTok(b)]);
    FlatWidthCons(TextTok(a), [SpaceTok(ind, Flat), TextTok(b)]);
    assert [TextTok(a)] + [SpaceTok(ind, Flat), TextTok(b)] == look;
  }

  /** Expanding the body pushes the second word, the space, then the first. */
  lemma {:induction false} WordsSpine<A>(a: seq<byte>, b: seq<byte>, ind: nat, mode: Mode)
    ensures PushSpine([], ind, mode, Doc<A>.Append(Append(Text(a), Space), Text(b))) == WordStack(a, b, ind, mode)
  {
    var w, sp: Cmd<A> := Cmd(ind, mode, Text(b)), Cmd(ind, mode, Space);
    var h: Cmd<A> := Cmd(ind, mode, Text(a));
    assert PushSpine([], ind, mode, Doc<A>.Append(Append(Text(a), Space), Text(b)))
        == PushSpine([] + [w], ind, mode, Append(Text(a), Space));
    assert PushSpine([] + [w], ind, mode, Append(Text(a), Space)) == PushSpine(([] + [w]) + [sp], ind, mode, Text(a));
    assert PushSpine(([] + [w]) + [sp], ind, mode, Text(a)) == (([] + [w]) + [sp]) + [h];
    assert ([] + [w]) + [sp] == [w, sp];
  }

  /** The group, alone on the stack at the left margin, is decided by
      whether both words and the blank fit, then its body is expanded. */
  lemma {:induction false} ExpandWords<A>(a: seq<byte>, b: seq<byte>, ind: nat, width: nat)
    ensures Run(State([] + [Cmd(ind, Break, Doc<A>.Group(Append(Append(Text(a), Space), Text(b))))], 0, []), width)
         == Run(State(WordStack(a, b, ind, WordsMode(a, b, width)), 0, []), width)
  {
    var body: Doc<A> := Append(Append(Text(a), Space), Text(b));
    WordsWidth<A>(a, b, ind);
    var mode := WordsMode(a, b, width);
    if mode == Flat {
      RunFlatGroup([], ind, body, 0, width);
    } else {
      RunBreakGroup([], ind, body, 0, width);
    }
    RunAppend<A>([], ind, mode, Append(Text(a), Space), Text(b), 0, width);
    WordsSpine<A>(a, b, ind, mode);
  }

  lemma {:induction false} FlatWords<A>(a: seq<byte>, b: seq<byte>, width: nat)
    requires |a| + 1 + |b| <= width
    ensures Render<A>(Group(Append(Append(Text(a), Space), Text(b))), width) == Chars(a + [SpaceByte] + b)
  {
    var g: Doc<A> := Group(Append(Append(Text(a), Space), Text(b)));
    assert Initial(g) == State([] + [Cmd(0, Break, g)], 0, []);
    ExpandWords<A>(a, b, 0, width);
    WordsOut<A>(a, b, 0, Flat, 0, width);
    CharsAppend<A>(a, [SpaceByte]);
    CharsAppend<A>(a + [SpaceByte], b);
  }

  lemma {:induction false} BrokenWords<A>(a: seq<byte>, b: seq<byte>, width: nat)
    requires |a| + 1 + |b| > width
    ensures Render<A>(Group(Append(Append(Text(a), Space), Text(b))), width) == Chars(a + [NewlineByte] + b)
  {
    var g: Doc<A> := Group(Append(Append(Text(a), Space), Text(b)));
    assert Initial(g) == State([] + [Cmd(0, Break, g)], 0, []);
    ExpandWords<A>(a, b, 0, width);
    WordsOut<A>(a, b, 0, Break, 0, width);
    assert LineBreak<A>(0) == Chars([NewlineByte]) by {
      assert [NewlineByte] + Spaces(0) == [NewlineByte];
    }
    CharsAppend<A>(a, [NewlineByte]);
    CharsAppend<A>(a + [NewlineByte], b);
  }

  /** Two words joined by a space in a group: on one line exactly when the
      line has room for both and the blank, otherwise on two lines. */
  lemma {:induction false} TwoWords<A>(a: seq<byte>, b: seq<byte>, width: nat)
    ensures Render<A>(Group(Append(Append(Text(a), Space), Text(b))), width)
         == if |a| + 1 + |b| <= width then Chars(a + [SpaceByte] + b) else Chars(a + [NewlineByte] + b)
  {
    if |a| + 1 + |b| <= width {
      FlatWords<A>(a, b, width);
    } else {
      BrokenWords<A>(a, b, width);
    }
  }

  /** The two words of the usual greeting fit an 80-column line. */
  lemma {:induction false} HelloWorld()
    ensures Render<int>(Group(Append(Append(Text(Hello), Space), Text(World))), 80)
         == Chars(Hello + [SpaceByte] + World)
  {
    FlatWords<int>(Hello, World, 80);
  }

  // ---------------------------------------------------------------------
  // Steps with newlines and annotations

  /** A newline prints a line break, moves to the indentation and re-checks
      the stack. */
  lemma {:induction false} RunNewline<A>(rest: seq<Cmd<A>>, ind: nat, mode: Mode, pos: nat, width: nat)
    ensures Run(State(rest + [Cmd(ind, mode, Newline)], pos, []), width)
         == LineBreak(ind) + Run(State(Recheck(rest, ind, width), ind, []), width)
  {
    var c: Cmd<A> := Cmd(ind, mode, Newline);
    RunTop(rest, c, pos, width);
  }

  /** The re-check of a stack holding one flat item looks ahead over that
      item's leaves twice. */
  lemma {:induction false} RecheckOne<A>(c: Cmd<A>, pos: nat, width: nat)
    requires c.mode == Flat
    ensures Recheck([c], pos, width)
         == if FlatWidth(Leaves(c.doc, c.ind, Flat) + Leaves(c.doc, c.ind, Flat)) <= width - pos then [c]
            else [c.(mode := Break)]
  {
    assert [c][..0] == [];
    assert FlatRunStart([c]) == 0;
    assert StackTokens([c]) == Leaves(c.doc, c.ind, Flat) + [];
    assert Lookahead(c, [c]) == Leaves(c.doc, c.ind, Flat) + Leaves(c.doc, c.ind, Flat) + [];
    assert Leaves(c.doc, c.ind, Flat) + Leaves(c.doc, c.ind, Flat) + [] == Leaves(c.doc, c.ind, Flat) + Leaves(c.doc, c.ind, Flat);
    FitsTokensWidth(Lookahead(c, [c]), width - pos);
    assert BreakFrom([c], 0) == [c.(mode := Break)];
  }

  /** An annotation opens its scope and records the height of the stack
      below it. */
  lemma {:induction false} RunAnnotated<A>(rest: seq<Cmd<A>>, ind: nat, mode: Mode, ann: A, b: Doc<A>,
                                          pos: nat, levels: seq<nat>, width: nat)
    ensures Run(State(rest + [Cmd(ind, mode, Annotated(ann, b))], pos, levels), width)
         == [Open(ann)] + Run(State(rest + [Cmd(ind, mode, b)], pos, levels + [|rest|]), width)
  {
    var st := State(rest + [Cmd(ind, mode, Annotated(ann, b))], pos, levels);
    assert st.bcmds[..|rest|] == rest;
    var st1 := State(rest + [Cmd(ind, mode, b)], pos, levels + [|rest|]);
    assert CloseScope(st1) == (st1, []);
    assert Step(st, width) == (st1, [Open(ann)] + []);
  }

  /** A text that empties the stack back to the innermost recorded height
      closes that scope, and only that one. */
  lemma {:induction false} RunTextClose<A>(rest: seq<Cmd<A>>, ind: nat, mode: Mode, s: seq<byte>,
                                          pos: nat, levels: seq<nat>, width: nat)
    requires levels != [] && levels[|levels| - 1] == |rest|
    ensures Run(State(rest + [Cmd(ind, mode, Text(s))], pos, levels), width)
         == Chars(s) + ([Close] + Run(State(rest, pos + |s|, levels[..|levels| - 1]), width))
  {
    var st := State(rest + [Cmd<A>.Cmd(ind, mode, Text(s))], pos, levels);
    assert st.bcmds[..|rest|] == rest;
    var st1 := State(rest, pos + |s|, levels);
    assert Step(st, width) == (st1.(levels := levels[..|levels| - 1]), Chars(s) + [Close]);
    AppendAssoc(Chars<A>(s), [Close], Run(st1.(levels := levels[..|levels| - 1]), width));
  }

  // ---------------------------------------------------------------------
  // A flat blank does not advance the column

  /** Two groups, the first ending in a space and the second starting with
      one. The first is flat when its text and blank fit (the lookahead
      stops at the second group's space, still in break mode); the second is
      then checked against a column that left out the first group's blank,
      so both blanks and the last word share one line. */
  lemma {:induction false} BlankNotCounted<A>(a: seq<byte>, c: seq<byte>, width: nat)
    requires |a| + 1 + |c| <= width
    ensures Render<A>(Append(Group(Append(Text(a), Space)), Group(Append(Space, Text(c)))), width)
         == Chars(a + [SpaceByte, SpaceByte] + c)
  {
    var top2: Cmd<A> := Cmd(0, Break, Group(Append(Space, Text(c))));
    FirstGroup<A>(a, c, width);
    RunText(([] + [top2]) + [Cmd<A>.Cmd(0, Flat, Space)], 0, Flat, a, 0, width);
    RunFlatSpace([] + [top2], 0, |a|, width);
    SecondGroup<A>(a, c, width);
    JoinFour<A>(a, [SpaceByte], [SpaceByte], c, []);
    assert a + [SpaceByte] + [SpaceByte] + c == a + [SpaceByte, SpaceByte] + c;
    assert Chars<A>(a + [SpaceByte, SpaceByte] + c) + [] == Chars(a + [SpaceByte, SpaceByte] + c);
  }

  /** The first group goes flat and is expanded above the second. */
  lemma {:induction false} FirstGroup<A>(a: seq<byte>, c: seq<byte>, width: nat)
    requires |a| + 1 <= width
    ensures var top2 := Cmd(0, Break, Group(Append(Space, Text(c))));
      Render<A>(Append(Group(Append(Text(a), Space)), Group(Append(Space, Text(c)))), width)
      == Run(State(([] + [top2]) + [Cmd(0, Flat, Space)] + [Cmd(0, Flat, Text(a))], 0, []), width)
  {
    var g1: Doc<A> := Append(Text(a), Space);
    var g2: Doc<A> := Append(Space, Text(c));
    var top2 := Cmd(0, Break, Group(g2));
    var doc := Append(Group(g1), Group(g2));
    assert Initial(doc) == State([] + [Cmd(0, Break, doc)], 0, []);
    RunAppend([], 0, Break, Group(g1), Group(g2), 0, width);
    assert PushSpine([], 0, Break, doc) == [] + [top2] + [Cmd(0, Break, Group(g1))];
    FirstGroupWidth<A>(a, c);
    RunFlatGroup([] + [top2], 0, g1, 0, width);
    RunAppend([] + [top2], 0, Flat, Text(a), Space, 0, width);
    assert PushSpine([] + [top2], 0, Flat, g1) == ([] + [top2]) + [Cmd(0, Flat, Space)] + [Cmd(0, Flat, Text(a))];
  }

  /** The second group is checked from the column after the first word
      alone, goes flat, and prints its blank and its word. */
  lemma {:induction false} SecondGroup<A>(a: seq<byte>, c: seq<byte>, width: nat)
    requires |a| + 1 + |c| <= width
    ensures Run(State([] + [Cmd(0, Break, Group(Doc<A>.Append(Space, Text(c))))], |a|, []), width)
         == Chars([SpaceByte]) + (Chars(c) + [])
  {
    var g2: Doc<A> := Append(Space, Text(c));
    SecondGroupWidth<A>(c);
    RunFlatGroup([], 0, g2, |a|, width);
    RunAppend<A>([], 0, Flat, Space, Text(c), |a|, width);
    var cf, sf: Cmd<A> := Cmd(0, Flat, Text(c)), Cmd(0, Flat, Space);
    var last := PushSpine([], 0, Flat, g2);
    assert last == ([] + [cf]) + [sf];
    RunLeaves(last, |a|, width);
    assert last[..|last| - 1] == [cf] && [cf][..0] == [];
    assert LeafOut([cf]) == Chars(c) + [];
  }

  lemma {:induction false} FirstGroupWidth<A>(a: seq<byte>, c: seq<byte>)
    ensures FlatWidth(Lookahead(Cmd(0, Flat, Doc<A>.Append(Text(a), Space)),
                                [] + [Cmd(0, Break, Group(Append(Space, Text(c))))])) == |a| + 1
  {
    var g2: Doc<A> := Append(Space, Text(c));
    StackTokensPush([], Cmd(0, Break, Group(g2)));
    var after := ([SpaceTok(0, Break)] + [TextTok(c)]) + [];
    assert Leaves(g2, 0, Break) == [SpaceTok(0, Break)] + [TextTok(c)];
    assert Leaves(Group(g2), 0, Break) == Leaves(g2, 0, Break);
    assert StackTokens<A>([]) == [];
    assert StackTokens([] + [Cmd(0, Break, Group(g2))]) == after;
    assert Leaves<A>(Append(Text(a), Space), 0, Flat) == [TextTok(a)] + [SpaceTok(0, Flat)];
    assert Lookahead(Cmd(0, Flat, Doc<A>.Append(Text(a), Space)), [] + [Cmd(0, Break, Group(g2))])
        == [TextTok(a)] + ([SpaceTok(0, Flat)] + after);
    FlatWidthCons(SpaceTok(0, Break), [TextTok(c)] + []);
    AppendAssoc([SpaceTok(0, Break)], [TextTok(c)], []);
    FlatWidthCons(SpaceTok(0, Flat), after);
    FlatWidthCons(TextTok(a), [SpaceTok(0, Flat)] + after);
  }

  lemma {:induction false} SecondGroupWidth<A>(c: seq<byte>)
    ensures FlatWidth(Lookahead(Cmd(0, Flat, Doc<A>.Append(Space, Text(c))), [])) == 1 + |c|
  {
    assert Leaves<A>(Append(Space, Text(c)), 0, Flat) == [SpaceTok(0, Flat)] + [TextTok(c)];
    assert StackTokens<A>([]) == [];
    assert Lookahead(Cmd(0, Flat, Doc<A>.Append(Space, Text(c))), []) == ([SpaceTok(0, Flat)] + [TextTok(c)]) + [];
    AppendAssoc([SpaceTok(0, Flat)], [TextTok(c)], []);
    FlatWidthCons(TextTok(c), []);
    assert [TextTok(c)] + [] == [TextTok(c)];
    FlatWidthCons(SpaceTok(0, Flat), [TextTok(c)] + []);
  }

  /** With a one-byte first word and a three-byte second word, the line
      takes six columns although the width is five. */
  lemma {:induction false} OverlongLine()
    ensures Render<int>(Append(Group(Append(Text([97]), Space)), Group(Append(Space, Text([120, 121, 122])))), 5)
         == Chars([97, SpaceByte, SpaceByte, 120, 121, 122])
  {
    BlankNotCounted<int>([97], [120, 121, 122], 5);
    assert [97] + [SpaceByte, SpaceByte] + [120, 121, 122] == [97, SpaceByte, SpaceByte, 120, 121, 122];
  }

  // ---------------------------------------------------------------------
  // The re-check after a newline counts the top item twice

  /** Width up to the first line end adds up over a prefix without one. */
  lemma {:induction false} FlatWidthJoin(ts: seq<Token>, us: seq<Token>)
    requires forall i :: 0 <= i < |ts| ==> !EndsLine(ts[i])
    ensures FlatWidth(ts + us) == FlatWidth(ts) + FlatWidth(us)
    decreases |ts|
  {
    if ts != [] {
      assert (ts + us)[0] == ts[0] && (ts + us)[1..] == ts[1..] + us;
      FlatWidthJoin(ts[1..], us);
    } else {
      assert ts + us == us;
    }
  }

  function Phrase<A>(a: seq<byte>, c: seq<byte>): Doc<A>
  {
    Append(Text(a), Append(Space, Text(c)))
  }

  lemma {:induction false} PhraseWidth<A>(a: seq<byte>, c: seq<byte>, ind: nat)
    ensures Leaves(Phrase<A>(a, c), ind, Flat) == [TextTok(a)] + ([SpaceTok(ind, Flat)] + [TextTok(c)])
    ensures FlatWidth(Leaves(Phrase<A>(a, c), ind, Flat) + Leaves(Phrase<A>(a, c), ind, Flat))
         == 2 * (|a| + 1 + |c|)
  {
    var l := Leaves(Phrase<A>(a, c), ind, Flat);
    assert Leaves<A>(Append(Space, Text(c)), ind, Flat) == [SpaceTok(ind, Flat)] + [TextTok(c)];
    assert l == Leaves<A>(Text(a), ind, Flat) + Leaves<A>(Append(Space, Text(c)), ind, Flat);
    FlatWidthCons(TextTok(c), []);
    assert [TextTok(c)] + [] == [TextTok(c)];
    FlatWidthCons(SpaceTok(ind, Flat), [TextTok(c)]);
    FlatWidthCons(TextTok(a), [SpaceTok(ind, Flat)] + [TextTok(c)]);
    assert l == [TextTok(a)] + ([SpaceTok(ind, Flat)] + [TextTok(c)]);
    assert |l| == 3 && l[0] == TextTok(a) && l[1] == SpaceTok(ind, Flat) && l[2] == TextTok(c);
    assert forall i :: 0 <= i < |l| ==> !EndsLine(l[i]);
    FlatWidthJoin(l, l);
  }

  /** After the leading newline of the group, the phrase is re-checked and
      its lookahead reads it twice. */
  lemma {:induction false} OpenPhrase<A>(a: seq<byte>, c: seq<byte>, width: nat)
    ensures Render<A>(Group(Append(Newline, Phrase(a, c))), width)
         == Run(State(([] + [Cmd(0, Flat, Phrase(a, c))]) + [Cmd(0, Flat, Newline)], 0, []), width)
  {
    var r := Phrase<A>(a, c);
    var body := Append(Newline, r);
    assert Initial(Group(body)) == State([] + [Cmd(0, Break, Group(body))], 0, []);
    var rest := Leaves(r, 0, Flat) + [];
    assert Leaves(body, 0, Flat) == [NewlineTok(0)] + Leaves(r, 0, Flat);
    assert StackTokens<A>([]) == [];
    assert Lookahead(Cmd(0, Flat, body), []) == ([NewlineTok(0)] + Leaves(r, 0, Flat)) + [];
    AppendAssoc([NewlineTok(0)], Leaves(r, 0, Flat), []);
    FlatWidthCons(NewlineTok(0), rest);
    RunFlatGroup([], 0, body, 0, width);
    RunAppend<A>([], 0, Flat, Newline, r, 0, width);
    assert PushSpine([], 0, Flat, body) == ([] + [Cmd(0, Flat, r)]) + [Cmd(0, Flat, Newline)];
  }

  /** The phrase in the mode the re-check chose. */
  lemma {:induction false} PhraseOut<A>(a: seq<byte>, c: seq<byte>, mode: Mode, width: nat)
    ensures Run(State([Cmd(0, mode, Phrase<A>(a, c))], 0, []), width)
         == Chars(a) + ((if mode == Flat then Chars([SpaceByte]) else LineBreak(0)) + (Chars(c) + []))
  {
    PhraseHead<A>(a, c, mode, width);
    PhraseTail<A>(c, mode, |a|, width);
  }

  /** The phrase's first text, with the rest of the phrase left pending. */
  lemma {:induction false} PhraseHead<A>(a: seq<byte>, c: seq<byte>, mode: Mode, width: nat)
    ensures Run(State([Cmd(0, mode, Phrase<A>(a, c))], 0, []), width)
         == Chars(a) + Run(State([] + [Cmd(0, mode, Append(Space, Text(c)))], |a|, []), width)
  {
    var r := Phrase<A>(a, c);
    var x: Cmd<A> := Cmd(0, mode, Append(Space, Text(c)));
    assert [Cmd(0, mode, r)] == [] + [Cmd(0, mode, r)];
    RunAppend<A>([], 0, mode, Text(a), Append(Space, Text(c)), 0, width);
    assert PushSpine([], 0, mode, r) == ([] + [x]) + [Cmd(0, mode, Text(a))];
    RunText([] + [x], 0, mode, a, 0, width);
  }

  /** The space and the last text of the phrase. */
  lemma {:induction false} PhraseTail<A>(c: seq<byte>, mode: Mode, pos: nat, width: nat)
    ensures Run(State([] + [Cmd(0, mode, Append(Space, Text(c)))], pos, []), width)
         == (if mode == Flat then Chars<A>([SpaceByte]) else LineBreak<A>(0)) + (Chars<A>(c) + [])
  {
    RunAppend<A>([], 0, mode, Space, Text(c), pos, width);
    var cm, sm: Cmd<A> := Cmd(0, mode, Text(c)), Cmd(0, mode, Space);
    var last := PushSpine([], 0, mode, Append(Space, Text(c)));
    assert last == ([] + [cm]) + [sm];
    RunLeaves(last, pos, width);
    assert last[..|last| - 1] == [cm] && [cm][..0] == [];
    assert LeafOut([cm]) == Chars(c) + [];
  }

  /** The newline, then the re-check: the phrase stays flat exactly when
      twice its width fits. */
  lemma {:induction false} AfterNewline<A>(a: seq<byte>, c: seq<byte>, width: nat)
    ensures Render<A>(Group(Append(Newline, Phrase(a, c))), width)
         == LineBreak(0) + Run(State([Cmd(0, if 2 * (|a| + 1 + |c|) <= width then Flat else Break, Phrase(a, c))], 0, []), width)
  {
    var rf: Cmd<A> := Cmd(0, Flat, Phrase(a, c));
    OpenPhrase<A>(a, c, width);
    RunNewline([] + [rf], 0, Flat, 0, width);
    assert [] + [rf] == [rf];
    RecheckOne(rf, 0, width);
    PhraseWidth<A>(a, c, 0);
  }

  /** A line break to column zero, a word, a gap and a word, as bytes. */
  lemma {:induction false} JoinLine<A>(a: seq<byte>, gap: byte, c: seq<byte>)
    ensures LineBreak<A>(0) + (Chars(a) + (Chars([gap]) + (Chars(c) + []))) == Chars([NewlineByte] + a + [gap] + c)
  {
    assert [NewlineByte] + Spaces(0) == [NewlineByte];
    CharsAppend<A>([NewlineByte], a);
    CharsAppend<A>([NewlineByte] + a, [gap]);
    CharsAppend<A>([NewlineByte] + a + [gap], c);
    assert Chars<A>(c) + [] == Chars(c);
  }

  /** A group that starts with a newline: its phrase is kept on one line
      only when twice its width fits, because the re-check after the
      newline counts the phrase both as the popped item and as the top of
      the stack. */
  lemma {:induction false} RecheckTwice<A>(a: seq<byte>, c: seq<byte>, width: nat)
    ensures Render<A>(Group(Append(Newline, Append(Text(a), Append(Space, Text(c))))), width)
         == if 2 * (|a| + 1 + |c|) <= width then Chars([NewlineByte] + a + [SpaceByte] + c)
            else Chars([NewlineByte] + a + [NewlineByte] + c)
  {
    AfterNewline<A>(a, c, width);
    if 2 * (|a| + 1 + |c|) <= width {
      PhraseOut<A>(a, c, Flat, width);
      JoinLine<A>(a, SpaceByte, c);
    } else {
      PhraseOut<A>(a, c, Break, width);
      assert LineBreak<A>(0) == Chars([NewlineByte]) by {
        assert [NewlineByte] + Spaces(0) == [NewlineByte];
      }
      JoinLine<A>(a, NewlineByte, c);
    }
  }

  /** "abc d" needs five columns, yet at width eight it is broken. */
  lemma {:induction false} RecheckBreaksShortLine()
    ensures Render<int>(Group(Append(Newline, Append(Text([97, 98, 99]), Append(Space, Text([100]))))), 8)
         == Chars([NewlineByte, 97, 98, 99, NewlineByte, 100])
  {
    RecheckTwice<int>([97, 98, 99], [100], 8);
    assert [NewlineByte] + [97, 98, 99] + [NewlineByte] + [100] == [NewlineByte, 97, 98, 99, NewlineByte, 100];
  }

  // ---------------------------------------------------------------------
  // Indentation

  lemma {:induction false} RunNest<A>(rest: seq<Cmd<A>>, ind: nat, mode: Mode, off: nat, b: Doc<A>, pos: nat, width: nat)
    ensures Run(State(rest + [Cmd(ind, mode, Nest(off, b))], pos, []), width)
         == Run(State(rest + [Cmd(ind + off, mode, b)], pos, []), width)
  {
    RunTop(rest, Cmd(ind, mode, Nest(off, b)), pos, width);
  }

  lemma {:induction false} IntoNest<A>(a: seq<byte>, b: seq<byte>, k: nat, width: nat)
    ensures Render<A>(Append(Text(a), Nest(k, Append(Newline, Text(b)))), width)
         == Chars(a) + Run(State([] + [Cmd(k, Break, Append(Newline, Text(b)))], |a|, []), width)
  {
    var inner: Doc<A> := Append(Newline, Text(b));
    var doc := Append(Text(a), Nest(k, inner));
    var nb: Cmd<A> := Cmd(0, Break, Nest(k, inner));
    assert Initial(doc) == State([] + [Cmd(0, Break, doc)], 0, []);
    RunAppend<A>([], 0, Break, Text(a), Nest(k, inner), 0, width);
    assert PushSpine([], 0, Break, doc) == ([] + [nb]) + [Cmd(0, Break, Text(a))];
    RunText([] + [nb], 0, Break, a, 0, width);
    RunNest<A>([], 0, Break, k, inner, |a|, width);
  }

  lemma {:induction false} NestedLine<A>(b: seq<byte>, k: nat, pos: nat, width: nat)
    ensures Run(State([] + [Cmd(k, Break, Doc<A>.Append(Newline, Text(b)))], pos, []), width)
         == LineBreak(k) + (Chars(b) + [])
  {
    var bb: Cmd<A> := Cmd(k, Break, Text(b));
    RunAppend<A>([], k, Break, Newline, Text(b), pos, width);
    assert PushSpine([], k, Break, Append(Newline, Text(b))) == ([] + [bb]) + [Cmd(k, Break, Newline)];
    RunNewline([] + [bb], k, Break, pos, width);
    RecheckFrame([] + [bb], k, width);
    RunText<A>([], k, Break, b, k, width);
    RunDone<A>(k + |b|, width);
  }

  /** A newline inside a nest breaks to the nest's indentation. */
  lemma {:induction false} Indented<A>(a: seq<byte>, b: seq<byte>, k: nat, width: nat)
    ensures Render<A>(Append(Text(a), Nest(k, Append(Newline, Text(b)))), width)
         == Chars(a + [NewlineByte] + Spaces(k) + b)
  {
    IntoNest<A>(a, b, k, width);
    NestedLine<A>(b, k, |a|, width);
    CharsAppend<A>(a, [NewlineByte] + Spaces(k));
    AppendAssoc(a, [NewlineByte], Spaces(k));
    CharsAppend<A>(a + [NewlineByte] + Spaces(k), b);
    assert Chars<A>(b) + [] == Chars(b);
  }

  /** Two words in a group under `Nest(k, ..)`, too wide for the line:
      the group breaks, and its space becomes a line break to column `k`. */
  lemma {:induction false} IndentedWords<A>(a: seq<byte>, b: seq<byte>, k: nat, width: nat)
    requires |a| + 1 + |b| > width
    ensures Render<A>(Nest(k, Group(Append(Append(Text(a), Space), Text(b)))), width)
         == Chars(a + [NewlineByte] + Spaces(k) + b)
  {
    NestedWordsOut<A>(a, b, k, width);
    CharsAppend<A>(a, [NewlineByte] + Spaces(k));
    AppendAssoc(a, [NewlineByte], Spaces(k));
    CharsAppend<A>(a + [NewlineByte] + Spaces(k), b);
  }

  lemma {:induction false} NestedWordsOut<A>(a: seq<byte>, b: seq<byte>, k: nat, width: nat)
    requires |a| + 1 + |b| > width
    ensures Render<A>(Nest(k, Group(Append(Append(Text(a), Space), Text(b)))), width)
         == Chars(a) + (LineBreak(k) + Chars(b))
  {
    var g: Doc<A> := Group(Append(Append(Text(a), Space), Text(b)));
    assert Initial(Nest(k, g)) == State([] + [Cmd(0, Break, Nest(k, g))], 0, []);
    RunNest<A>([], 0, Break, k, g, 0, width);
    ExpandWords<A>(a, b, k, width);
    WordsOut<A>(a, b, k, Break, 0, width);
  }

  /** `Nest(2, Group("a" Space "b"))` at width 1 prints `a`, a line break,
      two blanks and `b`. */
  lemma {:induction false} NestedGroup()
    ensures Render<int>(Nest(2, Group(Append(Append(Text([97]), Space), Text([98])))), 1)
         == Chars([97, NewlineByte, SpaceByte, SpaceByte, 98])
  {
    IndentedWords<int>([97], [98], 2, 1);
    assert [97] + [NewlineByte] + Spaces(2) + [98] == [97, NewlineByte, SpaceByte, SpaceByte, 98];
  }

  // ---------------------------------------------------------------------
  // One annotation closed per iteration; the outer close is delayed

  lemma {:induction false} TwoScopes<A>(x: A, y: A, s: seq<byte>, width: nat)
    ensures Render(Annotated(x, Annotated(y, Text(s))), width)
         == [Open(x)] + ([Open(y)] + (Chars(s) + ([Close] + [])))
  {
    var inner: Doc<A> := Annotated(y, Text(s));
    var doc := Annotated(x, inner);
    assert Initial(doc) == State([] + [Cmd(0, Break, doc)], 0, []);
    RunAnnotated([], 0, Break, x, inner, 0, [], width);
    assert [] + [0] == [0];
    RunAnnotated([], 0, Break, y, Text(s), 0, [0], width);
    assert [0] + [0] == [0, 0];
    RunTextClose<A>([], 0, Break, s, 0, [0, 0], width);
    RunDone<A>(|s|, width);
  }

  /** Two annotations that end the document together: both open, but the
      loop closes at most one scope per popped item, and no later item
      brings the stack back to the outer scope's height, so the outer one
      is never closed. */
  lemma {:induction false} OneClose<A>(x: A, y: A, s: seq<byte>, width: nat)
    ensures Render(Annotated(x, Annotated(y, Text(s))), width) == [Open(x), Open(y)] + Chars(s) + [Close]
    ensures Depth(Render(Annotated(x, Annotated(y, Text(s))), width)) == 1
  {
    TwoScopes(x, y, s, width);
    var out: seq<Item<A>> := [Open(x), Open(y)] + Chars(s) + [Close];
    assert [Open(x)] + ([Open(y)] + (Chars(s) + ([Close] + []))) == out;
    ScopeDepth(x, y, s);
  }

  /** An `Append` expanded while annotations are open; the end-of-iteration
      check does not fire because the stack has grown past the innermost
      recorded height. */
  lemma {:induction false} RunAppendAt<A>(rest: seq<Cmd<A>>, ind: nat, mode: Mode, l: Doc<A>, r: Doc<A>,
                                          pos: nat, levels: seq<nat>, width: nat)
    requires levels == [] || levels[|levels| - 1] != |PushSpine(rest, ind, mode, Append(l, r))|
    ensures Run(State(rest + [Cmd(ind, mode, Append(l, r))], pos, levels), width)
         == Run(State(PushSpine(rest, ind, mode, Append(l, r)), pos, levels), width)
  {
    var st := State(rest + [Cmd(ind, mode, Append(l, r))], pos, levels);
    assert st.bcmds[..|rest|] == rest;
    var st1 := State(PushSpine(rest, ind, mode, Append(l, r)), pos, levels);
    assert CloseScope(st1) == (st1, []);
    assert Step(st, width) == (st1, [] + []);
  }

  /** The text after both annotations, run with the outer scope still open
      at height 1: the first text empties the stack to that height and
      closes the scope. */
  lemma {:induction false} DelayedTail<A>(t: seq<byte>, u: seq<byte>, pos: nat, width: nat)
    ensures Run<A>(State([Cmd(0, Break, Append(Text(t), Text(u)))], pos, [1]), width)
         == Chars(t) + ([Close] + (Chars(u) + []))
  {
    var tc, uc: Cmd<A> := Cmd(0, Break, Text(t)), Cmd(0, Break, Text(u));
    var ac: Cmd<A> := Cmd(0, Break, Append(Text(t), Text(u)));
    assert [ac] == [] + [ac];
    assert PushSpine([], 0, Break, ac.doc) == [uc] + [tc];
    RunAppendAt<A>([], 0, Break, Text(t), Text(u), pos, [1], width);
    RunTextClose<A>([uc], 0, Break, t, pos, [1], width);
    assert [1][..0] == [];
    assert [uc] == [] + [uc];
    RunText<A>([], 0, Break, u, pos + |t|, width);
    RunDone<A>(pos + |t| + |u|, width);
  }

  /** An annotation around a text, opened above one pending item `rc`: it
      opens, its text closes it, and the levels below are as they were. */
  lemma {:induction false} ScopedText<A>(rc: Cmd<A>, y: A, s: seq<byte>, levels: seq<nat>, width: nat)
    ensures Run(State([rc] + [Cmd(0, Break, Annotated(y, Text(s)))], 0, levels), width)
         == [Open(y)] + (Chars(s) + ([Close] + Run(State([rc], |s|, levels), width)))
  {
    RunAnnotated([rc], 0, Break, y, Text(s), 0, levels, width);
    RunTextClose<A>([rc], 0, Break, s, 0, levels + [|[rc]|], width);
    assert (levels + [|[rc]|])[..|levels|] == levels;
  }

  /** The two annotations, run above one pending item `rc`: both open, the
      text closes the inner scope, and the outer one is still open at
      height 1 when the stack is back to `rc`. */
  lemma {:induction false} DelayedHead<A>(rc: Cmd<A>, x: A, y: A, s: seq<byte>, width: nat)
    ensures Run(State([rc] + [Cmd(0, Break, Annotated(x, Annotated(y, Text(s))))], 0, []), width)
         == [Open(x)] + ([Open(y)] + (Chars(s) + ([Close] + Run(State([rc], |s|, [1]), width))))
  {
    RunAnnotated([rc], 0, Break, x, Annotated(y, Text(s)), 0, [], width);
    assert [] + [|[rc]|] == [1];
    ScopedText(rc, y, s, [1], width);
  }

  /** Two annotations that end together, with more text after them at the
      same height: the inner scope closes after its text, but the outer
      close waits for the next iteration that ends at that height, so the
      text `t` that follows both annotations is written inside the outer
      scope. */
  lemma {:induction false} DelayedClose<A>(x: A, y: A, s: seq<byte>, t: seq<byte>, u: seq<byte>, width: nat)
    ensures Render(Append(Annotated(x, Annotated(y, Text(s))), Append(Text(t), Text(u))), width)
         == [Open(x)] + ([Open(y)] + (Chars(s) + ([Close] + (Chars(t) + ([Close] + (Chars(u) + []))))))
  {
    var tail: Doc<A> := Append(Text(t), Text(u));
    var head: Doc<A> := Annotated(x, Annotated(y, Text(s)));
    var rc := Cmd(0, Break, tail);
    assert Initial(Append(head, tail)) == State([] + [Cmd(0, Break, Append(head, tail))], 0, []);
    RunAppend([], 0, Break, head, tail, 0, width);
    assert PushSpine([], 0, Break, Append(head, tail)) == [rc] + [Cmd(0, Break, head)];
    DelayedHead(rc, x, y, s, width);
    DelayedTail<A>(t, u, |s|, width);
  }

  lemma {:induction false} ScopeDepth<A>(x: A, y: A, s: seq<byte>)
    ensures Depth([Open(x), Open(y)] + Chars(s) + [Close]) == 1
  {
    var out: seq<Item<A>> := [Open(x), Open(y)] + Chars(s) + [Close];
    var opens: seq<Item<A>> := [Open(x), Open(y)];
    assert opens[..1] == [Open(x)] && [Open(x)][..0] == [];
    assert Depth(opens) == 2 && Nested(opens, 0);
    NestedChars<A>(s, 2);
    assert out[..|out| - 1] == [Open(x), Open(y)] + Chars(s);
    NestedAppend([Open(x), Open(y)], Chars(s), 0);
  }

  /** A text popped at a height where no open scope was recorded. */
  lemma {:induction false} RunTextOpen<A>(rest: seq<Cmd<A>>, ind: nat, mode: Mode, s: seq<byte>,
                                          pos: nat, levels: seq<nat>, width: nat)
    requires levels == [] || levels[|levels| - 1] != |rest|
    ensures Run(State(rest + [Cmd(ind, mode, Text(s))], pos, levels), width)
         == Chars(s) + Run(State(rest, pos + |s|, levels), width)
  {
    var st := State(rest + [Cmd<A>.Cmd(ind, mode, Text(s))], pos, levels);
    assert st.bcmds[..|rest|] == rest;
    var st1 := State(rest, pos + |s|, levels);
    assert CloseScope(st1) == (st1, []);
    assert Step(st, width) == (st1, Chars(s) + []);
  }

  /** A nest popped just above the innermost recorded height: pushing its
      child brings the stack back to that height, so the scope closes. */
  lemma {:induction false} RunNestClose<A>(rest: seq<Cmd<A>>, ind: nat, mode: Mode, off: nat, b: Doc<A>,
                                           pos: nat, below: seq<nat>, width: nat)
    ensures Run(State(rest + [Cmd(ind, mode, Nest(off, b))], pos, below + [|rest| + 1]), width)
         == [Close] + Run(State(rest + [Cmd(ind + off, mode, b)], pos, below), width)
  {
    var levels := below + [|rest| + 1];
    var st := State(rest + [Cmd(ind, mode, Nest(off, b))], pos, levels);
    assert st.bcmds[..|rest|] == rest;
    assert levels[..|levels| - 1] == below;
    var st1 := State(rest + [Cmd(ind + off, mode, b)], pos, levels);
    assert Step(st, width) == (st1.(levels := below), [] + [Close]);
  }

  /** Three annotations around a text, above one pending item `rc`: all
      three open, the text closes the innermost, and the other two are still
      open at height 1 when the stack is back to `rc`. */
  lemma {:induction false} TripleHead<A>(rc: Cmd<A>, x: A, y: A, z: A, s: seq<byte>, width: nat)
    ensures Run(State([rc] + [Cmd(0, Break, Annotated(x, Annotated(y, Annotated(z, Text(s)))))], 0, []), width)
         == [Open(x)] + ([Open(y)] + ([Open(z)] + (Chars(s) + ([Close] + Run(State([rc], |s|, [1, 1]), width)))))
  {
    RunAnnotated([rc], 0, Break, x, Annotated(y, Annotated(z, Text(s))), 0, [], width);
    assert [] + [|[rc]|] == [1];
    RunAnnotated([rc], 0, Break, y, Annotated(z, Text(s)), 0, [1], width);
    assert [1] + [|[rc]|] == [1, 1];
    ScopedText(rc, z, s, [1, 1], width);
  }

  /** After the three annotations, `Nest(1, Nest(1, t))`: each of the two
      nest iterations ends at height 1 and closes a scope, so `t` is written
      outside all three. */
  lemma {:induction false} TwoNestsTail<A>(t: seq<byte>, pos: nat, width: nat)
    ensures Run(State([] + [Cmd(0, Break, Nest(1, Nest(1, Text(t))))], pos, [1] + [1]), width)
         == [Close] + ([Close] + (Chars<A>(t) + []))
  {
    RunNestClose<A>([], 0, Break, 1, Nest(1, Text(t)), pos, [1], width);
    NestTextTail<A>(1, 1, t, pos, [], width);
    assert [] + [1] == [1];
  }

  /** After the three annotations, `Nest(2, t)`: one nest iteration closes
      one scope, and `t` is written inside the outermost. */
  lemma {:induction false} OneNestTail<A>(t: seq<byte>, pos: nat, width: nat)
    ensures Run(State([] + [Cmd(0, Break, Nest(2, Text(t)))], pos, [1] + [1]), width)
         == [Close] + (Chars<A>(t) + [])
  {
    NestTextTail<A>(0, 2, t, pos, [1], width);
  }

  /** The last item, a nest around a text, popped with a scope recorded at
      height 1: the nest closes that scope, and the text closes no other. */
  lemma {:induction false} NestTextTail<A>(ind: nat, off: nat, t: seq<byte>, pos: nat, below: seq<nat>, width: nat)
    requires below == [] || below[|below| - 1] != 0
    ensures Run(State([] + [Cmd(ind, Break, Nest(off, Text(t)))], pos, below + [1]), width)
         == [Close] + (Chars<A>(t) + [])
  {
    var inner: Cmd<A> := Cmd(ind + off, Break, Text(t));
    var rest := Run(State([] + [inner], pos, below), width);
    RunNestClose<A>([], ind, Break, off, Text(t), pos, below, width);
    assert Run(State([] + [Cmd(ind, Break, Nest(off, Text(t)))], pos, below + [1]), width) == [Close] + rest;
    LastOpenText<A>(ind + off, t, pos, below, width);
    assert rest == Chars<A>(t) + [];
  }

  /** The last item, a text, popped while a scope recorded at height 1 is
      still open: it leaves the stack at height 0 and closes nothing. */
  lemma {:induction false} LastOpenText<A>(ind: nat, t: seq<byte>, pos: nat, levels: seq<nat>, width: nat)
    requires levels == [] || levels[|levels| - 1] != 0
    ensures Run(State([] + [Cmd(ind, Break, Text(t))], pos, levels), width) == Chars<A>(t) + []
  {
    RunTextOpen<A>([], ind, Break, t, pos, levels, width);
    var done: State<A> := State([], pos + |t|, levels);
    assert Run(done, width) == [];
  }

  /** The annotation events of a nest of nests and of the single nest with
      the summed offset differ once scopes end at that height: with
      `Nest(1, Nest(1, t))` three scopes close before `t`, with `Nest(2, t)`
      two do, and `t` is written inside the outermost scope. The bytes are
      the same, as `RenderLaws.NestBytes` states. */
  lemma {:induction false} NestCloses<A>(x: A, y: A, z: A, s: seq<byte>, t: seq<byte>, width: nat)
    ensures Render(Append(Annotated(x, Annotated(y, Annotated(z, Text(s)))), Nest(1, Nest(1, Text(t)))), width)
         == [Open(x)] + ([Open(y)] + ([Open(z)] + (Chars(s) + ([Close] + ([Close] + ([Close] + (Chars(t) + [])))))))
    ensures Render(Append(Annotated(x, Annotated(y, Annotated(z, Text(s)))), Nest(2, Text(t))), width)
         == [Open(x)] + ([Open(y)] + ([Open(z)] + (Chars(s) + ([Close] + ([Close] + (Chars(t) + []))))))
  {
    var head: Doc<A> := Annotated(x, Annotated(y, Annotated(z, Text(s))));
    ThreeScopesThen(head, Nest(1, Nest(1, Text(t))), x, y, z, s, width);
    TwoNestsTail<A>(t, |s|, width);
    ThreeScopesThen(head, Nest(2, Text(t)), x, y, z, s, width);
    OneNestTail<A>(t, |s|, width);
  }

  /** Three annotations around a text, followed by `tail`. */
  lemma {:induction false} ThreeScopesThen<A>(head: Doc<A>, tail: Doc<A>, x: A, y: A, z: A, s: seq<byte>, width: nat)
    requires head == Annotated(x, Annotated(y, Annotated(z, Text(s))))
    ensures Render(Append(head, tail), width)
         == [Open(x)] + ([Open(y)] + ([Open(z)] + (Chars(s) + ([Close] + Run(State([] + [Cmd(0, Break, tail)], |s|, [1] + [1]), width)))))
  {
    var rc := Cmd(0, Break, tail);
    assert Initial(Append(head, tail)) == State([] + [Cmd(0, Break, Append(head, tail))], 0, []);
    RunAppend([], 0, Break, head, tail, 0, width);
    assert PushSpine([], 0, Break, Append(head, tail)) == [rc] + [Cmd(0, Break, head)];
    TripleHead(rc, x, y, z, s, width);
    assert [rc] == [] + [rc] && [1, 1] == [1] + [1];
  }

  // ---------------------------------------------------------------------
  // A wider target can break more lines

  /** Two groups side by side: `a` blank `b`, then `c` blank `d` blank `e`. */
  function Greedy<A>(a: seq<byte>, b: seq<byte>, c: seq<byte>, d: seq<byte>, e: seq<byte>): Doc<A>
  {
    Append(Group(Append(Append(Text(a), Space), Text(b))),
           Group(Append(Append(Append(Append(Text(c), Space), Text(d)), Space), Text(e))))
  }

  /** The second group's child: three words joined by spaces. */
  function Tail3<A>(c: seq<byte>, d: seq<byte>, e: seq<byte>): Doc<A>
  {
    Append(Append(Append(Append(Text(c), Space), Text(d)), Space), Text(e))
  }

  /** The second group's child, expanded, from the top down: `c`, a space,
      `d`, a space, `e`. */
  lemma {:induction false} Tail3Spine<A>(c: seq<byte>, d: seq<byte>, e: seq<byte>, mode: Mode)
    ensures PushSpine([], 0, mode, Tail3<A>(c, d, e))
         == [Cmd(0, mode, Text(e)), Cmd(0, mode, Space), Cmd(0, mode, Text(d)), Cmd(0, mode, Space), Cmd(0, mode, Text(c))]
    ensures Leaves(Tail3<A>(c, d, e), 0, mode)
         == [TextTok(c), SpaceTok(0, mode), TextTok(d), SpaceTok(0, mode), TextTok(e)]
  {
    var e3: Doc<A> := Append(Text(c), Space);
    var e2 := Append(e3, Text(d));
    var e1 := Append(e2, Space);
    var te, sp, td, tc: Cmd<A> := Cmd(0, mode, Text(e)), Cmd(0, mode, Space), Cmd(0, mode, Text(d)), Cmd(0, mode, Text(c));
    assert PushSpine([], 0, mode, Tail3<A>(c, d, e)) == PushSpine([] + [te], 0, mode, e1);
    assert PushSpine([] + [te], 0, mode, e1) == PushSpine([] + [te] + [sp], 0, mode, e2);
    assert PushSpine([] + [te] + [sp], 0, mode, e2) == PushSpine([] + [te] + [sp] + [td], 0, mode, e3);
    assert PushSpine([] + [te] + [sp] + [td], 0, mode, e3) == PushSpine([] + [te] + [sp] + [td] + [sp], 0, mode, Text(c));
    assert [] + [te] + [sp] + [td] + [sp] + [tc] == [te, sp, td, sp, tc];
    assert Leaves(e3, 0, mode) == [TextTok(c)] + [SpaceTok(0, mode)];
    assert Leaves(e2, 0, mode) == Leaves(e3, 0, mode) + [TextTok(d)];
    assert Leaves(e1, 0, mode) == Leaves(e2, 0, mode) + [SpaceTok(0, mode)];
    assert Leaves(Tail3<A>(c, d, e), 0, mode) == Leaves(e1, 0, mode) + [TextTok(e)];
  }

  /** The first group's child, expanded above `below`, and its leaves. */
  lemma {:induction false} PairSpine<A>(below: seq<Cmd<A>>, a: seq<byte>, b: seq<byte>, mode: Mode)
    ensures PushSpine(below, 0, mode, Doc<A>.Append(Append(Text(a), Space), Text(b)))
         == below + [Cmd(0, mode, Text(b))] + [Cmd(0, mode, Space)] + [Cmd(0, mode, Text(a))]
    ensures Leaves(Doc<A>.Append(Append(Text(a), Space), Text(b)), 0, mode)
         == [TextTok(a), SpaceTok(0, mode), TextTok(b)]
  {
    var e1: Doc<A> := Append(Text(a), Space);
    var tb, sp, ta: Cmd<A> := Cmd(0, mode, Text(b)), Cmd(0, mode, Space), Cmd(0, mode, Text(a));
    assert PushSpine(below, 0, mode, Append(e1, Text(b))) == PushSpine(below + [tb], 0, mode, e1);
    assert PushSpine(below + [tb], 0, mode, e1) == PushSpine(below + [tb] + [sp], 0, mode, Text(a));
    assert Leaves(e1, 0, mode) == [TextTok(a)] + [SpaceTok(0, mode)];
  }

  /** The whole document expands to the first group above the second. */
  lemma {:induction false} GreedyStart<A>(a: seq<byte>, b: seq<byte>, c: seq<byte>, d: seq<byte>, e: seq<byte>, width: nat)
    ensures Render(Greedy<A>(a, b, c, d, e), width)
         == Run(State([Cmd(0, Break, Group(Tail3(c, d, e)))]
                      + [Cmd(0, Break, Group(Append(Append(Text(a), Space), Text(b))))], 0, []), width)
  {
    var g1: Doc<A> := Append(Append(Text(a), Space), Text(b));
    var top2 := Cmd(0, Break, Group(Tail3<A>(c, d, e)));
    assert Initial(Greedy<A>(a, b, c, d, e)) == State([] + [Cmd(0, Break, Append(Group(g1), Group(Tail3(c, d, e))))], 0, []);
    RunAppend([], 0, Break, Group(g1), Group(Tail3(c, d, e)), 0, width);
    assert PushSpine([], 0, Break, Append(Group(g1), Group(Tail3(c, d, e)))) == [top2] + [Cmd(0, Break, Group(g1))];
  }

  /** The first group's lookahead runs past its own end into the first word
      of the second group, which stops at its break-mode space. */
  lemma {:induction false} FirstLookahead<A>(a: seq<byte>, b: seq<byte>, c: seq<byte>, d: seq<byte>, e: seq<byte>)
    ensures FlatWidth(Lookahead(Cmd(0, Flat, Doc<A>.Append(Append(Text(a), Space), Text(b))),
                                [Cmd(0, Break, Group(Tail3(c, d, e)))])) == |a| + 1 + |b| + |c|
  {
    var top2: Cmd<A> := Cmd(0, Break, Group(Tail3(c, d, e)));
    var own := [TextTok(a), SpaceTok(0, Flat), TextTok(b)];
    var rest := [TextTok(c), SpaceTok(0, Break), TextTok(d), SpaceTok(0, Break), TextTok(e)];
    PairSpine<A>([], a, b, Flat);
    Tail3Spine<A>(c, d, e, Break);
    assert [top2] == [] + [top2];
    StackTokensPush([], top2);
    assert StackTokens<A>([]) == [] && rest + [] == rest;
    assert Lookahead(Cmd(0, Flat, Doc<A>.Append(Append(Text(a), Space), Text(b))), [top2]) == own + rest;
    FlatWidthJoin(own, rest);
    FlatWidthCons(TextTok(b), []);
    assert [TextTok(b)] + [] == [TextTok(b)];
    FlatWidthCons(SpaceTok(0, Flat), [TextTok(b)]);
    assert own == [TextTok(a)] + [SpaceTok(0, Flat), TextTok(b)];
    FlatWidthCons(TextTok(a), [SpaceTok(0, Flat), TextTok(b)]);
    assert rest == [TextTok(c)] + rest[1..] && rest[1..] == [SpaceTok(0, Break)] + rest[2..];
    FlatWidthCons(TextTok(c), rest[1..]);
    FlatWidthCons(SpaceTok(0, Break), rest[2..]);
  }

  /** The second group's lookahead is its three words and two blanks. */
  lemma {:induction false} SecondLookahead<A>(c: seq<byte>, d: seq<byte>, e: seq<byte>)
    ensures FlatWidth(Lookahead(Cmd(0, Flat, Tail3<A>(c, d, e)), [])) == |c| + 1 + |d| + 1 + |e|
  {
    var l := [TextTok(c), SpaceTok(0, Flat), TextTok(d), SpaceTok(0, Flat), TextTok(e)];
    Tail3Spine<A>(c, d, e, Flat);
    assert StackTokens<A>([]) == [];
    assert Lookahead(Cmd(0, Flat, Tail3<A>(c, d, e)), []) == l + [];
    assert l + [] == l;
    FlatWidthCons(TextTok(e), []);
    assert l[4..] == [TextTok(e)] + [];
    FlatWidthCons(SpaceTok(0, Flat), l[4..]);
    FlatWidthCons(TextTok(d), l[3..]);
    FlatWidthCons(SpaceTok(0, Flat), l[2..]);
    FlatWidthCons(TextTok(c), l[1..]);
    assert l[1..][1..] == l[2..] && l[2..][1..] == l[3..] && l[3..][1..] == l[4..];
  }

  /** The second group, in the given mode, prints its three words with its
      two spaces in that mode. */
  lemma {:induction false} Tail3Out<A>(c: seq<byte>, d: seq<byte>, e: seq<byte>, mode: Mode, pos: nat, width: nat)
    ensures Run(State([Cmd(0, mode, Tail3<A>(c, d, e))], pos, []), width)
         == Chars(c) + (Exec(Cmd(0, mode, Space), State([], 0, []), 0).1
            + (Chars(d) + (Exec(Cmd(0, mode, Space), State([], 0, []), 0).1 + (Chars(e) + []))))
  {
    var te, sp, td, tc: Cmd<A> := Cmd(0, mode, Text(e)), Cmd(0, mode, Space), Cmd(0, mode, Text(d)), Cmd(0, mode, Text(c));
    var leaves := [te, sp, td, sp, tc];
    Tail3Spine<A>(c, d, e, mode);
    assert [Cmd(0, mode, Tail3<A>(c, d, e))] == [] + [Cmd(0, mode, Tail3(c, d, e))];
    RunAppend<A>([], 0, mode, Append(Append(Append(Text(c), Space), Text(d)), Space), Text(e), pos, width);
    RunLeaves(leaves, pos, width);
    var out := Exec(sp, State([], 0, []), 0).1;
    assert leaves[..4] == [te, sp, td, sp] && [te, sp, td, sp][..3] == [te, sp, td];
    assert [te, sp, td][..2] == [te, sp] && [te, sp][..1] == [te] && [te][..0] == [];
    assert LeafOut([te]) == Chars(e) + [];
    assert LeafOut([te, sp]) == out + (Chars(e) + []);
    assert LeafOut([te, sp, td]) == Chars(d) + (out + (Chars(e) + []));
    assert LeafOut([te, sp, td, sp]) == out + (Chars(d) + (out + (Chars(e) + [])));
  }

  /** `a`, a break-mode space and `b` above `below`: `a`, a line feed, `b`,
      leaving the column at `|b|`. */
  lemma {:induction false} LeavesBroken<A>(below: seq<Cmd<A>>, a: seq<byte>, b: seq<byte>, width: nat)
    ensures Run(State(below + [Cmd(0, Break, Text(b))] + [Cmd(0, Break, Space)] + [Cmd(0, Break, Text(a))], 0, []), width)
         == Chars(a) + (LineBreak(0) + (Chars(b) + Run(State(below, |b|, []), width)))
  {
    RunText(below + [Cmd(0, Break, Text(b))] + [Cmd(0, Break, Space)], 0, Break, a, 0, width);
    BreakThenText(below, b, |a|, width);
  }

  lemma {:induction false} BreakThenText<A>(below: seq<Cmd<A>>, b: seq<byte>, pos: nat, width: nat)
    ensures Run(State(below + [Cmd(0, Break, Text(b))] + [Cmd(0, Break, Space)], pos, []), width)
         == LineBreak(0) + (Chars(b) + Run(State(below, |b|, []), width))
  {
    RunBreakSpace(below + [Cmd(0, Break, Text(b))], 0, pos, width);
    RunText(below, 0, Break, b, 0, width);
  }

  /** `a`, a flat space and `b` above `below`: `a`, a blank that does not
      move the column, `b`, leaving the column at `|a| + |b|`. */
  lemma {:induction false} LeavesFlat<A>(below: seq<Cmd<A>>, a: seq<byte>, b: seq<byte>, width: nat)
    ensures Run(State(below + [Cmd(0, Flat, Text(b))] + [Cmd(0, Flat, Space)] + [Cmd(0, Flat, Text(a))], 0, []), width)
         == Chars(a) + (Chars([SpaceByte]) + (Chars(b) + Run(State(below, |a| + |b|, []), width)))
  {
    RunText(below + [Cmd(0, Flat, Text(b))] + [Cmd(0, Flat, Space)], 0, Flat, a, 0, width);
    BlankThenText(below, b, |a|, width);
  }

  lemma {:induction false} BlankThenText<A>(below: seq<Cmd<A>>, b: seq<byte>, pos: nat, width: nat)
    ensures Run(State(below + [Cmd(0, Flat, Text(b))] + [Cmd(0, Flat, Space)], pos, []), width)
         == Chars([SpaceByte]) + (Chars(b) + Run(State(below, pos + |b|, []), width))
  {
    RunFlatSpace(below + [Cmd(0, Flat, Text(b))], 0, pos, width);
    RunText(below, 0, Flat, b, pos, width);
  }

  /** The first group's child in break mode, above `top`. */
  lemma {:induction false} PairBroken<A>(top: Cmd<A>, a: seq<byte>, b: seq<byte>, width: nat)
    ensures Run(State([top] + [Cmd(0, Break, Doc<A>.Append(Append(Text(a), Space), Text(b)))], 0, []), width)
         == Chars(a) + (LineBreak(0) + (Chars(b) + Run(State([top], |b|, []), width)))
  {
    RunAppend([top], 0, Break, Append(Text(a), Space), Text(b), 0, width);
    PairSpine<A>([top], a, b, Break);
    LeavesBroken([top], a, b, width);
  }

  /** The first group's child in flat mode, above `top`. */
  lemma {:induction false} PairFlat<A>(top: Cmd<A>, a: seq<byte>, b: seq<byte>, width: nat)
    ensures Run(State([top] + [Cmd(0, Flat, Doc<A>.Append(Append(Text(a), Space), Text(b)))], 0, []), width)
         == Chars(a) + (Chars([SpaceByte]) + (Chars(b) + Run(State([top], |a| + |b|, []), width)))
  {
    RunAppend([top], 0, Flat, Append(Text(a), Space), Text(b), 0, width);
    PairSpine<A>([top], a, b, Flat);
    LeavesFlat([top], a, b, width);
  }

  /** The first group breaks when the lookahead over it and the next word
      does not fit. */
  lemma {:induction false} FirstBroken<A>(a: seq<byte>, b: seq<byte>, c: seq<byte>, d: seq<byte>, e: seq<byte>, width: nat)
    requires width < |a| + 1 + |b| + |c|
    ensures Run(State([Cmd(0, Break, Group(Tail3(c, d, e)))]
                      + [Cmd(0, Break, Group(Append(Append(Text(a), Space), Text(b))))], 0, []), width)
         == Chars(a) + (LineBreak(0) + (Chars(b) + Run(State([Cmd(0, Break, Group(Tail3<A>(c, d, e)))], |b|, []), width)))
  {
    var top2 := Cmd(0, Break, Group(Tail3<A>(c, d, e)));
    FirstLookahead<A>(a, b, c, d, e);
    RunBreakGroup([top2], 0, Append(Append(Text(a), Space), Text(b)), 0, width);
    PairBroken(top2, a, b, width);
  }

  /** The first group stays flat when the lookahead over it and the next
      word fits. */
  lemma {:induction false} FirstFlat<A>(a: seq<byte>, b: seq<byte>, c: seq<byte>, d: seq<byte>, e: seq<byte>, width: nat)
    requires |a| + 1 + |b| + |c| <= width
    ensures Run(State([Cmd(0, Break, Group(Tail3(c, d, e)))]
                      + [Cmd(0, Break, Group(Append(Append(Text(a), Space), Text(b))))], 0, []), width)
         == Chars(a) + (Chars([SpaceByte]) + (Chars(b) + Run(State([Cmd(0, Break, Group(Tail3<A>(c, d, e)))], |a| + |b|, []), width)))
  {
    var top2 := Cmd(0, Break, Group(Tail3<A>(c, d, e)));
    FirstLookahead<A>(a, b, c, d, e);
    RunFlatGroup([top2], 0, Append(Append(Text(a), Space), Text(b)), 0, width);
    PairFlat(top2, a, b, width);
  }

  /** The second group, from column `pos`, flat iff its three words and two
      blanks fit in what is left of the line. */
  lemma {:induction false} SecondGroupOut<A>(c: seq<byte>, d: seq<byte>, e: seq<byte>, pos: nat, width: nat)
    ensures var mode := if |c| + 1 + |d| + 1 + |e| <= width - pos then Flat else Break;
      Run(State([Cmd(0, Break, Group(Tail3<A>(c, d, e)))], pos, []), width)
      == Chars(c) + (Exec(Cmd(0, mode, Space), State([], 0, []), 0).1
         + (Chars(d) + (Exec(Cmd(0, mode, Space), State([], 0, []), 0).1 + (Chars(e) + []))))
  {
    var top2 := Cmd(0, Break, Group(Tail3<A>(c, d, e)));
    assert [top2] == [] + [top2];
    SecondLookahead<A>(c, d, e);
    if |c| + 1 + |d| + 1 + |e| <= width - pos {
      RunFlatGroup<A>([], 0, Tail3(c, d, e), pos, width);
      assert [] + [Cmd(0, Flat, Tail3<A>(c, d, e))] == [Cmd(0, Flat, Tail3(c, d, e))];
      Tail3Out<A>(c, d, e, Flat, pos, width);
    } else {
      RunBreakGroup<A>([], 0, Tail3(c, d, e), pos, width);
      assert [] + [Cmd(0, Break, Tail3<A>(c, d, e))] == [Cmd(0, Break, Tail3(c, d, e))];
      Tail3Out<A>(c, d, e, Break, pos, width);
    }
  }

  /** At a width that cannot hold the first group together with the next
      word, the first group breaks; the second then fits behind `b`. */
  lemma {:induction false} GreedyNarrow<A>(a: seq<byte>, b: seq<byte>, c: seq<byte>, d: seq<byte>, e: seq<byte>, width: nat)
    requires width < |a| + 1 + |b| + |c|
    requires |b| + |c| + 1 + |d| + 1 + |e| <= width
    ensures Render(Greedy<A>(a, b, c, d, e), width)
         == Chars(a) + (LineBreak(0) + (Chars(b) + (Chars(c) + (Chars([SpaceByte]) + (Chars(d) + (Chars([SpaceByte]) + (Chars(e) + [])))))))
  {
    GreedyStart<A>(a, b, c, d, e, width);
    FirstBroken<A>(a, b, c, d, e, width);
    SecondGroupOut<A>(c, d, e, |b|, width);
  }

  /** At a width that holds the first group and the next word, the first
      group stays flat, and the second is left too few columns. */
  lemma {:induction false} GreedyWide<A>(a: seq<byte>, b: seq<byte>, c: seq<byte>, d: seq<byte>, e: seq<byte>, width: nat)
    requires |a| + 1 + |b| + |c| <= width
    requires width < |a| + |b| + |c| + 1 + |d| + 1 + |e|
    ensures Render(Greedy<A>(a, b, c, d, e), width)
         == Chars(a) + (Chars([SpaceByte]) + (Chars(b) + (Chars(c) + (LineBreak(0) + (Chars(d) + (LineBreak(0) + (Chars(e) + [])))))))
  {
    GreedyStart<A>(a, b, c, d, e, width);
    FirstFlat<A>(a, b, c, d, e, width);
    SecondGroupOut<A>(c, d, e, |a| + |b|, width);
  }

  /** `aaaa` blank `b` beside `c` blank `d` blank `e`: at width 6 the first
      group's lookahead reaches `c` and breaks it, after which the second
      group fits, giving one line feed; at width 7 the first group fits
      exactly, the second gets two columns and breaks twice. */
  lemma {:induction false} WiderBreaksMore()
    ensures Render(Greedy<int>([97, 97, 97, 97], [98], [99], [100], [101]), 6)
         == Chars([97, 97, 97, 97, NewlineByte, 98, 99, SpaceByte, 100, SpaceByte, 101])
    ensures Render(Greedy<int>([97, 97, 97, 97], [98], [99], [100], [101]), 7)
         == Chars([97, 97, 97, 97, SpaceByte, 98, 99, NewlineByte, 100, NewlineByte, 101])
    ensures multiset(Bytes(Render(Greedy<int>([97, 97, 97, 97], [98], [99], [100], [101]), 6)))[NewlineByte] == 1
    ensures multiset(Bytes(Render(Greedy<int>([97, 97, 97, 97], [98], [99], [100], [101]), 7)))[NewlineByte] == 2
  {
    NarrowBytes();
    WideBytes();
  }

  lemma {:induction false} NarrowBytes()
    ensures Render(Greedy<int>([97, 97, 97, 97], [98], [99], [100], [101]), 6)
         == Chars([97, 97, 97, 97, NewlineByte, 98, 99, SpaceByte, 100, SpaceByte, 101])
    ensures multiset(Bytes(Render(Greedy<int>([97, 97, 97, 97], [98], [99], [100], [101]), 6)))[NewlineByte] == 1
  {
    var out: seq<byte> := [97, 97, 97, 97, NewlineByte, 98, 99, SpaceByte, 100, SpaceByte, 101];
    GreedyNarrow<int>([97, 97, 97, 97], [98], [99], [100], [101], 6);
    assert [NewlineByte] + Spaces(0) == [NewlineByte];
    JoinChars<int>([97, 97, 97, 97], [NewlineByte], [98], [99], [SpaceByte], [100], [SpaceByte], [101]);
    assert ([97, 97, 97, 97] + [NewlineByte] + [98] + [99]) + ([SpaceByte] + [100] + [SpaceByte] + [101]) == out;
    BytesChars<int>(out);
    OneFeed();
  }

  lemma {:induction false} WideBytes()
    ensures Render(Greedy<int>([97, 97, 97, 97], [98], [99], [100], [101]), 7)
         == Chars([97, 97, 97, 97, SpaceByte, 98, 99, NewlineByte, 100, NewlineByte, 101])
    ensures multiset(Bytes(Render(Greedy<int>([97, 97, 97, 97], [98], [99], [100], [101]), 7)))[NewlineByte] == 2
  {
    var out: seq<byte> := [97, 97, 97, 97, SpaceByte, 98, 99, NewlineByte, 100, NewlineByte, 101];
    GreedyWide<int>([97, 97, 97, 97], [98], [99], [100], [101], 7);
    assert [NewlineByte] + Spaces(0) == [NewlineByte];
    JoinChars<int>([97, 97, 97, 97], [SpaceByte], [98], [99], [NewlineByte], [100], [NewlineByte], [101]);
    assert ([97, 97, 97, 97] + [SpaceByte] + [98] + [99]) + ([NewlineByte] + [100] + [NewlineByte] + [101]) == out;
    BytesChars<int>(out);
    TwoFeeds();
  }

  lemma {:induction false} OneFeed()
    ensures multiset([97, 97, 97, 97, NewlineByte, 98, 99, SpaceByte, 100, SpaceByte, 101])[NewlineByte] == 1
  {
  }

  lemma {:induction false} TwoFeeds()
    ensures multiset([97, 97, 97, 97, SpaceByte, 98, 99, NewlineByte, 100, NewlineByte, 101])[NewlineByte] == 2
  {
  }

  /** Four byte strings printed in turn, then `x`, are their concatenation
      printed, then `x`. */
  lemma {:induction false} JoinFour<A>(s1: seq<byte>, s2: seq<byte>, s3: seq<byte>, s4: seq<byte>, x: seq<Item<A>>)
    ensures Chars<A>(s1) + (Chars(s2) + (Chars(s3) + (Chars(s4) + x))) == Chars(s1 + s2 + s3 + s4) + x
  {
    var t3 := s3 + s4;
    var t2 := s2 + t3;
    CharsAppend<A>(s3, s4);
    AppendAssoc(Chars<A>(s3), Chars(s4), x);
    CharsAppend<A>(s2, t3);
    AppendAssoc(Chars<A>(s2), Chars(t3), x);
    CharsAppend<A>(s1, t2);
    AppendAssoc(Chars<A>(s1), Chars(t2), x);
    assert s1 + t2 == s1 + s2 + s3 + s4;
  }

  /** Eight byte strings printed in turn are their concatenation printed,
      grouped in halves. */
  lemma {:induction false} JoinChars<A>(s1: seq<byte>, s2: seq<byte>, s3: seq<byte>, s4: seq<byte>,
                                        s5: seq<byte>, s6: seq<byte>, s7: seq<byte>, s8: seq<byte>)
    ensures Chars<A>(s1) + (Chars(s2) + (Chars(s3) + (Chars(s4) + (Chars(s5) + (Chars(s6) + (Chars(s7) + (Chars(s8) + [])))))))
         == Chars((s1 + s2 + s3 + s4) + (s5 + s6 + s7 + s8))
  {
    var back := Chars<A>(s5 + s6 + s7 + s8);
    JoinFour<A>(s5, s6, s7, s8, []);
    assert back + [] == back;
    JoinFour<A>(s1, s2, s3, s4, back);
    CharsAppend<A>(s1 + s2 + s3 + s4, s5 + s6 + s7 + s8);
  }
}
