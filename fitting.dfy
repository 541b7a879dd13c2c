/** The lookahead `fitting` (src/doc.rs:281-344): does the tentative item,
    followed by whatever is already committed, reach the end of the line
    without overrunning the remaining width? */
module LineFit {
  import opened Docs

  /** Width a leaf takes on the current line: its byte length for text, one
      for a flat space, nothing otherwise (src/doc.rs:326-337). */
  function Cost(t: Token): nat
  {
    match t
    case TextTok(s) => |s|
    case SpaceTok(_, Flat) => 1
    case _ => 0
  }

  /** A leaf that ends the line: a newline, or a space in break mode. */
  predicate EndsLine(t: Token)
  {
    t.NewlineTok? || (t.SpaceTok? && t.mode == Break)
  }

  /** The lookahead on a token stream with budget `rem`: the budget is checked
      before each step, a line end succeeds at once, and running out of
      tokens succeeds. */
  function FitsTokens(ts: seq<Token>, rem: int): bool
  {
    rem >= 0 && (ts == [] || EndsLine(ts[0]) || FitsTokens(ts[1..], rem - Cost(ts[0])))
  }

  /** Width of the stream up to its first line end. */
  function FlatWidth(ts: seq<Token>): nat
  {
    if ts == [] || EndsLine(ts[0]) then 0 else Cost(ts[0]) + FlatWidth(ts[1..])
  }

  /** The lookahead succeeds exactly when what precedes the first line end is
      no wider than the budget. */
  lemma {:induction false} FitsTokensWidth(ts: seq<Token>, rem: int)
    ensures FitsTokens(ts, rem) <==> FlatWidth(ts) <= rem
  {
    if ts != [] && !EndsLine(ts[0]) {
      FitsTokensWidth(ts[1..], rem - Cost(ts[0]));
    }
  }

  /** What the lookahead walks: the leaves of `next`, then the committed
      items from the top of the stack down. */
  function Lookahead<A>(next: Cmd<A>, bcmds: seq<Cmd<A>>): seq<Token>
  {
    Leaves(next.doc, next.ind, next.mode) + StackTokens(bcmds)
  }

  function Fits<A>(next: Cmd<A>, bcmds: seq<Cmd<A>>, rem: int): bool
  {
    FitsTokens(Lookahead(next, bcmds), rem)
  }

  /** The traversal does not depend on the budget, so a larger budget never
      turns a fit into a miss. */
  lemma {:induction false} FitsMonotone<A>(next: Cmd<A>, bcmds: seq<Cmd<A>>, rem: int, rem': int)
    requires rem <= rem' && Fits(next, bcmds, rem)
    ensures Fits(next, bcmds, rem')
  {
    FitsTokensWidth(Lookahead(next, bcmds), rem);
    FitsTokensWidth(Lookahead(next, bcmds), rem');
  }

  lemma {:induction false} FitsTokensCons(t: Token, ts: seq<Token>, rem: int)
    ensures FitsTokens([t] + ts, rem) == (rem >= 0 && (EndsLine(t) || FitsTokens(ts, rem - Cost(t))))
  {
    assert ([t] + ts)[0] == t && ([t] + ts)[1..] == ts;
  }

  /** Moving the next committed item onto the empty scratch stack leaves the
      pending token stream as it was. */
  lemma {:induction false} PullCommitted<A>(bcmds: seq<Cmd<A>>, bidx: nat)
    requires 0 < bidx <= |bcmds|
    ensures StackTokens([bcmds[bidx - 1]]) + StackTokens(bcmds[..bidx - 1]) == StackTokens(bcmds[..bidx])
  {
    StackTokensPush([], bcmds[bidx - 1]);
    assert [] + [bcmds[bidx - 1]] == [bcmds[bidx - 1]];
    assert bcmds[..bidx][..bidx - 1] == bcmds[..bidx - 1];
  }

  /** Popping the top of a stack splits its token stream. */
  lemma {:induction false} PopTokens<A>(s: seq<Cmd<A>>, rest: seq<Token>)
    requires s != []
    ensures var c := s[|s| - 1];
      StackTokens(s) + rest == Leaves(c.doc, c.ind, c.mode) + (StackTokens(s[..|s| - 1]) + rest)
  {
  }

  /** One popped item of the lookahead (src/doc.rs:307-339): expand it onto
      the scratch stack, or consume the leaf it is. `stop` is the early
      success at a line end; otherwise the pending stream with the budget
      left decides exactly what the popped item followed by the old pending
      stream decided. */
  method Expand<A>(c: Cmd<A>, fcmds: seq<Cmd<A>>, rem: int, ghost pending: seq<Token>)
    returns (stop: bool, fcmds': seq<Cmd<A>>, rem': int)
    requires rem >= 0
    ensures stop ==> FitsTokens(Leaves(c.doc, c.ind, c.mode) + (StackTokens(fcmds) + pending), rem)
    ensures !stop ==> FitsTokens(StackTokens(fcmds') + pending, rem')
                      == FitsTokens(Leaves(c.doc, c.ind, c.mode) + (StackTokens(fcmds) + pending), rem)
    ensures !stop ==> StackSize(fcmds') < StackSize(fcmds) + Size(c.doc)
  {
    stop, fcmds', rem' := false, fcmds, rem;
    ghost var rest := StackTokens(fcmds) + pending;
    match c.doc {
      case Nil =>
        assert [] + rest == rest;
      case Append(ldoc, rdoc) =>
        PushSpineTokens(fcmds, c.ind, c.mode, c.doc);
        PushSpineSize(fcmds, c.ind, c.mode, c.doc);
        fcmds' := PushAppend(fcmds, c.ind, c.mode, ldoc, rdoc);
        assert StackTokens(fcmds') + pending == Leaves(c.doc, c.ind, c.mode) + rest;
      case Group(doc) =>
        Push(fcmds, Cmd(c.ind, c.mode, doc), pending);
        fcmds' := fcmds + [Cmd(c.ind, c.mode, doc)];
      case Nest(off, doc) =>
        Push(fcmds, Cmd(c.ind + off, c.mode, doc), pending);
        fcmds' := fcmds + [Cmd(c.ind + off, c.mode, doc)];
      case Space =>
        FitsTokensCons(SpaceTok(c.ind, c.mode), rest, rem);
        if c.mode == Flat {
          rem' := rem - 1;
        } else {
          stop := true;
        }
      case Newline =>
        FitsTokensCons(NewlineTok(c.ind), rest, rem);
        stop := true;
      case Text(s) =>
        FitsTokensCons(TextTok(s), rest, rem);
        rem' := rem - |s|;
      case Annotated(_, doc) =>
        Push(fcmds, Cmd(c.ind, c.mode, doc), pending);
        fcmds' := fcmds + [Cmd(c.ind, c.mode, doc)];
    }
  }

  /** Pushing an item puts its leaves in front of the pending stream, and
      adds its document's size to the stack's. */
  lemma {:induction false} Push<A>(s: seq<Cmd<A>>, c: Cmd<A>, pending: seq<Token>)
    ensures StackTokens(s + [c]) + pending == Leaves(c.doc, c.ind, c.mode) + (StackTokens(s) + pending)
    ensures StackSize(s + [c]) == StackSize(s) + Size(c.doc)
  {
    StackTokensPush(s, c);
    assert (s + [c])[..|s|] == s;
  }

  /** `fitting`: `fcmds` is scratch space that is cleared first, so the answer
      does not depend on what it held; `bcmds` is only read, one item at a
      time from index `bidx - 1` down, and only once the scratch stack is
      empty. */
  method Fitting<A>(next: Cmd<A>, bcmds: seq<Cmd<A>>, fcmds0: seq<Cmd<A>>, rem0: int)
    returns (fits: bool, fcmds: seq<Cmd<A>>)
    ensures fits == Fits(next, bcmds, rem0)
    ensures fits <==> FlatWidth(Lookahead(next, bcmds)) <= rem0
    ensures rem0 < 0 ==> !fits
  {
    FitsTokensWidth(Lookahead(next, bcmds), rem0);
    var rem := rem0;
    var bidx := |bcmds|;
    fcmds := [];
    fcmds := fcmds + [next];
    assert fcmds == [next] && bcmds[..bidx] == bcmds;
    assert StackTokens(fcmds) == Leaves(next.doc, next.ind, next.mode);
    while rem >= 0
      invariant 0 <= bidx <= |bcmds|
      invariant FitsTokens(StackTokens(fcmds) + StackTokens(bcmds[..bidx]), rem) == Fits(next, bcmds, rem0)
      decreases bidx, StackSize(fcmds)
    {
      ghost var pending := StackTokens(bcmds[..bidx]);
      if fcmds == [] {
        if bidx == 0 {
          return true, fcmds;
        }
        PullCommitted(bcmds, bidx);
        assert StackTokens(fcmds) + pending == pending;
        fcmds := fcmds + [bcmds[bidx - 1]];
        assert fcmds == [bcmds[bidx - 1]];
        bidx := bidx - 1;
      } else {
        PopTokens(fcmds, pending);
        var c := fcmds[|fcmds| - 1];
        fcmds := fcmds[..|fcmds| - 1];
        var stop;
        stop, fcmds, rem := Expand(c, fcmds, rem, pending);
        if stop {
          return true, fcmds;
        }
      }
    }
    fits := false;
  }
}
