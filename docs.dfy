/** The document tree, the work items the renderer stacks, and the
    left-to-right token stream of a document that both the lookahead and the
    main loop walk (src/doc.rs:10-31, src/doc.rs:250). */
module Docs {

  /** One byte of UTF-8 text: the renderer measures text by `str.len()`. */
  newtype byte = b: int | 0 <= b < 0x100

  const SpaceByte: byte := 32
  const NewlineByte: byte := 10

  /** `n` blanks. */
  function Spaces(n: nat): (s: seq<byte>)
    ensures |s| == n
  {
    if n == 0 then [] else Spaces(n - 1) + [SpaceByte]
  }

  /** Blanks join to blanks. */
  lemma {:induction false} SpacesAdd(m: nat, n: nat)
    ensures Spaces(m) + Spaces(n) == Spaces(m + n)
  {
    if n > 0 {
      SpacesAdd(m, n - 1);
      assert Spaces(m) + (Spaces(n - 1) + [SpaceByte]) == (Spaces(m) + Spaces(n - 1)) + [SpaceByte];
    } else {
      assert Spaces(m) + [] == Spaces(m);
    }
  }

  /** A prefix of a run of blanks is a run of blanks. */
  lemma {:induction false} SpacesTake(n: nat, k: nat)
    requires k <= n
    ensures Spaces(n)[..k] == Spaces(k)
  {
    SpacesAdd(k, n - k);
    assert (Spaces(k) + Spaces(n - k))[..k] == Spaces(k);
  }

  /** Regrouping a concatenation; stated once so that proofs can cite it
      rather than rediscover it. */
  lemma {:induction false} AppendAssoc<T>(a: seq<T>, b: seq<T>, c: seq<T>)
    ensures (a + b) + c == a + (b + c)
  {
  }

  lemma {:induction false} SpacesPrefix(k: nat, n: nat)
    requires k <= n
    ensures Spaces(k) <= Spaces(n)
  {
    SpacesTake(n, k);
  }

  datatype Mode = Break | Flat

  /** The document tree. Children are held directly: the tree is never
      mutated, so sharing through a pointer type makes no difference. */
  datatype Doc<A> =
    | Nil
    | Append(left: Doc<A>, right: Doc<A>)
    | Group(body: Doc<A>)
    | Nest(offset: nat, body: Doc<A>)
    | Space
    | Newline
    | Text(text: seq<byte>)
    | Annotated(ann: A, body: Doc<A>)

  /** A work item: indentation, mode and the document still to render. */
  datatype Cmd<A> = Cmd(ind: nat, mode: Mode, doc: Doc<A>)

  function Size<A>(d: Doc<A>): nat
  {
    match d
    case Append(l, r) => 1 + Size(l) + Size(r)
    case Group(b) => 1 + Size(b)
    case Nest(_, b) => 1 + Size(b)
    case Annotated(_, b) => 1 + Size(b)
    case _ => 1
  }

  /** Total size of the documents on a stack; the termination measure of
      both loops. */
  function StackSize<A>(s: seq<Cmd<A>>): nat
  {
    if s == [] then 0 else StackSize(s[..|s| - 1]) + Size(s[|s| - 1].doc)
  }

  /** Stacks that hold the same documents size the same, whatever the modes. */
  lemma {:induction false} StackSizeDocsOnly<A>(s: seq<Cmd<A>>, t: seq<Cmd<A>>)
    requires |s| == |t|
    requires forall i :: 0 <= i < |s| ==> s[i].doc == t[i].doc
    ensures StackSize(s) == StackSize(t)
  {
    if s != [] {
      StackSizeDocsOnly(s[..|s| - 1], t[..|t| - 1]);
    }
  }

  /** A leaf of the document as it is met in left-to-right order, with the
      indentation and mode it is met under. */
  datatype Token =
    | TextTok(text: seq<byte>)
    | SpaceTok(ind: nat, mode: Mode)
    | NewlineTok(ind: nat)

  /** The leaves of `d` in order when `Group` and `Annotated` keep the current
      mode and `Nest` adds its offset to the indentation. */
  function Leaves<A>(d: Doc<A>, ind: nat, mode: Mode): seq<Token>
  {
    match d
    case Nil => []
    case Append(l, r) => Leaves(l, ind, mode) + Leaves(r, ind, mode)
    case Group(b) => Leaves(b, ind, mode)
    case Nest(off, b) => Leaves(b, ind + off, mode)
    case Space => [SpaceTok(ind, mode)]
    case Newline => [NewlineTok(ind)]
    case Text(s) => [TextTok(s)]
    case Annotated(_, b) => Leaves(b, ind, mode)
  }

  /** The leaves of a stack of work items read from the top down: the order
      in which popping would render them. */
  function StackTokens<A>(s: seq<Cmd<A>>): seq<Token>
  {
    if s == [] then []
    else
      var c := s[|s| - 1];
      Leaves(c.doc, c.ind, c.mode) + StackTokens(s[..|s| - 1])
  }

  lemma {:induction false} StackTokensPush<A>(s: seq<Cmd<A>>, c: Cmd<A>)
    ensures StackTokens(s + [c]) == Leaves(c.doc, c.ind, c.mode) + StackTokens(s)
  {
    assert (s + [c])[..|s|] == s;
  }

  /** Expanding an `Append`: push the right child, then walk down the left
      spine pushing each right child, and finally push the leftmost
      non-`Append` document; every item gets the parent's indent and mode
      (src/doc.rs:308-319, src/doc.rs:360-368). */
  function PushSpine<A>(s: seq<Cmd<A>>, ind: nat, mode: Mode, d: Doc<A>): seq<Cmd<A>>
    decreases d
  {
    match d
    case Append(l, r) => PushSpine(s + [Cmd(ind, mode, r)], ind, mode, l)
    case _ => s + [Cmd(ind, mode, d)]
  }

  /** Expanding an `Append` in place on a stack: push the right child, walk
      the left spine pushing right children, then push the leftmost document
      (src/doc.rs:308-319; the main loop repeats it at src/doc.rs:360-368). */
  method PushAppend<A>(s: seq<Cmd<A>>, ind: nat, mode: Mode, ldoc: Doc<A>, rdoc: Doc<A>)
    returns (t: seq<Cmd<A>>)
    ensures t == PushSpine(s, ind, mode, Append(ldoc, rdoc))
  {
    t := s + [Cmd(ind, mode, rdoc)];
    var doc := ldoc;
    while doc.Append?
      invariant PushSpine(t, ind, mode, doc) == PushSpine(s, ind, mode, Append(ldoc, rdoc))
      decreases doc
    {
      t := t + [Cmd(ind, mode, doc.right)];
      doc := doc.left;
    }
    t := t + [Cmd(ind, mode, doc)];
  }

  /** Popping what `PushSpine` pushed yields the leaves of `d` in order,
      followed by whatever was on the stack before. */
  lemma {:induction false} PushSpineTokens<A>(s: seq<Cmd<A>>, ind: nat, mode: Mode, d: Doc<A>)
    ensures StackTokens(PushSpine(s, ind, mode, d)) == Leaves(d, ind, mode) + StackTokens(s)
    decreases d
  {
    match d
    case Append(l, r) =>
      PushSpineTokens(s + [Cmd(ind, mode, r)], ind, mode, l);
      StackTokensPush(s, Cmd(ind, mode, r));
    case _ =>
      StackTokensPush(s, Cmd(ind, mode, d));
  }

  /** `PushSpine` only pushes: the old stack stays below, every new item has
      the parent's indent and mode, and the new top is not an `Append`. */
  lemma {:induction false} PushSpineFrame<A>(s: seq<Cmd<A>>, ind: nat, mode: Mode, d: Doc<A>)
    ensures var t := PushSpine(s, ind, mode, d);
      && |s| < |t| && t[..|s|] == s
      && (forall k :: |s| <= k < |t| ==> t[k].ind == ind && t[k].mode == mode)
      && !t[|t| - 1].doc.Append?
    decreases d
  {
    match d
    case Append(l, r) =>
      PushSpineFrame(s + [Cmd(ind, mode, r)], ind, mode, l);
      var t := PushSpine(s, ind, mode, d);
      assert t[..|s| + 1][..|s|] == t[..|s|];
    case _ =>
  }

  /** `PushSpine` never grows the stack's total size beyond that of the
      document it expands, and shrinks it when that document is an `Append`
      (the `Append` node itself is dropped). */
  lemma {:induction false} PushSpineSize<A>(s: seq<Cmd<A>>, ind: nat, mode: Mode, d: Doc<A>)
    ensures StackSize(PushSpine(s, ind, mode, d)) + (if d.Append? then 1 else 0)
      <= StackSize(s) + Size(d)
    decreases d
  {
    match d
    case Append(l, r) =>
      PushSpineSize(s + [Cmd(ind, mode, r)], ind, mode, l);
      assert (s + [Cmd(ind, mode, r)])[..|s|] == s;
    case _ =>
      assert (s + [Cmd(ind, mode, d)])[..|s|] == s;
  }

  // ---------------------------------------------------------------------
  // Shape: a token with its mode erased, and the bytes a token becomes.

  /** What is left of a token once the mode decision is forgotten. */
  datatype Slot = Word(text: seq<byte>) | Soft(ind: nat) | Hard(ind: nat)

  function SlotOf(t: Token): Slot
  {
    match t
    case TextTok(s) => Word(s)
    case SpaceTok(i, _) => Soft(i)
    case NewlineTok(i) => Hard(i)
  }

  function Shape(ts: seq<Token>): (r: seq<Slot>)
    ensures |r| == |ts|
  {
    if ts == [] then [] else [SlotOf(ts[0])] + Shape(ts[1..])
  }

  lemma {:induction false} ShapeAppend(a: seq<Token>, b: seq<Token>)
    ensures Shape(a + b) == Shape(a) + Shape(b)
  {
    if a != [] {
      assert (a + b)[0] == a[0] && (a + b)[1..] == a[1..] + b;
      ShapeAppend(a[1..], b);
    } else {
      assert a + b == b;
    }
  }

  /** The bytes a token is rendered as: text verbatim, a flat space as one
      blank, a broken space or a newline as a line feed and its indentation. */
  function TokenBytes(t: Token): seq<byte>
  {
    match t
    case TextTok(s) => s
    case SpaceTok(i, Flat) => [SpaceByte]
    case SpaceTok(i, Break) => [NewlineByte] + Spaces(i)
    case NewlineTok(i) => [NewlineByte] + Spaces(i)
  }

  function Realise(ts: seq<Token>): seq<byte>
  {
    if ts == [] then [] else TokenBytes(ts[0]) + Realise(ts[1..])
  }

  lemma {:induction false} RealiseAppend(a: seq<Token>, b: seq<Token>)
    ensures Realise(a + b) == Realise(a) + Realise(b)
  {
    if a != [] {
      assert (a + b)[0] == a[0] && (a + b)[1..] == a[1..] + b;
      RealiseAppend(a[1..], b);
    } else {
      assert a + b == b;
    }
  }

  /** The mode a document is expanded under changes which way its spaces go,
      never which leaves it has or their indentation. */
  lemma {:induction false} ShapeModeFree<A>(d: Doc<A>, ind: nat, m1: Mode, m2: Mode)
    ensures Shape(Leaves(d, ind, m1)) == Shape(Leaves(d, ind, m2))
  {
    match d
    case Append(l, r) =>
      ShapeModeFree(l, ind, m1, m2);
      ShapeModeFree(r, ind, m1, m2);
      ShapeAppend(Leaves(l, ind, m1), Leaves(r, ind, m1));
      ShapeAppend(Leaves(l, ind, m2), Leaves(r, ind, m2));
    case Group(b) => ShapeModeFree(b, ind, m1, m2);
    case Nest(off, b) => ShapeModeFree(b, ind + off, m1, m2);
    case Annotated(_, b) => ShapeModeFree(b, ind, m1, m2);
    case _ =>
  }

  /** Two stacks that differ at most in their modes have the same shape. */
  lemma {:induction false} StackShapeModeFree<A>(s: seq<Cmd<A>>, t: seq<Cmd<A>>)
    requires |s| == |t|
    requires forall i :: 0 <= i < |s| ==> s[i].doc == t[i].doc && s[i].ind == t[i].ind
    ensures Shape(StackTokens(s)) == Shape(StackTokens(t))
  {
    if s != [] {
      var c, e := s[|s| - 1], t[|t| - 1];
      StackShapeModeFree(s[..|s| - 1], t[..|t| - 1]);
      ShapeModeFree(c.doc, c.ind, c.mode, e.mode);
      ShapeAppend(Leaves(c.doc, c.ind, c.mode), StackTokens(s[..|s| - 1]));
      ShapeAppend(Leaves(e.doc, e.ind, e.mode), StackTokens(t[..|t| - 1]));
    }
  }
}
