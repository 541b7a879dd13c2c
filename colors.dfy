/** The colour-stack logic of the `termcolor` back end (src/doc.rs:124-162):
    each annotation is a colour; opening one switches the terminal to it,
    closing one switches back to the colour of the enclosing annotation, or
    resets the terminal when none is left. */
module Colors {
  import opened Docs
  import opened Sinks
  import opened Best
  import opened RenderLaws

  datatype Option<T> = None | Some(value: T)

  /** What the terminal is asked to do. */
  datatype Command<C> = SetColor(color: C) | Reset

  /** The innermost colour of a stack, if any. */
  function Top<C>(stack: seq<C>): (r: Option<C>)
    ensures r.Some? <==> stack != []
    ensures r.Some? ==> r.value == stack[|stack| - 1]
  {
    if stack == [] then None else Some(stack[|stack| - 1])
  }

  /** The colour the terminal shows after `cmds`, from its default. */
  function Shown<C>(cmds: seq<Command<C>>): Option<C>
  {
    if cmds == [] then None
    else match cmds[|cmds| - 1]
      case SetColor(c) => Some(c)
      case Reset => None
  }

  /** The command that shows the top of `stack`. */
  function ShowTop<C>(stack: seq<C>): (cmd: Command<C>)
    ensures Shown([cmd]) == Top(stack)
  {
    if stack == [] then Reset else SetColor(stack[|stack| - 1])
  }

  /** A terminal back end: the colour stack it keeps and the colour commands
      it has sent. Each command may fail, in which case the terminal reports
      `fault`; the stack is updated before the command is sent, so it is
      updated whether or not the command succeeds. */
  class TermColored<C, E> {
    var colorStack: seq<C>
    var commands: seq<Command<C>>
    const fault: E

    constructor (fault: E)
      ensures colorStack == [] && commands == [] && this.fault == fault
    {
      colorStack := [];
      commands := [];
      this.fault := fault;
    }

    /** `set_color` or `reset` on the underlying writer. */
    method Send(cmd: Command<C>) returns (r: Result<(), E>)
      modifies this
      ensures colorStack == old(colorStack)
      ensures r.Ok? ==> commands == old(commands) + [cmd]
      ensures r.Err? ==> r.error == fault && commands == old(commands)
    {
      var fails: bool := *;
      if fails {
        r := Err(fault);
      } else {
        commands := commands + [cmd];
        r := Ok(());
      }
    }

    /** `push_annotation` (src/doc.rs:151-154): remember the colour, then
        switch to it. */
    method PushAnnotation(color: C) returns (r: Result<(), E>)
      modifies this
      ensures colorStack == old(colorStack) + [color] == Apply(old(colorStack), Open(color))
      ensures r.Ok? ==> commands == old(commands) + [SetColor(color)]
      ensures r.Err? ==> r.error == fault && commands == old(commands)
      ensures r.Ok? ==> Shown(commands) == Top(colorStack)
    {
      colorStack := colorStack + [color];
      r := Send(SetColor(color));
    }

    /** `pop_annotation` (src/doc.rs:155-161): forget the innermost colour,
        if any, then show the one below or reset. */
    method PopAnnotation() returns (r: Result<(), E>)
      modifies this
      ensures colorStack == if old(colorStack) == [] then [] else old(colorStack)[..|old(colorStack)| - 1]
      ensures colorStack == Apply(old(colorStack), Close)
      ensures r.Ok? ==> commands == old(commands) + [ShowTop(colorStack)]
      ensures r.Err? ==> r.error == fault && commands == old(commands)
      ensures r.Ok? ==> Shown(commands) == Top(colorStack)
    {
      if colorStack != [] {
        colorStack := colorStack[..|colorStack| - 1];
      }
      r := Send(ShowTop(colorStack));
      if r.Ok? {
        assert commands[|commands| - 1] == ShowTop(colorStack);
      }
    }
  }

  /** The colour stack after one observed item: an opening pushes its
      colour, a closing pops (a pop of an empty stack does nothing, as with
      `Vec::pop`), a byte leaves it alone. */
  function Apply<C>(stack: seq<C>, item: Item<C>): seq<C>
  {
    match item
    case Open(c) => stack + [c]
    case Close => if stack == [] then [] else stack[..|stack| - 1]
    case Byte(_) => stack
  }

  /** The colour stack after replaying `items` from `stack`. */
  function Replay<C>(stack: seq<C>, items: seq<Item<C>>): seq<C>
  {
    if items == [] then stack else Apply(Replay(stack, items[..|items| - 1]), items[|items| - 1])
  }

  /** Some closing in `items` meets an empty colour stack. */
  predicate Underflows<C>(stack: seq<C>, items: seq<Item<C>>)
  {
    items != [] &&
      (Underflows(stack, items[..|items| - 1])
       || (items[|items| - 1].Close? && Replay(stack, items[..|items| - 1]) == []))
  }

  /** On properly nested scopes the stack never runs dry and ends as deep
      as the scopes left open. */
  lemma {:induction false} ReplayNested<C>(stack: seq<C>, items: seq<Item<C>>)
    requires Nested(items, |stack|)
    ensures !Underflows(stack, items)
    ensures |Replay(stack, items)| == |stack| + Depth(items)
  {
    if items != [] {
      var init := items[..|items| - 1];
      ReplayNested(stack, init);
    }
  }

  /** Rendering any document to the terminal back end starts with no colour
      and never pops an empty colour stack; what is left on it is the
      scopes still open. */
  lemma {:induction false} RenderColors<C>(doc: Doc<C>, width: nat)
    ensures !Underflows([], Render(doc, width))
    ensures |Replay([], Render(doc, width))| == Depth(Render(doc, width))
  {
    Scopes(doc, width);
    ReplayNested([], Render(doc, width));
  }
}
