/** The output side of the renderer: the `Render`/`RenderAnnotated`
    capability as an abstract device that records what it is asked to do,
    and the emission helpers built on it (src/doc.rs:42-55, src/doc.rs:93-97,
    src/doc.rs:252-279). */
module Sinks {
  import opened Docs

  datatype Result<T, E> = Ok(value: T) | Err(error: E)

  /** What the device was asked to do, call by call; `Fail` records a call
      that reported an error and did nothing else. */
  datatype Event<A> = Write(chunk: seq<byte>) | Push(ann: A) | Pop | Fail

  /** What a reader of the output observes once write chunks are joined. */
  datatype Item<A> = Byte(b: byte) | Open(ann: A) | Close

  /** The bytes of `s`, one observed item each. */
  function Chars<A>(s: seq<byte>): (r: seq<Item<A>>)
    ensures |r| == |s|
  {
    if s == [] then [] else Chars(s[..|s| - 1]) + [Byte(s[|s| - 1])]
  }

  /** Bytes never open or close an annotation scope. */
  lemma CharsNoScope<A>(s: seq<byte>)
    ensures forall i :: 0 <= i < |Chars<A>(s)| ==> Chars<A>(s)[i].Byte?
  {
    forall i | 0 <= i < |Chars<A>(s)|
      ensures Chars<A>(s)[i].Byte?
    {
      CharsAt<A>(s, i);
    }
  }

  lemma {:induction false} CharsAt<A>(s: seq<byte>, i: nat)
    requires i < |s|
    ensures Chars<A>(s)[i] == Byte(s[i])
  {
    if i < |s| - 1 {
      CharsAt<A>(s[..|s| - 1], i);
    }
  }

  lemma {:induction false} CharsAppend<A>(a: seq<byte>, b: seq<byte>)
    ensures Chars<A>(a + b) == Chars<A>(a) + Chars<A>(b)
    decreases |b|
  {
    if b == [] {
      assert a + b == a;
    } else {
      assert (a + b)[..|a + b| - 1] == a + b[..|b| - 1];
      CharsAppend<A>(a, b[..|b| - 1]);
    }
  }

  function EventItems<A>(e: Event<A>): seq<Item<A>>
  {
    match e
    case Write(s) => Chars(s)
    case Push(a) => [Open(a)]
    case Pop => [Close]
    case Fail => []
  }

  /** The observable output of a trace. */
  function Observe<A>(trace: seq<Event<A>>): seq<Item<A>>
  {
    if trace == [] then []
    else Observe(trace[..|trace| - 1]) + EventItems(trace[|trace| - 1])
  }

  lemma {:induction false} ObserveAppend<A>(a: seq<Event<A>>, b: seq<Event<A>>)
    ensures Observe(a + b) == Observe(a) + Observe(b)
    decreases |b|
  {
    if b == [] {
      assert a + b == a;
    } else {
      var b' := b[..|b| - 1];
      assert (a + b)[..|a + b| - 1] == a + b';
      assert (a + b)[|a + b| - 1] == b[|b| - 1];
      ObserveAppend(a, b');
      AppendAssoc(Observe(a), Observe(b'), EventItems(b[|b| - 1]));
    }
  }

  /** The concatenation of the write chunks of a trace. */
  function Written<A>(trace: seq<Event<A>>): seq<byte>
  {
    if trace == [] then []
    else Written(trace[..|trace| - 1]) + (if trace[|trace| - 1].Write? then trace[|trace| - 1].chunk else [])
  }

  /** Every event is a write of a non-empty chunk. */
  ghost predicate Chunks<A>(trace: seq<Event<A>>)
  {
    trace == [] || (Chunks(trace[..|trace| - 1]) && trace[|trace| - 1].Write? && |trace[|trace| - 1].chunk| > 0)
  }

  lemma {:induction false} ChunksPush<A>(t: seq<Event<A>>, chunk: seq<byte>)
    requires Chunks(t) && |chunk| > 0
    ensures Chunks(t + [Write(chunk)])
  {
    assert (t + [Write(chunk)])[..|t|] == t;
  }

  lemma {:induction false} ChunksAppend<A>(a: seq<Event<A>>, b: seq<Event<A>>)
    requires Chunks(a) && Chunks(b)
    ensures Chunks(a + b)
    decreases |b|
  {
    if b == [] {
      assert a + b == a;
    } else {
      ChunksAppend(a, b[..|b| - 1]);
      assert (a + b)[..|a + b| - 1] == a + b[..|b| - 1];
    }
  }

  /** For a trace of writes only, what is observed is exactly what was written. */
  lemma {:induction false} ObserveChunks<A>(trace: seq<Event<A>>)
    requires Chunks(trace)
    ensures Observe(trace) == Chars(Written(trace))
  {
    if trace != [] {
      ObserveChunks(trace[..|trace| - 1]);
      CharsAppend<A>(Written(trace[..|trace| - 1]), trace[|trace| - 1].chunk);
    }
  }

  /** `trace` is `before` followed by new events only. */
  ghost predicate Extends<A>(before: seq<Event<A>>, trace: seq<Event<A>>)
  {
    |before| <= |trace| && trace[..|before|] == before
  }

  /** No call in `t` failed, and none wrote an empty chunk. */
  ghost predicate Clean<A>(t: seq<Event<A>>)
  {
    t == [] || (Clean(t[..|t| - 1]) && !t[|t| - 1].Fail? && t[|t| - 1] != Write([]))
  }

  lemma {:induction false} CleanAppend<A>(a: seq<Event<A>>, b: seq<Event<A>>)
    requires Clean(a) && Clean(b)
    ensures Clean(a + b)
    decreases |b|
  {
    if b == [] {
      assert a + b == a;
    } else {
      CleanAppend(a, b[..|b| - 1]);
      assert (a + b)[..|a + b| - 1] == a + b[..|b| - 1];
    }
  }

  /** The last call in `t` failed and none before it did: the first error
      ended the calls. */
  ghost predicate Aborted<A>(t: seq<Event<A>>)
  {
    t != [] && t[|t| - 1].Fail? && Clean(t[..|t| - 1])
  }

  /** Writes of non-empty chunks, ended by a failed call. */
  ghost predicate Failed<A>(t: seq<Event<A>>)
  {
    t != [] && t[|t| - 1].Fail? && Chunks(t[..|t| - 1])
  }

  /** How the sink calls that took the trace from `before` to `after` ended,
      as `try!` propagates errors: a success made no failing call and no
      empty write; an error is reported by the last call made, after no
      earlier failure or empty write. */
  ghost predicate Outcome<A, E>(r: Result<(), E>, before: seq<Event<A>>, after: seq<Event<A>>)
  {
    && Extends(before, after)
    && (r.Ok? ==> Clean(after[|before|..]))
    && (r.Err? ==> Aborted(after[|before|..]))
  }

  lemma {:induction false} ChunksClean<A>(t: seq<Event<A>>)
    requires Chunks(t)
    ensures Clean(t)
    decreases |t|
  {
    if t != [] {
      ChunksClean(t[..|t| - 1]);
    }
  }

  /** Calls that only wrote, or wrote and then failed once, end as `try!`
      would have them end. */
  lemma {:induction false} WritesOutcome<A, E>(r: Result<(), E>, before: seq<Event<A>>, after: seq<Event<A>>)
    requires Extends(before, after)
    requires r.Ok? ==> Chunks(after[|before|..])
    requires r.Err? ==> Failed(after[|before|..])
    ensures Outcome(r, before, after)
  {
    var added := after[|before|..];
    if r.Ok? {
      ChunksClean(added);
    } else {
      ChunksClean(added[..|added| - 1]);
    }
  }

  /** No call at all. */
  lemma {:induction false} OutcomeNone<A, E>(t: seq<Event<A>>)
    ensures Outcome<A, E>(Ok(()), t, t)
  {
    assert t[|t|..] == [];
  }

  /** One call that either did `e` or failed. */
  lemma {:induction false} OutcomeOne<A, E>(r: Result<(), E>, before: seq<Event<A>>, e: Event<A>)
    requires !e.Fail? && e != Write([])
    ensures Outcome(r, before, before + [if r.Ok? then e else Fail])
  {
    var after := before + [if r.Ok? then e else Fail];
    assert after[..|before|] == before;
    assert after[|before|..] == [if r.Ok? then e else Fail];
    assert [if r.Ok? then e else Fail][..0] == [];
  }

  /** A successful run of calls, then another run: the second decides how
      the whole ended. */
  lemma {:induction false} OutcomeThen<A, E>(r: Result<(), E>, t0: seq<Event<A>>, t1: seq<Event<A>>, t2: seq<Event<A>>)
    requires Outcome<A, E>(Ok(()), t0, t1) && Outcome(r, t1, t2)
    ensures Outcome(r, t0, t2)
  {
    assert t2[..|t0|] == t2[..|t1|][..|t0|];
    var a, b := t1[|t0|..], t2[|t1|..];
    assert t2[|t0|..] == a + b;
    if r.Ok? {
      CleanAppend(a, b);
    } else {
      var b' := b[..|b| - 1];
      assert (a + b)[..|a + b| - 1] == a + b';
      CleanAppend(a, b');
    }
  }

  /** Appending a failed call to calls that extend `before`. */
  lemma {:induction false} FailAfter<A>(before: seq<Event<A>>, mid: seq<Event<A>>, after: seq<Event<A>>)
    requires Extends(before, mid) && after == mid + [Fail]
    ensures Extends(before, after)
    ensures after[|before|..] == mid[|before|..] + [Fail] && after[|before|..|after| - 1] == mid[|before|..]
    ensures Observe(after) == Observe(mid)
    ensures Written(after[|before|..]) == Written(mid[|before|..])
    ensures Chunks(mid[|before|..]) ==> Failed(after[|before|..])
  {
    var added := mid[|before|..];
    assert after[..|before|] == before;
    assert after[|before|..] == added + [Fail];
    assert (added + [Fail])[..|added|] == added;
    assert after[..|mid|] == mid;
  }

  /** The calls up to the failed last one. */
  lemma {:induction false} Peel<A>(before: seq<Event<A>>, after: seq<Event<A>>)
    requires Extends(before, after) && |before| < |after| && after[|after| - 1].Fail?
    ensures Extends(before, after[..|after| - 1])
    ensures after == after[..|after| - 1] + [Fail]
    ensures after[..|after| - 1][|before|..] == after[|before|..|after| - 1]
  {
    assert after[..|after| - 1][..|before|] == after[..|before|];
  }

  /** A sink whose `write_str` may fail, and otherwise consumes between one
      byte and all of its (non-empty) argument; `push_annotation` and
      `pop_annotation` may fail too. The device is arbitrary: each call picks
      its outcome freely. A failing device reports `fault`. */
  class Sink<A, E> {
    var trace: seq<Event<A>>
    const fault: E

    constructor (fault: E)
      ensures trace == [] && this.fault == fault
    {
      trace := [];
      this.fault := fault;
    }

    /** `Render::write_str` (src/doc.rs:46). */
    method WriteStr(s: seq<byte>) returns (r: Result<nat, E>)
      modifies this
      ensures r.Ok? ==> r.value <= |s| && (|s| > 0 ==> 1 <= r.value)
      ensures r.Ok? ==> trace == old(trace) + [Write(s[..r.value])]
      ensures r.Err? ==> r.error == fault && trace == old(trace) + [Fail]
    {
      var fails: bool := *;
      if fails {
        trace := trace + [Fail];
        r := Err(fault);
      } else {
        var count: nat :| count <= |s| && (|s| > 0 ==> 1 <= count);
        trace := trace + [Write(s[..count])];
        r := Ok(count);
      }
    }

    /** `Render::write_str_all`'s default loop: write the rest of `s` until
        nothing is left (src/doc.rs:48-54). On success the new chunks are
        non-empty and join to exactly `s`; on failure the failing call is the
        last one, after chunks that join to a prefix of `s`. */
    method WriteStrAll(s: seq<byte>) returns (r: Result<(), E>)
      modifies this
      ensures Extends(old(trace), trace) && Outcome(r, old(trace), trace)
      ensures r.Ok? ==> Chunks(trace[|old(trace)|..]) && Written(trace[|old(trace)|..]) == s
      ensures r.Err? ==> r.error == fault && Failed(trace[|old(trace)|..]) && Written(trace[|old(trace)|..]) <= s
      ensures r.Ok? ==> Observe(trace) == Observe(old(trace)) + Chars(s)
      ensures r.Err? ==> Observe(old(trace)) <= Observe(trace) <= Observe(old(trace)) + Chars(s)
    {
      var rest := s;
      ghost var added: seq<Event<A>> := [];
      while rest != []
        invariant trace == old(trace) + added && Chunks(added)
        invariant Written(added) + rest == s
        decreases |rest|
      {
        var w := WriteStr(rest);
        if w.Err? {
          r := Err(w.error);
          JoinPrefix(Written(added), rest, s);
          ghost var mid := old(trace) + added;
          SettlePrefix(old(trace), added, mid, s);
          FailAfter(old(trace), mid, trace);
          WritesOutcome(r, old(trace), trace);
          return;
        }
        AppendAssoc(old(trace), added, [Write(rest[..w.value])]);
        ChunksPush(added, rest[..w.value]);
        WrittenPush(added, rest[..w.value]);
        Split(Written(added), rest, w.value);
        added := added + [Write(rest[..w.value])];
        rest := rest[w.value..];
      }
      r := Ok(());
      Settle(old(trace), added, trace);
      WritesOutcome(r, old(trace), trace);
    }

    /** `RenderAnnotated::push_annotation` (src/doc.rs:95). */
    method PushAnnotation(a: A) returns (r: Result<(), E>)
      modifies this
      ensures r.Ok? ==> trace == old(trace) + [Push(a)]
      ensures r.Err? ==> r.error == fault && trace == old(trace) + [Fail]
      ensures Outcome(r, old(trace), trace)
    {
      var fails: bool := *;
      if fails {
        trace := trace + [Fail];
        r := Err(fault);
      } else {
        trace := trace + [Push(a)];
        r := Ok(());
      }
      OutcomeOne(r, old(trace), Push(a));
    }

    /** `RenderAnnotated::pop_annotation` (src/doc.rs:96). */
    method PopAnnotation() returns (r: Result<(), E>)
      modifies this
      ensures r.Ok? ==> trace == old(trace) + [Pop]
      ensures r.Err? ==> r.error == fault && trace == old(trace) + [Fail]
      ensures Outcome(r, old(trace), trace)
    {
      var fails: bool := *;
      if fails {
        trace := trace + [Fail];
        r := Err(fault);
      } else {
        trace := trace + [Pop];
        r := Ok(());
      }
      OutcomeOne(r, old(trace), Pop);
    }
  }

  /** The width of the literal run of blanks `write_spaces` slices from. */
  const SpaceRun: nat := 100

  /** Every event writes a non-empty chunk of at most `SpaceRun` bytes. */
  ghost predicate SpaceChunks<A>(trace: seq<Event<A>>)
  {
    trace == [] ||
      (&& SpaceChunks(trace[..|trace| - 1])
       && var e := trace[|trace| - 1];
          e.Write? && 0 < |e.chunk| <= SpaceRun)
  }

  lemma {:induction false} SpaceChunksPush<A>(t: seq<Event<A>>, chunk: seq<byte>)
    requires SpaceChunks(t) && 0 < |chunk| <= SpaceRun
    ensures SpaceChunks(t + [Write(chunk)])
  {
    assert (t + [Write(chunk)])[..|t|] == t;
  }

  lemma {:induction false} SpaceChunksAreChunks<A>(t: seq<Event<A>>)
    requires SpaceChunks(t)
    ensures Chunks(t)
  {
    if t != [] {
      SpaceChunksAreChunks(t[..|t| - 1]);
    }
  }
  /** Writes of blanks only, ended by a failed call. */
  ghost predicate FailedBlanks<A>(t: seq<Event<A>>)
  {
    t != [] && t[|t| - 1].Fail? && SpaceChunks(t[..|t| - 1])
  }

  lemma FailedBlanksFailed<A>(t: seq<Event<A>>)
    requires FailedBlanks(t)
    ensures Failed(t)
  {
    SpaceChunksAreChunks(t[..|t| - 1]);
  }


  /** `write_spaces`: ask for at most 100 blanks at a time with `write_str`,
      adding up however many each call took (src/doc.rs:260-279). */
  method WriteSpaces<A, E>(spaces: nat, out: Sink<A, E>) returns (r: Result<(), E>)
    modifies out
    ensures Extends(old(out.trace), out.trace) && Outcome(r, old(out.trace), out.trace)
    ensures r.Ok? ==> SpaceChunks(out.trace[|old(out.trace)|..]) && Written(out.trace[|old(out.trace)|..]) == Spaces(spaces)
    ensures r.Err? ==> && r.error == out.fault && FailedBlanks(out.trace[|old(out.trace)|..])
                       && Written(out.trace[|old(out.trace)|..]) <= Spaces(spaces)
    ensures r.Ok? ==> Observe(out.trace) == Observe(old(out.trace)) + Chars(Spaces(spaces))
    ensures r.Err? ==> Observe(old(out.trace)) <= Observe(out.trace) <= Observe(old(out.trace)) + Chars(Spaces(spaces))
  {
    ghost var added; var inserted;
    r, added, inserted := BlankRuns(spaces, out);
    SpacesEnd(r, old(out.trace), added, out.trace, inserted, spaces);
  }

  /** The loop of `write_spaces`, with the runs it wrote. */
  method BlankRuns<A, E>(spaces: nat, out: Sink<A, E>) returns (r: Result<(), E>, ghost added: seq<Event<A>>, inserted: nat)
    modifies out
    ensures SpaceChunks(added) && Written(added) == Spaces(inserted) && inserted <= spaces
    ensures r.Ok? ==> out.trace == old(out.trace) + added && inserted == spaces
    ensures r.Err? ==> out.trace == old(out.trace) + added + [Fail] && r.error == out.fault
  {
    inserted := 0;
    added := [];
    r := Ok(());
    while inserted < spaces
      invariant inserted <= spaces && r == Ok(())
      invariant out.trace == old(out.trace) + added && SpaceChunks(added)
      invariant Written(added) == Spaces(inserted)
      decreases spaces - inserted
    {
      var insert := if SpaceRun < spaces - inserted then SpaceRun else spaces - inserted;
      var w := WriteRun(insert, out);
      if w.Err? {
        r := Err(w.error);
        return;
      }
      SpacesWritten(old(out.trace), added, inserted, w.value);
      added := added + [Write(Spaces(w.value))];
      inserted := inserted + w.value;
    }
  }

  /** Where `write_spaces` stops: all `spaces` blanks written, or a failed
      call after `inserted` of them. */
  lemma {:induction false} SpacesEnd<A, E>(r: Result<(), E>, before: seq<Event<A>>, added: seq<Event<A>>,
                                           after: seq<Event<A>>, inserted: nat, spaces: nat)
    requires SpaceChunks(added) && Written(added) == Spaces(inserted) && inserted <= spaces
    requires r.Ok? ==> after == before + added && inserted == spaces
    requires r.Err? ==> after == before + added + [Fail]
    ensures Extends(before, after) && Outcome(r, before, after)
    ensures r.Ok? ==> SpaceChunks(after[|before|..]) && Written(after[|before|..]) == Spaces(spaces)
    ensures r.Err? ==> FailedBlanks(after[|before|..]) && Written(after[|before|..]) <= Spaces(spaces)
    ensures r.Ok? ==> Observe(after) == Observe(before) + Chars(Spaces(spaces))
    ensures r.Err? ==> Observe(before) <= Observe(after) <= Observe(before) + Chars(Spaces(spaces))
  {
    var mid := before + added;
    SpacesSettle(before, added, mid, inserted, spaces);
    SpaceChunksAreChunks(mid[|before|..]);
    if r.Ok? {
      WritesOutcome(r, before, after);
    } else {
      FailAfter(before, mid, after);
      WritesOutcome(r, before, after);
      assert after[|before|..][..|added|] == mid[|before|..];
    }
  }

  /** What `write_spaces` has done once it stops after `inserted` of
      `spaces` blanks, moved onto the new trace. */
  lemma {:induction false} SpacesSettle<A>(before: seq<Event<A>>, added: seq<Event<A>>, after: seq<Event<A>>, inserted: nat, spaces: nat)
    requires after == before + added && SpaceChunks(added) && Written(added) == Spaces(inserted) && inserted <= spaces
    ensures Extends(before, after) && SpaceChunks(after[|before|..])
    ensures Written(after[|before|..]) <= Spaces(spaces)
    ensures inserted == spaces ==> Written(after[|before|..]) == Spaces(spaces)
    ensures inserted == spaces ==> Observe(after) == Observe(before) + Chars(Spaces(spaces))
    ensures Observe(before) <= Observe(after) <= Observe(before) + Chars(Spaces(spaces))
  {
    SpaceChunksAreChunks(added);
    SpacesPrefix(inserted, spaces);
    SettlePrefix(before, added, after, Spaces(spaces));
    Settle(before, added, after);
  }

  /** Appending a run of `n` blanks to what the loop has written so far. */
  lemma {:induction false} SpacesWritten<A>(before: seq<Event<A>>, added: seq<Event<A>>, inserted: nat, n: nat)
    requires SpaceChunks(added) && Written(added) == Spaces(inserted) && 0 < n <= SpaceRun
    ensures (before + added) + [Write(Spaces(n))] == before + (added + [Write(Spaces(n))])
    ensures SpaceChunks(added + [Write(Spaces(n))])
    ensures Written(added + [Write(Spaces(n))]) == Spaces(inserted + n)
  {
    AppendAssoc(before, added, [Write(Spaces(n))]);
    SpaceChunksPush(added, Spaces(n));
    WrittenPush(added, Spaces(n));
    SpacesAdd(inserted, n);
  }

  /** One `write_str` of the first `k` blanks of the literal run: the sink
      takes between one and `k` of them. */
  method WriteRun<A, E>(k: nat, out: Sink<A, E>) returns (w: Result<nat, E>)
    requires 0 < k <= SpaceRun
    modifies out
    ensures w.Ok? ==> 0 < w.value <= k && out.trace == old(out.trace) + [Write(Spaces(w.value))]
    ensures w.Err? ==> w.error == out.fault && out.trace == old(out.trace) + [Fail]
  {
    var run := Spaces(SpaceRun);
    w := out.WriteStr(run[..k]);
    if w.Ok? {
      SpacesTake(SpaceRun, k);
      SpacesTake(k, w.value);
    }
  }

  /** `write_newline`: a line feed, then `ind` blanks (src/doc.rs:252-258). */
  method WriteNewline<A, E>(ind: nat, out: Sink<A, E>) returns (r: Result<(), E>)
    modifies out
    ensures Extends(old(out.trace), out.trace) && Outcome(r, old(out.trace), out.trace)
    ensures r.Ok? ==> Chunks(out.trace[|old(out.trace)|..]) && Written(out.trace[|old(out.trace)|..]) == [NewlineByte] + Spaces(ind)
    ensures r.Err? ==> && r.error == out.fault && Failed(out.trace[|old(out.trace)|..])
                       && Written(out.trace[|old(out.trace)|..]) <= [NewlineByte] + Spaces(ind)
    ensures r.Ok? ==> Observe(out.trace) == Observe(old(out.trace)) + Chars([NewlineByte] + Spaces(ind))
    ensures r.Err? ==> Observe(old(out.trace)) <= Observe(out.trace) <= Observe(old(out.trace)) + Chars([NewlineByte] + Spaces(ind))
  {
    r := out.WriteStrAll([NewlineByte]);
    if r.Err? {
      FailedPrefix(old(out.trace), out.trace, [NewlineByte], Spaces(ind));
      return;
    }
    ghost var mid := out.trace;
    r := WriteSpaces(ind, out);
    NewlineEnd(r, out.fault, old(out.trace), mid, out.trace, ind);
  }

  /** The line feed was written; the blanks after it were written, or the
      sink failed partway through them. */
  lemma {:induction false} NewlineEnd<A, E>(r: Result<(), E>, fault: E, before: seq<Event<A>>, mid: seq<Event<A>>,
                                            after: seq<Event<A>>, ind: nat)
    requires Extends(before, mid) && Chunks(mid[|before|..]) && Written(mid[|before|..]) == [NewlineByte]
    requires Extends(mid, after)
    requires r.Ok? ==> SpaceChunks(after[|mid|..]) && Written(after[|mid|..]) == Spaces(ind)
    requires r.Err? ==> && r.error == fault && FailedBlanks(after[|mid|..])
                        && Written(after[|mid|..]) <= Spaces(ind)
    ensures Extends(before, after) && Outcome(r, before, after)
    ensures r.Ok? ==> Chunks(after[|before|..]) && Written(after[|before|..]) == [NewlineByte] + Spaces(ind)
    ensures r.Err? ==> && r.error == fault && Failed(after[|before|..])
                       && Written(after[|before|..]) <= [NewlineByte] + Spaces(ind)
    ensures r.Ok? ==> Observe(after) == Observe(before) + Chars([NewlineByte] + Spaces(ind))
    ensures r.Err? ==> Observe(before) <= Observe(after) <= Observe(before) + Chars([NewlineByte] + Spaces(ind))
  {
    if r.Ok? {
      SpaceChunksAreChunks(after[|mid|..]);
      JoinWrites(before, mid, after, [NewlineByte], Spaces(ind), true);
    } else {
      FailedBlanksFailed(after[|mid|..]);
      JoinFailed(before, mid, after, [NewlineByte], Spaces(ind));
    }
    WritesOutcome(r, before, after);
  }

  /** A failure in the first of two writes leaves a prefix of both, ended by
      the failed call. */
  lemma {:induction false} FailedPrefix<A>(before: seq<Event<A>>, after: seq<Event<A>>, p: seq<byte>, q: seq<byte>)
    requires Extends(before, after) && Failed(after[|before|..]) && Written(after[|before|..]) <= p
    ensures Failed(after[|before|..]) && Written(after[|before|..]) <= p + q
    ensures Observe(before) <= Observe(after) <= Observe(before) + Chars(p + q)
  {
    var pre := after[..|after| - 1];
    Peel(before, after);
    FailAfter(before, pre, after);
    PrefixWrites(before, pre, p, q);
  }

  /** The second of two writes failed: all of `first`, then a prefix of
      `second`, then the failed call. */
  lemma {:induction false} JoinFailed<A>(before: seq<Event<A>>, mid: seq<Event<A>>, after: seq<Event<A>>, first: seq<byte>, second: seq<byte>)
    requires Extends(before, mid) && Chunks(mid[|before|..]) && Written(mid[|before|..]) == first
    requires Extends(mid, after) && Failed(after[|mid|..])
    requires Written(after[|mid|..]) <= second
    ensures Extends(before, after) && Failed(after[|before|..])
    ensures Written(after[|before|..]) <= first + second
    ensures Observe(before) <= Observe(after) <= Observe(before) + Chars(first + second)
  {
    var pre := after[..|after| - 1];
    Peel(mid, after);
    assert after[|mid|..][..|after| - |mid| - 1] == after[|mid|..|after| - 1];
    FailAfter(mid, pre, after);
    JoinWrites(before, mid, pre, first, second, false);
    FailAfter(before, pre, after);
  }

  /** A failure in the first of two writes leaves a prefix of both. */
  lemma {:induction false} PrefixWrites<A>(before: seq<Event<A>>, after: seq<Event<A>>, p: seq<byte>, q: seq<byte>)
    requires Extends(before, after) && Chunks(after[|before|..]) && Written(after[|before|..]) <= p
    ensures Written(after[|before|..]) <= p + q
    ensures Observe(before) <= Observe(after) <= Observe(before) + Chars(p + q)
  {
    var added := after[|before|..];
    assert after == before + added;
    JoinPrefix(p, q, p + q);
    SettlePrefix(before, added, after, p + q);
  }

  /** Two writes in a row: the first wrote all of `first`, the second all of
      `second` (`ok`) or a prefix of it. */
  lemma {:induction false} JoinWrites<A>(before: seq<Event<A>>, mid: seq<Event<A>>, after: seq<Event<A>>, first: seq<byte>, second: seq<byte>, ok: bool)
    requires Extends(before, mid) && Chunks(mid[|before|..]) && Written(mid[|before|..]) == first
    requires Extends(mid, after) && Chunks(after[|mid|..])
    requires ok ==> Written(after[|mid|..]) == second
    requires !ok ==> Written(after[|mid|..]) <= second
    ensures Extends(before, after) && Chunks(after[|before|..])
    ensures ok ==> Written(after[|before|..]) == first + second
    ensures ok ==> Observe(after) == Observe(before) + Chars(first + second)
    ensures !ok ==> Written(after[|before|..]) <= first + second
    ensures !ok ==> Observe(before) <= Observe(after) <= Observe(before) + Chars(first + second)
  {
    WrittenSplit(before, mid, after);
    ChunksAppend(mid[|before|..], after[|mid|..]);
    var added := after[|before|..];
    assert after == before + added;
    if ok {
      Settle(before, added, after);
    } else {
      PrefixPrepend(first, Written(after[|mid|..]), second);
      SettlePrefix(before, added, after, first + second);
    }
  }

  lemma {:induction false} PrefixPrepend<T>(first: seq<T>, part: seq<T>, whole: seq<T>)
    requires part <= whole
    ensures first + part <= first + whole
  {
    assert (first + whole)[..|first + part|] == first + part;
  }

  lemma {:induction false} WrittenSplit<A>(t0: seq<Event<A>>, t1: seq<Event<A>>, t2: seq<Event<A>>)
    requires Extends(t0, t1) && Extends(t1, t2)
    ensures Extends(t0, t2)
    ensures t2[|t0|..] == t1[|t0|..] + t2[|t1|..]
    ensures Written(t2[|t0|..]) == Written(t1[|t0|..]) + Written(t2[|t1|..])
  {
    assert t2[|t0|..] == t1[|t0|..] + t2[|t1|..];
    WrittenAppend(t1[|t0|..], t2[|t1|..]);
  }

  lemma {:induction false} WrittenPush<A>(t: seq<Event<A>>, chunk: seq<byte>)
    ensures Written(t + [Write(chunk)]) == Written(t) + chunk
  {
    assert (t + [Write(chunk)])[..|t|] == t;
  }

  /** Cutting the rest of a string after `k` bytes. */
  lemma {:induction false} Split<T>(done: seq<T>, rest: seq<T>, k: nat)
    requires k <= |rest|
    ensures (done + rest[..k]) + rest[k..] == done + rest
  {
    assert rest[..k] + rest[k..] == rest;
  }

  lemma {:induction false} WrittenAppend<A>(a: seq<Event<A>>, b: seq<Event<A>>)
    ensures Written(a + b) == Written(a) + Written(b)
    decreases |b|
  {
    if b == [] {
      assert a + b == a;
    } else {
      var b' := b[..|b| - 1];
      assert (a + b)[..|a + b| - 1] == a + b';
      assert (a + b)[|a + b| - 1] == b[|b| - 1];
      WrittenAppend(a, b');
    }
  }

  /** The facts a sink method states about the events `added` to `before`,
      moved onto the new trace. */
  lemma {:induction false} Settle<A>(before: seq<Event<A>>, added: seq<Event<A>>, after: seq<Event<A>>)
    requires after == before + added && Chunks(added)
    ensures Extends(before, after) && after[|before|..] == added
    ensures Observe(after) == Observe(before) + Chars(Written(added))
  {
    assert after[|before|..] == added;
    ObserveAppend(before, added);
    ObserveChunks(added);
  }

  /** The same after a failure: what was written is a prefix of `full`. */
  lemma {:induction false} SettlePrefix<A>(before: seq<Event<A>>, added: seq<Event<A>>, after: seq<Event<A>>, full: seq<byte>)
    requires after == before + added && Chunks(added) && Written(added) <= full
    ensures Extends(before, after) && after[|before|..] == added
    ensures Observe(before) <= Observe(after) <= Observe(before) + Chars(full)
  {
    Settle(before, added, after);
    CharsPrefix<A>(Written(added), full);
  }

  lemma {:induction false} JoinPrefix<T>(p: seq<T>, rest: seq<T>, s: seq<T>)
    requires p + rest == s
    ensures p <= s
  {
    assert s[..|p|] == p;
  }

  lemma {:induction false} CharsPrefix<A>(p: seq<byte>, s: seq<byte>)
    requires p <= s
    ensures Chars<A>(p) <= Chars<A>(s)
  {
    assert s == p + s[|p|..];
    CharsAppend<A>(p, s[|p|..]);
  }
}
