/** The scope primitive: a `for` loop whose initialiser runs the enter calls,
    whose body is the caller's block, and whose increment runs the exit calls.
    Every binding macro is one instance of it. */
module Scope {
  import opened GlContext
  import opened GlDriver

  /** What one scope does around its block: the calls made on entry and the
      calls made on exit. A restoring macro computes its exit calls from the
      values it read on entry. */
  datatype Frame = Frame(enter: seq<Call>, exit: seq<Call>)

  /** The caller's block, as its effect on the context. */
  type Body = Ctx -> Ctx

  /** The context the block starts from. */
  function Entered(f: Frame, c: Ctx): Ctx {
    ExecAll(c, f.enter)
  }

  /** One scope around a block that completes normally: enter, the block,
      exit. */
  function Run(f: Frame, body: Body, c: Ctx): Ctx {
    ExecAll(body(Entered(f, c)), f.exit)
  }

  /** A slot no enter call writes reaches the block unchanged, and a slot no
      exit call writes keeps the value the block left. */
  lemma RunKeeps(f: Frame, body: Body, c: Ctx, t: Slot)
    ensures Untouched(f.enter, t) ==> Get(Entered(f, c), t) == Get(c, t)
    ensures Untouched(f.exit, t) ==> Get(Run(f, body, c), t) == Get(body(Entered(f, c)), t)
  {
    if Untouched(f.enter, t) {
      ExecAllKeeps(c, f.enter, t);
    }
    if Untouched(f.exit, t) {
      ExecAllKeeps(body(Entered(f, c)), f.exit, t);
    }
  }

  /** Whatever context the exit calls start from, they leave slot `s` at `v`. */
  ghost predicate ExitLeaves(f: Frame, s: Slot, v: Value) {
    forall x: Ctx :: Get(ExecAll(x, f.exit), s) == v
  }

  /** Neither the enter nor the exit calls write a slot outside `fp`. */
  ghost predicate Confined(f: Frame, fp: iset<Slot>) {
    forall t :: t !in fp ==> Untouched(f.enter, t) && Untouched(f.exit, t)
  }

  /** The exit calls undo the enter calls in reverse order: the i-th exit
      call writes the same slots as the i-th enter call from the end. */
  ghost predicate Mirrors(f: Frame) {
    && |f.enter| == |f.exit|
    && forall i :: 0 <= i < |f.exit| ==>
         CallFootprint(f.exit[i]) == CallFootprint(f.enter[|f.enter| - 1 - i])
  }

  /** `after` differs from `before` in slot `s` at most. */
  ghost predicate OnlyChanges(before: Ctx, after: Ctx, s: Slot) {
    forall t :: t != s ==> Get(after, t) == Get(before, t)
  }

  /** A scope of one enter call and one exit call that may write the same
      slots: the exit mirrors the entry, and nothing outside those slots is
      written. */
  lemma OneCallFrame(a: Call, b: Call)
    requires CallFootprint(a) == CallFootprint(b)
    ensures Mirrors(Frame([a], [b])) && Confined(Frame([a], [b]), CallFootprint(a))
    ensures forall x :: Entered(Frame([a], [b]), x) == Exec(x, a)
    ensures forall x :: ExecAll(x, [b]) == Exec(x, b)
  {
    forall x ensures ExecAll(x, [a]) == Exec(x, a) && ExecAll(x, [b]) == Exec(x, b) {
      ExecAllOne(x, a);
      ExecAllOne(x, b);
    }
  }

  /** A scope about one slot `s`: it writes no other slot, its exit mirrors
      its entry, whatever context it is entered from the block sees
      `entered` in `s`, and whatever context the block leaves `s` holds
      `left` after the exit. */
  ghost predicate Sets(f: Frame, s: Slot, entered: Value, left: Value) {
    && Confined(f, iset{s})
    && Mirrors(f)
    && (forall x :: Get(Entered(f, x), s) == entered)
    && ExitLeaves(f, s, left)
  }

  /** Two calls that both write exactly slot `s` make such a scope: the
      block sees what the enter call writes, and afterwards `s` holds what
      the exit call writes. */
  lemma SetterFrame(a: Call, b: Call, s: Slot)
    requires CallFootprint(a) == iset{s} && CallFootprint(b) == iset{s}
    ensures Sets(Frame([a], [b]), s, Written(a), Written(b))
  {
    OneCallFrame(a, b);
  }

  /** How the block was left. `continue` reaches the loop's increment like a
      fall-through; `break` and `return` leave the loop without it. */
  datatype Completion = FallThrough | Continue | Break | Return

  datatype Event = EnterRan | BodyRan | ExitRan

  /** The `for` loop of scope_begin_end_var and of the hand-written restoring
      macros: the counter starts at 0 with the enter calls, the guard is
      `counter == 0`, and the increment adds 1 and then runs the exit calls. */
  method ForScope(f: Frame, body: Ctx -> (Ctx, Completion), c0: Ctx) returns (c: Ctx, trace: seq<Event>)
    ensures body(Entered(f, c0)).1 in {Break, Return} ==>
              c == body(Entered(f, c0)).0 && trace == [EnterRan, BodyRan]
    ensures body(Entered(f, c0)).1 in {FallThrough, Continue} ==>
              c == ExecAll(body(Entered(f, c0)).0, f.exit) && trace == [EnterRan, BodyRan, ExitRan]
  {
    c := ExecAll(c0, f.enter);
    trace := [EnterRan];
    var counter := 0;
    while counter == 0
      invariant 0 <= counter <= 1
      invariant counter == 0 ==> c == Entered(f, c0) && trace == [EnterRan]
      invariant counter == 1 ==>
                  body(Entered(f, c0)).1 in {FallThrough, Continue}
                  && c == ExecAll(body(Entered(f, c0)).0, f.exit)
                  && trace == [EnterRan, BodyRan, ExitRan]
      decreases 1 - counter
    {
      var next := body(c);
      c := next.0;
      trace := trace + [BodyRan];
      if next.1 == Break {
        break;
      }
      if next.1 == Return {
        return;
      }
      counter := counter + 1;
      c := ExecAll(c, f.exit);
      trace := trace + [ExitRan];
    }
  }

  /** Running two call lists one after the other is running their
      concatenation. */
  lemma {:induction false} ExecAllAppend(c: Ctx, a: seq<Call>, b: seq<Call>)
    ensures ExecAll(c, a + b) == ExecAll(ExecAll(c, a), b)
    decreases |a|
  {
    if |a| == 0 {
      assert a + b == b;
    } else {
      assert (a + b)[0] == a[0];
      assert (a + b)[1..] == a[1..] + b;
      ExecAllAppend(Exec(c, a[0]), a[1..], b);
    }
  }

  /** Scopes opened one inside the other around `body`; `fs[0]` is outermost. */
  function Nest(fs: seq<Frame>, body: Body, c: Ctx): Ctx
    decreases |fs|
  {
    if |fs| == 0 then body(c)
    else Run(fs[0], x => Nest(fs[1..], body, x), c)
  }

  /** All enter calls of a nest, outermost scope first. */
  function Enters(fs: seq<Frame>): seq<Call>
    decreases |fs|
  {
    if |fs| == 0 then [] else fs[0].enter + Enters(fs[1..])
  }

  /** All exit calls of a nest, innermost scope first. */
  function Exits(fs: seq<Frame>): seq<Call>
    decreases |fs|
  {
    if |fs| == 0 then [] else Exits(fs[1..]) + fs[0].exit
  }

  /** Nested scopes run every enter call outermost-first, then the block,
      then every exit call innermost-first: exits mirror entries. */
  lemma {:induction false} NestIsLifo(fs: seq<Frame>, body: Body, c: Ctx)
    ensures Nest(fs, body, c) == ExecAll(body(ExecAll(c, Enters(fs))), Exits(fs))
    decreases |fs|
  {
    if |fs| > 0 {
      var c1 := ExecAll(c, fs[0].enter);
      NestIsLifo(fs[1..], body, c1);
      ExecAllAppend(c, fs[0].enter, Enters(fs[1..]));
      ExecAllAppend(body(ExecAll(c1, Enters(fs[1..]))), Exits(fs[1..]), fs[0].exit);
    }
  }

  /** The exits of a nest come innermost-first: for scopes `i` outside `j`,
      the exit calls of `j` all end before those of `i` begin. */
  lemma {:induction false} ExitsInReverse(fs: seq<Frame>, i: nat, j: nat)
    requires i < j < |fs|
    ensures ExitOffset(fs, j) + |fs[j].exit| <= ExitOffset(fs, i)
    decreases |fs|
  {
    assert fs[1..][j - 1] == fs[j];
    if i > 0 {
      assert fs[1..][i - 1] == fs[i];
      ExitsInReverse(fs[1..], i - 1, j - 1);
    }
  }

  /** Where the exit calls of scope `k` sit among the exits of a nest. */
  function ExitOffset(fs: seq<Frame>, k: nat): (p: nat)
    requires k < |fs|
    ensures p + |fs[k].exit| <= |Exits(fs)|
    ensures Exits(fs)[p..p + |fs[k].exit|] == fs[k].exit
    decreases |fs|
  {
    if k == 0 then |Exits(fs[1..])|
    else
      var p := ExitOffset(fs[1..], k - 1);
      assert fs[1..][k - 1] == fs[k];
      assert Exits(fs)[p..p + |fs[k].exit|] == Exits(fs[1..])[p..p + |fs[k].exit|];
      p
  }
}
