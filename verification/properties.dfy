/** What a user of the scope macros relies on, stated over an arbitrary body:
    restoring wins over whatever the body does, resetting always ends at the
    neutral value, a scope touches nothing but its own slots, nested scopes
    unwind innermost first, and a few worked cases. */
module ScopeProperties {
  import opened GlEnums
  import opened GlContext
  import opened GlDriver
  import opened Scope
  import opened TextureTargets
  import opened Bindings
  import opened Uniforms

  // ---------------------------------------------------------------------
  // One scope

  /** In the restoring build, a restorable scope leaves its slot at the value
      it held before the scope, whatever the body does, including writing
      the same slot itself. */
  lemma RestoreWins(op: Op, body: Body, c: Ctx, unwritten: int)
    requires Expands(Restore, op) && Restorable(op)
    ensures Get(Open(Restore, op, body, c, unwritten), SlotOf(op)) == Get(c, SlotOf(op))
  {
    FrameOfSpec(Restore, op, c, unwritten);
    var f := FrameOf(Restore, op, c, unwritten);
    assert Get(ExecAll(body(Entered(f, c)), f.exit), SlotOf(op)) == Get(c, SlotOf(op));
  }

  /** In the resetting build, every direct scope leaves its slot at the
      neutral value, whatever the slot held before and whatever the body
      does. */
  lemma ResetLeavesNeutral(op: Op, body: Body, c: Ctx, unwritten: int)
    requires Expands(Reset, op) && Direct(op)
    ensures Get(Open(Reset, op, body, c, unwritten), SlotOf(op)) == Neutral(op)
  {
    FrameOfSpec(Reset, op, c, unwritten);
    var f := FrameOf(Reset, op, c, unwritten);
    assert Get(ExecAll(body(Entered(f, c)), f.exit), SlotOf(op)) == Neutral(op);
  }

  /** The neutral value is the slot's zero (unbound, disabled, all-zero)
      for every direct scope except the disabling one, which re-enables. */
  lemma NeutralIsZeroExceptDisable(op: Op)
    requires Direct(op)
    ensures Neutral(op) == Zero(SlotOf(op)) <==> !op.Disable?
  {
  }

  /** A slot outside a scope's footprint is the same for the body as before
      the scope, and after the scope it is what the body left. */
  lemma OutsideFootprintUnchanged(mode: Mode, op: Op, body: Body, c: Ctx, t: Slot, unwritten: int)
    requires Expands(mode, op) && t !in Footprint(op)
    ensures Get(Entered(FrameOf(mode, op, c, unwritten), c), t) == Get(c, t)
    ensures Get(Open(mode, op, body, c, unwritten), t) == Get(body(Entered(FrameOf(mode, op, c, unwritten), c)), t)
  {
    FrameOfSpec(mode, op, c, unwritten);
    RunKeeps(FrameOf(mode, op, c, unwritten), body, c, t);
  }

  /** A restorable scope is exactly as wide as its one slot. */
  lemma RestorableFootprint(op: Op)
    requires Restorable(op)
    ensures Direct(op) && Footprint(op) == iset{SlotOf(op)}
  {
  }

  /** A block that changes nothing. */
  function EmptyBlock(c: Ctx): Ctx {
    c
  }

  /** A restoring scope around a block that changes nothing changes
      nothing: every slot reads as before. */
  lemma EmptyRestoreIsNoop(op: Op, c: Ctx, unwritten: int)
    requires Expands(Restore, op) && Restorable(op)
    ensures forall t :: Get(Open(Restore, op, EmptyBlock, c, unwritten), t) == Get(c, t)
  {
    RestorableFootprint(op);
    forall t ensures Get(Open(Restore, op, EmptyBlock, c, unwritten), t) == Get(c, t) {
      if t == SlotOf(op) {
        RestoreWins(op, EmptyBlock, c, unwritten);
      } else {
        OutsideFootprintUnchanged(Restore, op, EmptyBlock, c, t, unwritten);
      }
    }
  }

  // ---------------------------------------------------------------------
  // Nesting and sequencing

  /** Scopes opened one inside the other, `ops[0]` outermost, around `body`;
      each scope reads the context as it is when that scope is entered. */
  function OpenAll(mode: Mode, ops: seq<Op>, body: Body, c: Ctx, unwritten: int): Ctx
    requires forall i :: 0 <= i < |ops| ==> Expands(mode, ops[i])
    decreases |ops|
  {
    if |ops| == 0 then body(c)
    else Open(mode, ops[0], x => OpenAll(mode, ops[1..], body, x, unwritten), c, unwritten)
  }

  /** The frames of the scopes `OpenAll` opens, `ops[0]` outermost, each
      built from the context as it is when that scope is entered. */
  function FramesOf(mode: Mode, ops: seq<Op>, c: Ctx, unwritten: int): seq<Frame>
    requires forall i :: 0 <= i < |ops| ==> Expands(mode, ops[i])
    decreases |ops|
  {
    if |ops| == 0 then []
    else
      var f := FrameOf(mode, ops[0], c, unwritten);
      [f] + FramesOf(mode, ops[1..], Entered(f, c), unwritten)
  }

  /** Nested binding scopes are a nest of their frames, so they too run
      every enter call outermost first, then the block, then every exit
      call innermost first. */
  lemma {:induction false} OpenAllIsLifo(mode: Mode, ops: seq<Op>, body: Body, c: Ctx, unwritten: int)
    requires forall i :: 0 <= i < |ops| ==> Expands(mode, ops[i])
    ensures OpenAll(mode, ops, body, c, unwritten) == Nest(FramesOf(mode, ops, c, unwritten), body, c)
    ensures var fs := FramesOf(mode, ops, c, unwritten);
            OpenAll(mode, ops, body, c, unwritten) == ExecAll(body(ExecAll(c, Enters(fs))), Exits(fs))
    decreases |ops|
  {
    var fs := FramesOf(mode, ops, c, unwritten);
    if |ops| > 0 {
      var f := FrameOf(mode, ops[0], c, unwritten);
      var c1 := Entered(f, c);
      assert forall i :: 0 <= i < |ops[1..]| ==> ops[1..][i] == ops[i + 1];
      OpenAllIsLifo(mode, ops[1..], body, c1, unwritten);
      assert fs[0] == f && fs[1..] == FramesOf(mode, ops[1..], c1, unwritten);
      calc {
        OpenAll(mode, ops, body, c, unwritten);
        ExecAll(OpenAll(mode, ops[1..], body, c1, unwritten), f.exit);
        ExecAll(Nest(fs[1..], body, c1), f.exit);
        Nest(fs, body, c);
      }
    }
    NestIsLifo(fs, body, c);
  }

  /** In the restoring build, after any depth of nested restorable scopes,
      the slot of every one of them is back to its value before the
      outermost scope, whatever the body does. */
  lemma {:induction false} NestedRestore(ops: seq<Op>, body: Body, c: Ctx, k: nat, unwritten: int)
    requires forall i :: 0 <= i < |ops| ==> Expands(Restore, ops[i]) && Direct(ops[i]) && Restorable(ops[i])
    requires k < |ops|
    ensures Get(OpenAll(Restore, ops, body, c, unwritten), SlotOf(ops[k])) == Get(c, SlotOf(ops[k]))
    decreases |ops|
  {
    var s := SlotOf(ops[k]);
    if s == SlotOf(ops[0]) {
      var inner: Body := x => OpenAll(Restore, ops[1..], body, x, unwritten);
      assert OpenAll(Restore, ops, body, c, unwritten) == Open(Restore, ops[0], inner, c, unwritten);
      RestoreWins(ops[0], inner, c, unwritten);
    } else {
      var c1 := Entered(FrameOf(Restore, ops[0], c, unwritten), c);
      OuterKeepsOtherSlot(ops, body, c, s, unwritten);
      assert ops[1..][k - 1] == ops[k];
      NestedRestore(ops[1..], body, c1, k - 1, unwritten);
    }
  }

  /** The outermost of nested restorable scopes leaves a slot other than
      its own as the inner scopes leave it, and hands it to them unchanged. */
  lemma OuterKeepsOtherSlot(ops: seq<Op>, body: Body, c: Ctx, s: Slot, unwritten: int)
    requires forall i :: 0 <= i < |ops| ==> Expands(Restore, ops[i])
    requires 0 < |ops| && Restorable(ops[0]) && s != SlotOf(ops[0])
    ensures Get(Entered(FrameOf(Restore, ops[0], c, unwritten), c), s) == Get(c, s)
    ensures var c1 := Entered(FrameOf(Restore, ops[0], c, unwritten), c);
            Get(OpenAll(Restore, ops, body, c, unwritten), s) == Get(OpenAll(Restore, ops[1..], body, c1, unwritten), s)
  {
    var inner: Body := x => OpenAll(Restore, ops[1..], body, x, unwritten);
    assert OpenAll(Restore, ops, body, c, unwritten) == Open(Restore, ops[0], inner, c, unwritten);
    RestoreKeepsOtherSlot(ops[0], inner, c, s, unwritten);
  }

  /** A restorable scope leaves every other slot as the body left it, and
      shows the body every other slot as it was. */
  lemma RestoreKeepsOtherSlot(op: Op, body: Body, c: Ctx, s: Slot, unwritten: int)
    requires Expands(Restore, op) && Restorable(op) && s != SlotOf(op)
    ensures Get(Entered(FrameOf(Restore, op, c, unwritten), c), s) == Get(c, s)
    ensures Get(Open(Restore, op, body, c, unwritten), s) == Get(body(Entered(FrameOf(Restore, op, c, unwritten), c)), s)
  {
    RestorableFootprint(op);
    OutsideFootprintUnchanged(Restore, op, body, c, s, unwritten);
  }

  /** Two nested restoring scopes on different slots, at the moment the
      inner one exits: the inner slot is back to its value before both
      scopes, while the outer slot holds what the body left there, which is
      the outer scope's new value unless the body changed it. */
  lemma NestedDistinctSlots(outer: Op, inner: Op, body: Body, c: Ctx, unwritten: int)
    requires Expands(Restore, outer) && Restorable(outer)
    requires Expands(Restore, inner) && Restorable(inner)
    requires SlotOf(outer) != SlotOf(inner)
    ensures var c1 := Entered(FrameOf(Restore, outer, c, unwritten), c);
            var afterInner := Open(Restore, inner, body, c1, unwritten);
            && Get(c1, SlotOf(outer)) == NewValue(outer)
            && Get(Entered(FrameOf(Restore, inner, c1, unwritten), c1), SlotOf(outer)) == NewValue(outer)
            && Get(afterInner, SlotOf(inner)) == Get(c, SlotOf(inner))
            && Get(afterInner, SlotOf(outer))
               == Get(body(Entered(FrameOf(Restore, inner, c1, unwritten), c1)), SlotOf(outer))
  {
    var c1 := Entered(FrameOf(Restore, outer, c, unwritten), c);
    assert Get(c1, SlotOf(outer)) == NewValue(outer) by {
      FrameOfSpec(Restore, outer, c, unwritten);
    }
    assert Get(Open(Restore, inner, body, c1, unwritten), SlotOf(inner)) == Get(c, SlotOf(inner)) by {
      RestoreKeepsOtherSlot(outer, body, c, SlotOf(inner), unwritten);
      RestoreWins(inner, body, c1, unwritten);
    }
    RestoreKeepsOtherSlot(inner, body, c1, SlotOf(outer), unwritten);
  }

  /** Scopes opened one after the other (not nested), each around its own
      block. */
  function OpenInSequence(mode: Mode, ops: seq<Op>, bodies: seq<Body>, c: Ctx, unwritten: int): Ctx
    requires |bodies| == |ops|
    requires forall i :: 0 <= i < |ops| ==> Expands(mode, ops[i])
    decreases |ops|
  {
    if |ops| == 0 then c
    else OpenInSequence(mode, ops[1..], bodies[1..], Open(mode, ops[0], bodies[0], c, unwritten), unwritten)
  }

  /** Any number of restoring scopes on the same slot, one after the other,
      leave the slot at its value before the first one. */
  lemma {:induction false} SequentialRestore(ops: seq<Op>, bodies: seq<Body>, s: Slot, c: Ctx, unwritten: int)
    requires |bodies| == |ops|
    requires forall i :: 0 <= i < |ops| ==>
               Expands(Restore, ops[i]) && Direct(ops[i]) && Restorable(ops[i]) && SlotOf(ops[i]) == s
    ensures Get(OpenInSequence(Restore, ops, bodies, c, unwritten), s) == Get(c, s)
    decreases |ops|
  {
    if |ops| > 0 {
      var c1 := Open(Restore, ops[0], bodies[0], c, unwritten);
      RestoreWins(ops[0], bodies[0], c, unwritten);
      SequentialRestore(ops[1..], bodies[1..], s, c1, unwritten);
    }
  }

  // ---------------------------------------------------------------------
  // Scopes that do not restore

  /** The framebuffer-texture, renderbuffer and framebuffer-renderbuffer
      scopes are the same in both builds. */
  lemma AttachmentScopesIgnoreMode(op: Op, c: Ctx, unwritten: int)
    requires op.FramebufferTexture? || op.BindRenderbuffer? || op.FramebufferRenderbuffer?
    ensures FrameOf(Restore, op, c, unwritten) == FrameOf(Reset, op, c, unwritten)
  {
  }

  /** After a framebuffer-texture scope, in either build, the attachment of
      the framebuffer bound to the target when the block ends is empty,
      whatever was attached before the scope. */
  lemma FramebufferTextureDetaches(mode: Mode, target: int, att: int, textarget: int, tex: int,
                                   level: int, body: Body, c: Ctx, unwritten: int)
    ensures var f := FrameOf(mode, FramebufferTexture(target, att, textarget, tex, level), c, unwritten);
            var x := body(Entered(f, c));
            Get(Open(mode, FramebufferTexture(target, att, textarget, tex, level), body, c, unwritten),
                AttachmentOf(x, target, att)) == Attached(0, 0, 0)
  {
    FramebufferTextureEffect(target, att, textarget, tex, level);
    assert FrameOf(mode, FramebufferTexture(target, att, textarget, tex, level), c, unwritten)
           == FramebufferTextureScope(target, att, textarget, tex, level);
  }

  /** The same for the framebuffer-renderbuffer scope, which always
      addresses GL_FRAMEBUFFER and does not use its framebuffer argument. */
  lemma FramebufferRenderbufferDetaches(mode: Mode, fbo: int, att: int, rb: int, body: Body, c: Ctx, unwritten: int)
    ensures var f := FrameOf(mode, FramebufferRenderbuffer(fbo, att, rb), c, unwritten);
            var x := body(Entered(f, c));
            Get(Open(mode, FramebufferRenderbuffer(fbo, att, rb), body, c, unwritten),
                AttachmentOf(x, GL_FRAMEBUFFER, att)) == Attached(0, 0, 0)
    ensures forall other :: FrameOf(mode, FramebufferRenderbuffer(other, att, rb), c, unwritten)
                            == FrameOf(mode, FramebufferRenderbuffer(fbo, att, rb), c, unwritten)
  {
    FramebufferRenderbufferEffect(fbo, att, rb);
    assert FrameOf(mode, FramebufferRenderbuffer(fbo, att, rb), c, unwritten) == FramebufferRenderbufferScope(fbo, att, rb);
  }

  /** After a renderbuffer scope, in either build, no renderbuffer is bound
      to the target. */
  lemma RenderbufferUnbinds(mode: Mode, target: int, rb: int, body: Body, c: Ctx, unwritten: int)
    ensures Get(Open(mode, BindRenderbuffer(target, rb), body, c, unwritten), RenderbufferBinding(target)) == Name(0)
  {
    BindRenderbufferEffect(target, rb);
    assert FrameOf(mode, BindRenderbuffer(target, rb), c, unwritten) == BindRenderbufferScope(target, rb);
  }

  /** The restoring generic framebuffer scope passes the target, not its
      binding query, to glGetIntegerv. For every framebuffer target the query
      writes nothing, so after the scope the target holds whatever the
      uninitialised local held: the entry binding is lost, whatever it was
      and whatever the block does. */
  lemma RestoreFramebufferForgetsBinding(target: int, fbo: int, body: Body, c: Ctx, unwritten: int)
    requires target in {GL_FRAMEBUFFER, GL_DRAW_FRAMEBUFFER, GL_READ_FRAMEBUFFER}
    ensures Get(Open(Restore, BindFramebuffer(target, fbo), body, c, unwritten), FramebufferBinding(target))
            == Name(unwritten)
  {
    BindFramebufferScopes(target, fbo, c, unwritten);
    assert FrameOf(Restore, BindFramebuffer(target, fbo), c, unwritten)
           == RestoreBindFramebuffer(target, fbo, c, unwritten);
  }

  /** The restoring generic texture scope on a target the lookup does not
      know queries pname 0, which writes nothing; after the scope the target
      holds whatever the uninitialised local held, whatever was bound before. */
  lemma UnknownTextureTargetForgetsBinding(target: int, tex: int, body: Body, c: Ctx, unwritten: int)
    requires !IsTextureTarget(target)
    ensures Get(Open(Restore, BindTexture(target, tex), body, c, unwritten), TextureBinding(target))
            == Name(unwritten)
  {
    BindTextureScopes(target, tex, c, unwritten);
    assert FrameOf(Restore, BindTexture(target, tex), c, unwritten) == RestoreBindTexture(target, tex, c, unwritten);
  }

  /** The shader-storage scope binds the generic point and then the indexed
      point on entry, and unbinds them in the opposite order on exit. In the
      restoring build both points end at the generic point's old binding;
      in the resetting build both end at 0. */
  lemma SsboScope(mode: Mode, ssbo: int, binding: int, body: Body, c: Ctx, unwritten: int)
    ensures var f := FrameOf(mode, BindSSBO(ssbo, binding), c, unwritten);
            && |f.enter| == 2 && |f.exit| == 2
            && f.enter[0].glBindBuffer? && f.enter[1].glBindBufferBase?
            && f.exit[0].glBindBufferBase? && f.exit[1].glBindBuffer?
    ensures var r := Open(mode, BindSSBO(ssbo, binding), body, c, unwritten);
            var v := if mode == Restore then Get(c, BufferBinding(SSB)) else Name(0);
            Get(r, BufferBinding(SSB)) == v && Get(r, IndexedBufferBinding(SSB, binding)) == v
  {
    var back := if mode == Restore then IntAt(GetIntegerv(c, GL_SHADER_STORAGE_BUFFER_BINDING), 0) else 0;
    QueryReads(c, GL_SHADER_STORAGE_BUFFER_BINDING);
    SsboFrameEffect(ssbo, binding, back);
    var f := FrameOf(mode, BindSSBO(ssbo, binding), c, unwritten);
    assert f == SsboFrame(ssbo, binding, back);
    var x := body(Entered(f, c));
    assert Get(ExecAll(x, f.exit), BufferBinding(SSB)) == Name(back);
    assert Get(ExecAll(x, f.exit), IndexedBufferBinding(SSB, binding)) == Name(back);
  }

  /** The texture-parameter scope in the restoring build gives the old value
      back to the texture bound to GL_TEXTURE_2D when the block ends; that
      is the original texture only if the block leaves it bound. */
  lemma Tex2DParameterRestoresBoundTexture(param: int, val: int, body: Body, c: Ctx, unwritten: int)
    ensures var f := FrameOf(Restore, Tex2DParameter(param, val), c, unwritten);
            var x := body(Entered(f, c));
            Get(Open(Restore, Tex2DParameter(param, val), body, c, unwritten), TexParameterValue(Bound2D(x), param))
            == Get(c, TexParameterValue(Bound2D(c), param))
  {
    RestoreTex2DParameterEffect(param, val, c);
    var f := FrameOf(Restore, Tex2DParameter(param, val), c, unwritten);
    assert f == RestoreTex2DParameter(param, val, c);
    var x := body(Entered(f, c));
    assert Get(ExecAll(x, f.exit), TexParameterValue(Bound2D(x), param)) == Get(c, TexParameterValue(Bound2D(c), param));
  }

  // ---------------------------------------------------------------------
  // Uniform scopes

  /** `scope_glUniformfv(val, name) { body }` for a block that completes
      normally. */
  function UniformfvScope(val: Float, name: string, locate: Locator, body: Body, c: Ctx): Ctx {
    Run(UniformfvFrame(val, name, locate, c), body, c)
  }

  /** `scope_glUniformMatrix4fv(matrix, name) { body }`. */
  function UniformMatrix4fvScope(matrix: seq<Float>, name: string, locate: Locator, body: Body, c: Ctx): Ctx
    requires |matrix| == 16
  {
    Run(UniformMatrix4fvFrame(matrix, name, locate, c), body, c)
  }

  /** When the block leaves the entry program current and the uniform held
      one float, the uniform gets its old value back; if the block switched
      programs, the old value lands at the same location of the program
      current at exit. */
  lemma UniformfvRestores(val: Float, name: string, locate: Locator, body: Body, c: Ctx)
    ensures var f := UniformfvFrame(val, name, locate, c);
            var x := body(Entered(f, c));
            var loc := LocationIn(name, locate, c);
            var r := UniformfvScope(val, name, locate, body, c);
            && Get(r, UniformValue(NameOf(x, CurrentProgram), loc))
               == Floats([FloatAt(GetUniformfv(c, EnteredProgram(c), loc), 0)])
            && (HoldsFloats(c, EnteredProgram(c), loc, 1) && NameOf(x, CurrentProgram) == EnteredProgram(c) ==>
                  Get(r, UniformValue(EnteredProgram(c), loc)) == Get(c, UniformValue(EnteredProgram(c), loc)))
  {
    UniformfvEffect(val, name, locate, c);
  }

  /** The same for the matrix scope, for a uniform of sixteen floats. */
  lemma UniformMatrix4fvRestores(matrix: seq<Float>, name: string, locate: Locator, body: Body, c: Ctx)
    requires |matrix| == 16
    ensures var f := UniformMatrix4fvFrame(matrix, name, locate, c);
            var x := body(Entered(f, c));
            var loc := LocationIn(name, locate, c);
            var r := UniformMatrix4fvScope(matrix, name, locate, body, c);
            HoldsFloats(c, EnteredProgram(c), loc, 16) && NameOf(x, CurrentProgram) == EnteredProgram(c) ==>
              Get(r, UniformValue(EnteredProgram(c), loc)) == Get(c, UniformValue(EnteredProgram(c), loc))
  {
    UniformMatrix4fvEffect(matrix, name, locate, c);
  }

  // ---------------------------------------------------------------------
  // Worked cases

  /** No 2D texture is bound; a restoring texture scope binds 7; the block
      sees 7 and afterwards no texture is bound again. */
  lemma TextureScenario(body: Body, c: Ctx, unwritten: int)
    requires Get(c, TextureBinding(GL_TEXTURE_2D)) == Name(0)
    ensures Get(Entered(FrameOf(Restore, BindTexture2D(7), c, unwritten), c), TextureBinding(GL_TEXTURE_2D)) == Name(7)
    ensures Get(Open(Restore, BindTexture2D(7), body, c, unwritten), TextureBinding(GL_TEXTURE_2D)) == Name(0)
  {
    FrameOfSpec(Restore, BindTexture2D(7), c, unwritten);
    RestoreWins(BindTexture2D(7), body, c, unwritten);
  }

  /** Blending is off; an enabling scope turns it on for the block and it is
      off again afterwards, in either build. */
  lemma BlendScenario(mode: Mode, body: Body, c: Ctx, unwritten: int)
    requires Get(c, CapabilityFlag(GL_BLEND)) == Flag(false)
    ensures Get(Entered(FrameOf(mode, Enable(GL_BLEND), c, unwritten), c), CapabilityFlag(GL_BLEND)) == Flag(true)
    ensures Get(Open(mode, Enable(GL_BLEND), body, c, unwritten), CapabilityFlag(GL_BLEND)) == Flag(false)
  {
    FrameOfSpec(mode, Enable(GL_BLEND), c, unwritten);
    if mode == Restore {
      RestoreWins(Enable(GL_BLEND), body, c, unwritten);
    } else {
      ResetLeavesNeutral(Enable(GL_BLEND), body, c, unwritten);
    }
  }

  /** The viewport is (0, 0, 800, 600); a restoring viewport scope of
      (10, 10, 100, 100) leaves all four components as they were. */
  lemma ViewportScenario(body: Body, c: Ctx, unwritten: int)
    requires Get(c, ViewportRect) == Rect(0, 0, 800, 600)
    ensures Get(Entered(FrameOf(Restore, Viewport(10, 10, 100, 100), c, unwritten), c), ViewportRect) == Rect(10, 10, 100, 100)
    ensures Get(Open(Restore, Viewport(10, 10, 100, 100), body, c, unwritten), ViewportRect) == Rect(0, 0, 800, 600)
  {
    FrameOfSpec(Restore, Viewport(10, 10, 100, 100), c, unwritten);
    RestoreWins(Viewport(10, 10, 100, 100), body, c, unwritten);
  }

  /** Program 3 is current; in the resetting build a program scope of 9
      leaves program 0 current, not 3. */
  lemma ResetProgramScenario(body: Body, c: Ctx, unwritten: int)
    requires Get(c, CurrentProgram) == Name(3)
    ensures Get(Entered(FrameOf(Reset, UseProgram(9), c, unwritten), c), CurrentProgram) == Name(9)
    ensures Get(Open(Reset, UseProgram(9), body, c, unwritten), CurrentProgram) == Name(0)
  {
    FrameOfSpec(Reset, UseProgram(9), c, unwritten);
    ResetLeavesNeutral(UseProgram(9), body, c, unwritten);
  }

  /** An outer scope binds 2D texture 5, an inner scope binds 3D texture 6,
      around an empty block: when the inner scope exits the 3D binding is
      back and the 2D binding is still 5. */
  lemma NestedTextureScenario(c: Ctx, unwritten: int)
    ensures var outer := BindTexture(GL_TEXTURE_2D, 5);
            var inner := BindTexture(GL_TEXTURE_3D, 6);
            var c1 := Entered(FrameOf(Restore, outer, c, unwritten), c);
            var afterInner := Open(Restore, inner, EmptyBlock, c1, unwritten);
            && Get(afterInner, TextureBinding(GL_TEXTURE_3D)) == Get(c, TextureBinding(GL_TEXTURE_3D))
            && Get(afterInner, TextureBinding(GL_TEXTURE_2D)) == Name(5)
  {
    var outer := BindTexture(GL_TEXTURE_2D, 5);
    var inner := BindTexture(GL_TEXTURE_3D, 6);
    KnownTargetsOnly(GL_TEXTURE_2D);
    KnownTargetsOnly(GL_TEXTURE_3D);
    var c1 := Entered(FrameOf(Restore, outer, c, unwritten), c);
    OutsideFootprintUnchanged(Restore, inner, EmptyBlock, c1, TextureBinding(GL_TEXTURE_2D), unwritten);
    NestedDistinctSlots(outer, inner, EmptyBlock, c, unwritten);
  }

  /** The same two scopes: when the outer one exits both bindings are back. */
  lemma NestedTextureUnwinds(c: Ctx, unwritten: int)
    ensures var r := OpenAll(Restore, [BindTexture(GL_TEXTURE_2D, 5), BindTexture(GL_TEXTURE_3D, 6)],
                             EmptyBlock, c, unwritten);
            && Get(r, TextureBinding(GL_TEXTURE_2D)) == Get(c, TextureBinding(GL_TEXTURE_2D))
            && Get(r, TextureBinding(GL_TEXTURE_3D)) == Get(c, TextureBinding(GL_TEXTURE_3D))
  {
    KnownTargetsOnly(GL_TEXTURE_2D);
    KnownTargetsOnly(GL_TEXTURE_3D);
    var ops := [BindTexture(GL_TEXTURE_2D, 5), BindTexture(GL_TEXTURE_3D, 6)];
    NestedRestore(ops, EmptyBlock, c, 0, unwritten);
    NestedRestore(ops, EmptyBlock, c, 1, unwritten);
  }
}
