/** The state-slot bindings: one scope per category of context state, in a
    restoring flavour (`_restore_*`: read the old value on entry, write it
    back on exit) and a resetting flavour (`_unset_*`: write a fixed neutral
    value on exit), and the build-time switch between the two. */
module Bindings {
  import opened GlEnums
  import opened GlContext
  import opened GlDriver
  import opened Scope
  import opened TextureTargets

  /** The family SCOPE_GL_RESTORE_STATE selects for the whole build. */
  datatype Mode = Restore | Reset

  /** The scope macros, with the arguments their callers pass. */
  datatype Op =
    | UseProgram(id: int)
    | BindVertexArray(vao: int)
    | BindTexture(target: int, texture: int)
    | BindBuffer(target: int, buffer: int)
    | BindArrayBuffer(vbo: int)
    | Enable(cap: int)
    | Disable(cap: int)
    | BindFramebuffer(target: int, fbo: int)
    | FramebufferTexture(target: int, attachment: int, textarget: int, texture: int, level: int)
    | BindRenderbuffer(target: int, renderbuffer: int)
    | FramebufferRenderbuffer(fbo: int, attachment: int, renderbuffer: int)
    | Viewport(x: int, y: int, w: int, h: int)
    | ClearColor(r: Float, g: Float, b: Float, a: Float)
    | BlendFunc(src: int, dst: int)
    | BlendEquation(eq: int)
    | CullFace(faceMode: int)
    | FrontFace(orient: int)
    | BindTexture2D(tex: int)
    | BindFBO(fbo: int)
    | BindSSBO(ssbo: int, binding: int)
    | Tex2DParameter(param: int, val: int)

  /** Whether the macro the switch selects builds at all. The restoring
      generic buffer scope names variables it never declares (`vbo`,
      `old_vbo`), and the resetting front-face scope calls `glFrontface`,
      which does not exist. */
  predicate Expands(mode: Mode, op: Op) {
    !(mode == Restore && op.BindBuffer?) && !(mode == Reset && op.FrontFace?)
  }

  /** The scopes that write a fixed set of slots, as opposed to those that
      address an object through a binding (attachments, texture parameters). */
  predicate Direct(op: Op) {
    !(op.FramebufferTexture? || op.FramebufferRenderbuffer? || op.Tex2DParameter?)
  }

  /** The slot a direct scope is about: the one the body sees changed. */
  function SlotOf(op: Op): Slot
    requires Direct(op)
  {
    match op
    case UseProgram(_) => CurrentProgram
    case BindVertexArray(_) => VertexArrayBinding
    case BindTexture(t, _) => TextureBinding(t)
    case BindBuffer(t, _) => BufferBinding(t)
    case BindArrayBuffer(_) => BufferBinding(GL_ARRAY_BUFFER)
    case Enable(cap) => CapabilityFlag(cap)
    case Disable(cap) => CapabilityFlag(cap)
    case BindFramebuffer(t, _) => FramebufferBinding(t)
    case BindRenderbuffer(t, _) => RenderbufferBinding(t)
    case Viewport(_, _, _, _) => ViewportRect
    case ClearColor(_, _, _, _) => ClearColorValue
    case BlendFunc(_, _) => BlendFactors
    case BlendEquation(_) => BlendEquationMode
    case CullFace(_) => CullFaceMode
    case FrontFace(_) => FrontFaceMode
    case BindTexture2D(_) => TextureBinding(GL_TEXTURE_2D)
    case BindFBO(_) => FramebufferBinding(GL_FRAMEBUFFER)
    case BindSSBO(_, _) => BufferBinding(GL_SHADER_STORAGE_BUFFER)
  }

  /** The value a direct scope gives its slot for the body. */
  function NewValue(op: Op): Value
    requires Direct(op)
  {
    match op
    case UseProgram(id) => Name(id)
    case BindVertexArray(vao) => Name(vao)
    case BindTexture(_, tex) => Name(tex)
    case BindBuffer(_, buf) => Name(buf)
    case BindArrayBuffer(vbo) => Name(vbo)
    case Enable(_) => Flag(true)
    case Disable(_) => Flag(false)
    case BindFramebuffer(_, fbo) => Name(fbo)
    case BindRenderbuffer(_, rb) => Name(rb)
    case Viewport(x, y, w, h) => Rect(x, y, w, h)
    case ClearColor(r, g, b, a) => Rgba(r, g, b, a)
    case BlendFunc(src, dst) => Factors(src, dst)
    case BlendEquation(eq) => Name(eq)
    case CullFace(m) => Name(m)
    case FrontFace(o) => Name(o)
    case BindTexture2D(tex) => Name(tex)
    case BindFBO(fbo) => Name(fbo)
    case BindSSBO(ssbo, _) => Name(ssbo)
  }

  /** The neutral value a resetting scope leaves its slot at. */
  function Neutral(op: Op): Value
    requires Direct(op)
  {
    match op
    case Enable(_) => Flag(false)
    case Disable(_) => Flag(true)
    case Viewport(_, _, _, _) => Rect(0, 0, 0, 0)
    case ClearColor(_, _, _, _) => Rgba(ZeroFloat, ZeroFloat, ZeroFloat, ZeroFloat)
    case BlendFunc(_, _) => Factors(0, 0)
    case _ => Name(0)
  }

  /** Every slot a scope's calls may write. */
  ghost function Footprint(op: Op): iset<Slot> {
    match op
    case FramebufferTexture(_, att, _, _, _) => AttachmentSlots(att)
    case FramebufferRenderbuffer(_, att, _) => AttachmentSlots(att)
    case Tex2DParameter(param, _) => TexParameterSlots(param)
    case BindSSBO(_, binding) =>
      iset{BufferBinding(GL_SHADER_STORAGE_BUFFER), IndexedBufferBinding(GL_SHADER_STORAGE_BUFFER, binding)}
    case _ => iset{SlotOf(op)}
  }

  /** The restoring scopes whose exit really puts back the value read on
      entry: every direct one except the generic framebuffer scope (it
      queries the target instead of its binding), the renderbuffer scope (it
      never queries), the shader-storage scope (its indexed binding gets the
      generic binding's old value), and the generic texture scope on a target
      the lookup does not know. */
  predicate Restorable(op: Op) {
    || op.UseProgram? || op.BindVertexArray? || op.BindArrayBuffer?
    || (op.BindTexture? && IsTextureTarget(op.target))
    || op.Enable? || op.Disable? || op.BindFBO?
    || op.Viewport? || op.ClearColor? || op.BlendFunc?
    || op.BlendEquation? || op.CullFace? || op.FrontFace? || op.BindTexture2D?
  }


  // ---------------------------------------------------------------------
  // Single-value slots. Each restoring scope reads the slot's binding query
  // before binding the new value and binds what it read on exit; each
  // resetting scope binds 0 on exit. The frames are plain data; what they
  // do is stated by the lemma that follows each pair.

  function RestoreUseProgram(id: int, c: Ctx): Frame {
    var prog := IntAt(GetIntegerv(c, GL_CURRENT_PROGRAM), 0);
    Frame([glUseProgram(id)], [glUseProgram(prog)])
  }

  function UnsetUseProgram(id: int): Frame {
    Frame([glUseProgram(id)], [glUseProgram(0)])
  }

  /** Both program scopes make `id` current for the block; the restoring one
      makes the entry program current again afterwards, the resetting one
      leaves no program current. Neither touches any other slot. */
  lemma UseProgramScopes(id: int, c: Ctx)
    ensures Sets(RestoreUseProgram(id, c), CurrentProgram, Name(id), Get(c, CurrentProgram))
    ensures Sets(UnsetUseProgram(id), CurrentProgram, Name(id), Name(0))
  {
    QueryReads(c, GL_CURRENT_PROGRAM);
    SetterFrame(glUseProgram(id), glUseProgram(IntAt(GetIntegerv(c, GL_CURRENT_PROGRAM), 0)), CurrentProgram);
    SetterFrame(glUseProgram(id), glUseProgram(0), CurrentProgram);
  }

  function RestoreBindVertexArray(vao: int, c: Ctx): Frame {
    var prev := IntAt(GetIntegerv(c, GL_VERTEX_ARRAY_BINDING), 0);
    Frame([glBindVertexArray(vao)], [glBindVertexArray(prev)])
  }

  function UnsetBindVertexArray(vao: int): Frame {
    Frame([glBindVertexArray(vao)], [glBindVertexArray(0)])
  }

  /** The vertex-array scopes: `vao` is bound for the block; afterwards the
      entry binding is back (restoring) or no vertex array is bound
      (resetting). */
  lemma BindVertexArrayScopes(vao: int, c: Ctx)
    ensures Sets(RestoreBindVertexArray(vao, c), VertexArrayBinding, Name(vao), Get(c, VertexArrayBinding))
    ensures Sets(UnsetBindVertexArray(vao), VertexArrayBinding, Name(vao), Name(0))
  {
    QueryReads(c, GL_VERTEX_ARRAY_BINDING);
    SetterFrame(glBindVertexArray(vao), glBindVertexArray(IntAt(GetIntegerv(c, GL_VERTEX_ARRAY_BINDING), 0)),
                VertexArrayBinding);
    SetterFrame(glBindVertexArray(vao), glBindVertexArray(0), VertexArrayBinding);
  }

  /** The generic texture scope reads the binding query the lookup picks for
      the target into its local; `unwritten` is what that uninitialised
      local holds when the query writes nothing. */
  function RestoreBindTexture(target: int, texture: int, c: Ctx, unwritten: int): Frame {
    var prev := ReadInto(GetIntegerv(c, MapTextureTargetToBinding(target)), unwritten);
    Frame([glBindTexture(target, texture)], [glBindTexture(target, prev)])
  }

  function UnsetBindTexture(target: int, texture: int): Frame {
    Frame([glBindTexture(target, texture)], [glBindTexture(target, 0)])
  }

  /** The generic texture scopes bind `texture` to `target` for the block.
      The restoring one puts the entry binding back for the eleven targets
      the lookup knows; for any other target the lookup gives query 0, which
      writes nothing, and the exit binds whatever the uninitialised local
      held, whatever was bound before. The resetting one binds texture 0. */
  lemma BindTextureScopes(target: int, texture: int, c: Ctx, unwritten: int)
    ensures Sets(RestoreBindTexture(target, texture, c, unwritten), TextureBinding(target), Name(texture),
                 if IsTextureTarget(target) then Get(c, TextureBinding(target)) else Name(unwritten))
    ensures Sets(UnsetBindTexture(target, texture), TextureBinding(target), Name(texture), Name(0))
  {
    QueryReadsTargetBinding(target);
    SetterFrame(glBindTexture(target, texture),
                glBindTexture(target, ReadInto(GetIntegerv(c, MapTextureTargetToBinding(target)), unwritten)),
                TextureBinding(target));
    SetterFrame(glBindTexture(target, texture), glBindTexture(target, 0), TextureBinding(target));
  }

  function RestoreBindTexture2D(tex: int, c: Ctx): Frame {
    var prev := IntAt(GetIntegerv(c, GL_TEXTURE_BINDING_2D), 0);
    Frame([glBindTexture(GL_TEXTURE_2D, tex)], [glBindTexture(GL_TEXTURE_2D, prev)])
  }

  function UnsetBindTexture2D(tex: int): Frame {
    Frame([glBindTexture(GL_TEXTURE_2D, tex)], [glBindTexture(GL_TEXTURE_2D, 0)])
  }

  /** The 2D texture scopes: `tex` is bound to GL_TEXTURE_2D for the block;
      afterwards the entry binding is back (restoring) or none (resetting). */
  lemma BindTexture2DScopes(tex: int, c: Ctx)
    ensures Sets(RestoreBindTexture2D(tex, c), TextureBinding(GL_TEXTURE_2D), Name(tex),
                 Get(c, TextureBinding(GL_TEXTURE_2D)))
    ensures Sets(UnsetBindTexture2D(tex), TextureBinding(GL_TEXTURE_2D), Name(tex), Name(0))
  {
    QueryReads(c, GL_TEXTURE_BINDING_2D);
    SetterFrame(glBindTexture(GL_TEXTURE_2D, tex),
                glBindTexture(GL_TEXTURE_2D, IntAt(GetIntegerv(c, GL_TEXTURE_BINDING_2D), 0)),
                TextureBinding(GL_TEXTURE_2D));
    SetterFrame(glBindTexture(GL_TEXTURE_2D, tex), glBindTexture(GL_TEXTURE_2D, 0), TextureBinding(GL_TEXTURE_2D));
  }

  /** The resetting generic buffer scope (its restoring partner does not
      build). */
  function UnsetBindBuffer(target: int, buffer: int): Frame {
    Frame([glBindBuffer(target, buffer)], [glBindBuffer(target, 0)])
  }

  /** `buffer` is bound to `target` for the block and no buffer afterwards. */
  lemma BindBufferScope(target: int, buffer: int)
    ensures Sets(UnsetBindBuffer(target, buffer), BufferBinding(target), Name(buffer), Name(0))
  {
    SetterFrame(glBindBuffer(target, buffer), glBindBuffer(target, 0), BufferBinding(target));
  }

  function RestoreBindArrayBuffer(vbo: int, c: Ctx): Frame {
    var prev := IntAt(GetIntegerv(c, GL_ARRAY_BUFFER_BINDING), 0);
    Frame([glBindBuffer(GL_ARRAY_BUFFER, vbo)], [glBindBuffer(GL_ARRAY_BUFFER, prev)])
  }

  function UnsetBindArrayBuffer(vbo: int): Frame {
    Frame([glBindBuffer(GL_ARRAY_BUFFER, vbo)], [glBindBuffer(GL_ARRAY_BUFFER, 0)])
  }

  /** The array-buffer scopes: `vbo` is bound to GL_ARRAY_BUFFER for the
      block; afterwards the entry binding is back (restoring) or none
      (resetting). */
  lemma BindArrayBufferScopes(vbo: int, c: Ctx)
    ensures Sets(RestoreBindArrayBuffer(vbo, c), BufferBinding(GL_ARRAY_BUFFER), Name(vbo),
                 Get(c, BufferBinding(GL_ARRAY_BUFFER)))
    ensures Sets(UnsetBindArrayBuffer(vbo), BufferBinding(GL_ARRAY_BUFFER), Name(vbo), Name(0))
  {
    QueryReads(c, GL_ARRAY_BUFFER_BINDING);
    SetterFrame(glBindBuffer(GL_ARRAY_BUFFER, vbo),
                glBindBuffer(GL_ARRAY_BUFFER, IntAt(GetIntegerv(c, GL_ARRAY_BUFFER_BINDING), 0)),
                BufferBinding(GL_ARRAY_BUFFER));
    SetterFrame(glBindBuffer(GL_ARRAY_BUFFER, vbo), glBindBuffer(GL_ARRAY_BUFFER, 0), BufferBinding(GL_ARRAY_BUFFER));
  }

  /** The generic framebuffer scope passes the target itself, not its
      binding query, to glGetIntegerv; `unwritten` is what its uninitialised
      local holds when the query writes nothing. */
  function RestoreBindFramebuffer(target: int, fbo: int, c: Ctx, unwritten: int): Frame {
    var prev := ReadInto(GetIntegerv(c, target), unwritten);
    Frame([glBindFramebuffer(target, fbo)], [glBindFramebuffer(target, prev)])
  }

  function UnsetBindFramebuffer(target: int, fbo: int): Frame {
    Frame([glBindFramebuffer(target, fbo)], [glBindFramebuffer(target, 0)])
  }

  /** The generic framebuffer scopes bind `fbo` to `target` for the block.
      No framebuffer target is itself a query, so for every framebuffer
      target the restoring scope's query writes nothing and its exit binds
      whatever the uninitialised local held, whatever was bound before. The
      resetting scope binds framebuffer 0 on exit. */
  lemma BindFramebufferScopes(target: int, fbo: int, c: Ctx, unwritten: int)
    ensures Sets(RestoreBindFramebuffer(target, fbo, c, unwritten), FramebufferBinding(target), Name(fbo),
                 Name(ReadInto(GetIntegerv(c, target), unwritten)))
    ensures target in {GL_FRAMEBUFFER, GL_DRAW_FRAMEBUFFER, GL_READ_FRAMEBUFFER} ==>
              Sets(RestoreBindFramebuffer(target, fbo, c, unwritten), FramebufferBinding(target), Name(fbo),
                   Name(unwritten))
    ensures Sets(UnsetBindFramebuffer(target, fbo), FramebufferBinding(target), Name(fbo), Name(0))
  {
    SetterFrame(glBindFramebuffer(target, fbo), glBindFramebuffer(target, ReadInto(GetIntegerv(c, target), unwritten)),
                FramebufferBinding(target));
    SetterFrame(glBindFramebuffer(target, fbo), glBindFramebuffer(target, 0), FramebufferBinding(target));
    if target in {GL_FRAMEBUFFER, GL_DRAW_FRAMEBUFFER, GL_READ_FRAMEBUFFER} {
      FramebufferTargetWritesNothing(c, target);
    }
  }

  /** No framebuffer target is a pname glGetIntegerv answers. */
  lemma FramebufferTargetWritesNothing(c: Ctx, target: int)
    requires target in {GL_FRAMEBUFFER, GL_DRAW_FRAMEBUFFER, GL_READ_FRAMEBUFFER}
    ensures GetIntegerv(c, target) == []
  {
  }

  function RestoreBindFBO(fbo: int, c: Ctx): Frame {
    var prev := IntAt(GetIntegerv(c, GL_FRAMEBUFFER_BINDING), 0);
    Frame([glBindFramebuffer(GL_FRAMEBUFFER, fbo)], [glBindFramebuffer(GL_FRAMEBUFFER, prev)])
  }

  function UnsetBindFBO(fbo: int): Frame {
    Frame([glBindFramebuffer(GL_FRAMEBUFFER, fbo)], [glBindFramebuffer(GL_FRAMEBUFFER, 0)])
  }

  /** The GL_FRAMEBUFFER scopes: `fbo` is bound for the block; afterwards
      the entry binding is back (restoring) or none (resetting). */
  lemma BindFBOScopes(fbo: int, c: Ctx)
    ensures Sets(RestoreBindFBO(fbo, c), FramebufferBinding(GL_FRAMEBUFFER), Name(fbo),
                 Get(c, FramebufferBinding(GL_FRAMEBUFFER)))
    ensures Sets(UnsetBindFBO(fbo), FramebufferBinding(GL_FRAMEBUFFER), Name(fbo), Name(0))
  {
    QueryReads(c, GL_FRAMEBUFFER_BINDING);
    SetterFrame(glBindFramebuffer(GL_FRAMEBUFFER, fbo),
                glBindFramebuffer(GL_FRAMEBUFFER, IntAt(GetIntegerv(c, GL_FRAMEBUFFER_BINDING), 0)),
                FramebufferBinding(GL_FRAMEBUFFER));
    SetterFrame(glBindFramebuffer(GL_FRAMEBUFFER, fbo), glBindFramebuffer(GL_FRAMEBUFFER, 0),
                FramebufferBinding(GL_FRAMEBUFFER));
  }

  function RestoreBlendEquation(eq: int, c: Ctx): Frame {
    var e := IntAt(GetIntegerv(c, GL_BLEND_EQUATION), 0);
    Frame([glBlendEquation(eq)], [glBlendEquation(e)])
  }

  function UnsetBlendEquation(eq: int): Frame {
    Frame([glBlendEquation(eq)], [glBlendEquation(0)])
  }

  /** The blend-equation scopes: `eq` holds for the block; afterwards the
      entry equation is back (restoring) or the equation is 0 (resetting). */
  lemma BlendEquationScopes(eq: int, c: Ctx)
    ensures Sets(RestoreBlendEquation(eq, c), BlendEquationMode, Name(eq), Get(c, BlendEquationMode))
    ensures Sets(UnsetBlendEquation(eq), BlendEquationMode, Name(eq), Name(0))
  {
    QueryReads(c, GL_BLEND_EQUATION);
    SetterFrame(glBlendEquation(eq), glBlendEquation(IntAt(GetIntegerv(c, GL_BLEND_EQUATION), 0)), BlendEquationMode);
    SetterFrame(glBlendEquation(eq), glBlendEquation(0), BlendEquationMode);
  }

  function RestoreCullFace(faceMode: int, c: Ctx): Frame {
    var m := IntAt(GetIntegerv(c, GL_CULL_FACE_MODE), 0);
    Frame([glCullFace(faceMode)], [glCullFace(m)])
  }

  function UnsetCullFace(faceMode: int): Frame {
    Frame([glCullFace(faceMode)], [glCullFace(0)])
  }

  /** The cull-face scopes: `faceMode` holds for the block; afterwards the
      entry mode is back (restoring) or the mode is 0 (resetting). */
  lemma CullFaceScopes(faceMode: int, c: Ctx)
    ensures Sets(RestoreCullFace(faceMode, c), CullFaceMode, Name(faceMode), Get(c, CullFaceMode))
    ensures Sets(UnsetCullFace(faceMode), CullFaceMode, Name(faceMode), Name(0))
  {
    QueryReads(c, GL_CULL_FACE_MODE);
    SetterFrame(glCullFace(faceMode), glCullFace(IntAt(GetIntegerv(c, GL_CULL_FACE_MODE), 0)), CullFaceMode);
    SetterFrame(glCullFace(faceMode), glCullFace(0), CullFaceMode);
  }

  /** The restoring front-face scope (its resetting partner does not
      build). */
  function RestoreFrontFace(orient: int, c: Ctx): Frame {
    var fo := IntAt(GetIntegerv(c, GL_FRONT_FACE), 0);
    Frame([glFrontFace(orient)], [glFrontFace(fo)])
  }

  /** `orient` holds for the block and the entry orientation afterwards. */
  lemma FrontFaceScope(orient: int, c: Ctx)
    ensures Sets(RestoreFrontFace(orient, c), FrontFaceMode, Name(orient), Get(c, FrontFaceMode))
  {
    QueryReads(c, GL_FRONT_FACE);
    SetterFrame(glFrontFace(orient), glFrontFace(IntAt(GetIntegerv(c, GL_FRONT_FACE), 0)), FrontFaceMode);
  }

  // ---------------------------------------------------------------------
  // Capability flags

  /** The restoring exit re-enables or re-disables according to the flag
      read on entry, for both the enable and the disable scope. */
  function RestoreEnable(cap: int, c: Ctx): Frame {
    var prev := GetBooleanv(c, cap);
    Frame([glEnable(cap)], [if prev then glEnable(cap) else glDisable(cap)])
  }

  function UnsetEnable(cap: int): Frame {
    Frame([glEnable(cap)], [glDisable(cap)])
  }

  function RestoreDisable(cap: int, c: Ctx): Frame {
    var prev := GetBooleanv(c, cap);
    Frame([glDisable(cap)], [if prev then glEnable(cap) else glDisable(cap)])
  }

  function UnsetDisable(cap: int): Frame {
    Frame([glDisable(cap)], [glEnable(cap)])
  }

  /** The enable scopes: `cap` is on for the block; afterwards it is as it
      was on entry (restoring) or off (resetting). */
  lemma EnableScopes(cap: int, c: Ctx)
    ensures Sets(RestoreEnable(cap, c), CapabilityFlag(cap), Flag(true), Get(c, CapabilityFlag(cap)))
    ensures Sets(UnsetEnable(cap), CapabilityFlag(cap), Flag(true), Flag(false))
  {
    var back := if GetBooleanv(c, cap) then glEnable(cap) else glDisable(cap);
    SetterFrame(glEnable(cap), back, CapabilityFlag(cap));
    SetterFrame(glEnable(cap), glDisable(cap), CapabilityFlag(cap));
  }

  /** The disable scopes: `cap` is off for the block; afterwards it is as it
      was on entry (restoring) or on (resetting). */
  lemma DisableScopes(cap: int, c: Ctx)
    ensures Sets(RestoreDisable(cap, c), CapabilityFlag(cap), Flag(false), Get(c, CapabilityFlag(cap)))
    ensures Sets(UnsetDisable(cap), CapabilityFlag(cap), Flag(false), Flag(true))
  {
    var back := if GetBooleanv(c, cap) then glEnable(cap) else glDisable(cap);
    SetterFrame(glDisable(cap), back, CapabilityFlag(cap));
    SetterFrame(glDisable(cap), glEnable(cap), CapabilityFlag(cap));
  }

  // ---------------------------------------------------------------------
  // Multi-component slots, captured and put back as one unit

  function RestoreViewport(x: int, y: int, w: int, h: int, c: Ctx): Frame {
    var view := GetIntegerv(c, GL_VIEWPORT);
    Frame([glViewport(x, y, w, h)],
          [glViewport(IntAt(view, 0), IntAt(view, 1), IntAt(view, 2), IntAt(view, 3))])
  }

  function UnsetViewport(x: int, y: int, w: int, h: int): Frame {
    Frame([glViewport(x, y, w, h)], [glViewport(0, 0, 0, 0)])
  }

  /** The viewport scopes: the rectangle holds for the block; afterwards all
      four entry components are back (restoring) or all four are 0
      (resetting). */
  lemma ViewportScopes(x: int, y: int, w: int, h: int, c: Ctx)
    ensures Sets(RestoreViewport(x, y, w, h, c), ViewportRect, Rect(x, y, w, h), Get(c, ViewportRect))
    ensures Sets(UnsetViewport(x, y, w, h), ViewportRect, Rect(x, y, w, h), Rect(0, 0, 0, 0))
  {
    var view := GetIntegerv(c, GL_VIEWPORT);
    SetterFrame(glViewport(x, y, w, h),
                glViewport(IntAt(view, 0), IntAt(view, 1), IntAt(view, 2), IntAt(view, 3)), ViewportRect);
    SetterFrame(glViewport(x, y, w, h), glViewport(0, 0, 0, 0), ViewportRect);
  }

  function RestoreClearColor(r: Float, g: Float, b: Float, a: Float, c: Ctx): Frame {
    var clear := GetFloatv(c, GL_COLOR_CLEAR_VALUE);
    Frame([glClearColor(r, g, b, a)],
          [glClearColor(FloatAt(clear, 0), FloatAt(clear, 1), FloatAt(clear, 2), FloatAt(clear, 3))])
  }

  function UnsetClearColor(r: Float, g: Float, b: Float, a: Float): Frame {
    Frame([glClearColor(r, g, b, a)], [glClearColor(ZeroFloat, ZeroFloat, ZeroFloat, ZeroFloat)])
  }

  /** The clear-colour scopes: the colour holds for the block; afterwards
      all four entry components are back (restoring) or all four are 0
      (resetting). */
  lemma ClearColorScopes(r: Float, g: Float, b: Float, a: Float, c: Ctx)
    ensures Sets(RestoreClearColor(r, g, b, a, c), ClearColorValue, Rgba(r, g, b, a), Get(c, ClearColorValue))
    ensures Sets(UnsetClearColor(r, g, b, a), ClearColorValue, Rgba(r, g, b, a),
                 Rgba(ZeroFloat, ZeroFloat, ZeroFloat, ZeroFloat))
  {
    var clear := GetFloatv(c, GL_COLOR_CLEAR_VALUE);
    SetterFrame(glClearColor(r, g, b, a),
                glClearColor(FloatAt(clear, 0), FloatAt(clear, 1), FloatAt(clear, 2), FloatAt(clear, 3)),
                ClearColorValue);
    SetterFrame(glClearColor(r, g, b, a), glClearColor(ZeroFloat, ZeroFloat, ZeroFloat, ZeroFloat), ClearColorValue);
  }

  /** Two queries, one per factor, put back by one glBlendFunc. */
  function RestoreBlendFunc(src: int, dst: int, c: Ctx): Frame {
    var s := IntAt(GetIntegerv(c, GL_BLEND_SRC), 0);
    var d := IntAt(GetIntegerv(c, GL_BLEND_DST), 0);
    Frame([glBlendFunc(src, dst)], [glBlendFunc(s, d)])
  }

  function UnsetBlendFunc(src: int, dst: int): Frame {
    Frame([glBlendFunc(src, dst)], [glBlendFunc(0, 0)])
  }

  /** The blend-function scopes: the factor pair holds for the block;
      afterwards the entry pair is back (restoring) or the pair is (0, 0)
      (resetting). */
  lemma BlendFuncScopes(src: int, dst: int, c: Ctx)
    ensures Sets(RestoreBlendFunc(src, dst, c), BlendFactors, Factors(src, dst), Get(c, BlendFactors))
    ensures Sets(UnsetBlendFunc(src, dst), BlendFactors, Factors(src, dst), Factors(0, 0))
  {
    SetterFrame(glBlendFunc(src, dst),
                glBlendFunc(IntAt(GetIntegerv(c, GL_BLEND_SRC), 0), IntAt(GetIntegerv(c, GL_BLEND_DST), 0)),
                BlendFactors);
    SetterFrame(glBlendFunc(src, dst), glBlendFunc(0, 0), BlendFactors);
  }

  // ---------------------------------------------------------------------
  // Shader-storage buffer: two calls on entry, the mirrored two on exit

  const SSB: int := GL_SHADER_STORAGE_BUFFER

  /** Both shader-storage macros: bind the generic point, then the indexed
      point, on entry; on exit bind `back` to the indexed point, then to the
      generic point. */
  function SsboFrame(ssbo: int, binding: int, back: int): Frame {
    Frame([glBindBuffer(SSB, ssbo), glBindBufferBase(SSB, binding, ssbo)],
          [glBindBufferBase(SSB, binding, back), glBindBuffer(SSB, back)])
  }

  /** The restoring exit rebinds the indexed point and then the generic
      point to the GENERIC binding read on entry. */
  function RestoreBindSSBO(ssbo: int, binding: int, c: Ctx): Frame {
    SsboFrame(ssbo, binding, IntAt(GetIntegerv(c, GL_SHADER_STORAGE_BUFFER_BINDING), 0))
  }

  function UnsetBindSSBO(ssbo: int, binding: int): Frame {
    SsboFrame(ssbo, binding, 0)
  }

  /** Both points hold `ssbo` for the block, and both hold `back` after it;
      the exit calls undo the entry calls in reverse order, and nothing
      but the two points is written. */
  lemma SsboFrameEffect(ssbo: int, binding: int, back: int)
    ensures var f := SsboFrame(ssbo, binding, back);
            && (forall x :: Get(Entered(f, x), BufferBinding(SSB)) == Name(ssbo))
            && (forall x :: Get(Entered(f, x), IndexedBufferBinding(SSB, binding)) == Name(ssbo))
            && ExitLeaves(f, BufferBinding(SSB), Name(back))
            && ExitLeaves(f, IndexedBufferBinding(SSB, binding), Name(back))
            && Confined(f, iset{BufferBinding(SSB), IndexedBufferBinding(SSB, binding)}) && Mirrors(f)
    ensures var f := SsboFrame(ssbo, binding, back);
            && |f.enter| == 2 && f.enter[0].glBindBuffer? && f.enter[1].glBindBufferBase?
            && |f.exit| == 2 && f.exit[0].glBindBufferBase? && f.exit[1].glBindBuffer?
  {
    var f := SsboFrame(ssbo, binding, back);
    var generic := BufferBinding(SSB);
    var indexed := IndexedBufferBinding(SSB, binding);
    forall x
      ensures Get(ExecAll(x, f.enter), generic) == Name(ssbo)
      ensures Get(ExecAll(x, f.enter), indexed) == Name(ssbo)
    {
      ExecAllTwo(x, f.enter[0], f.enter[1]);
      assert indexed !in CallFootprint(f.enter[0]);
    }
    forall x
      ensures Get(ExecAll(x, f.exit), generic) == Name(back)
      ensures Get(ExecAll(x, f.exit), indexed) == Name(back)
    {
      ExecAllTwo(x, f.exit[0], f.exit[1]);
      assert indexed !in CallFootprint(f.exit[1]);
    }
  }

  /** The restoring scope leaves both points at the generic point's entry
      binding, so the indexed point does not get its own old binding back;
      the resetting scope leaves both at 0. */
  lemma BindSSBOScopes(ssbo: int, binding: int, c: Ctx)
    ensures var f := RestoreBindSSBO(ssbo, binding, c);
            && ExitLeaves(f, BufferBinding(SSB), Get(c, BufferBinding(SSB)))
            && ExitLeaves(f, IndexedBufferBinding(SSB, binding), Get(c, BufferBinding(SSB)))
    ensures var f := UnsetBindSSBO(ssbo, binding);
            && ExitLeaves(f, BufferBinding(SSB), Name(0))
            && ExitLeaves(f, IndexedBufferBinding(SSB, binding), Name(0))
  {
    SsboFrameEffect(ssbo, binding, IntAt(GetIntegerv(c, GL_SHADER_STORAGE_BUFFER_BINDING), 0));
    SsboFrameEffect(ssbo, binding, 0);
  }

  // ---------------------------------------------------------------------
  // Scopes whose restoring and resetting macros are the same: neither reads
  // anything, both detach or unbind on exit.

  /** Both framebuffer-texture macros: attach on entry, attach texture 0
      (detach) at level 0 on exit. */
  function FramebufferTextureScope(target: int, attachment: int, textarget: int, texture: int, level: int): Frame {
    Frame([glFramebufferTexture2D(target, attachment, textarget, texture, level)],
          [glFramebufferTexture2D(target, attachment, textarget, 0, 0)])
  }

  /** The attachment written is that of the framebuffer bound to `target`
      when each call runs: the block sees the texture attached, and after
      any block the attachment of the framebuffer then bound is empty,
      whatever was attached before. */
  lemma FramebufferTextureEffect(target: int, attachment: int, textarget: int, texture: int, level: int)
    ensures var f := FramebufferTextureScope(target, attachment, textarget, texture, level);
            && (forall c :: Get(Entered(f, c), AttachmentOf(c, target, attachment))
                            == AttachValue(textarget, texture, level))
            && (forall x :: Get(ExecAll(x, f.exit), AttachmentOf(x, target, attachment)) == Attached(0, 0, 0))
            && (forall c :: OnlyChanges(c, Entered(f, c), AttachmentOf(c, target, attachment)))
            && (forall x :: OnlyChanges(x, ExecAll(x, f.exit), AttachmentOf(x, target, attachment)))
            && Confined(f, AttachmentSlots(attachment)) && Mirrors(f)
  {
    OneCallFrame(glFramebufferTexture2D(target, attachment, textarget, texture, level),
                 glFramebufferTexture2D(target, attachment, textarget, 0, 0));
  }

  /** Both renderbuffer-binding macros: bind on entry, bind 0 on exit. */
  function BindRenderbufferScope(target: int, renderbuffer: int): Frame {
    Frame([glBindRenderbuffer(target, renderbuffer)], [glBindRenderbuffer(target, 0)])
  }

  /** `renderbuffer` is bound for the block and none after it, whatever was
      bound before. */
  lemma BindRenderbufferEffect(target: int, renderbuffer: int)
    ensures Sets(BindRenderbufferScope(target, renderbuffer), RenderbufferBinding(target), Name(renderbuffer),
                 Name(0))
  {
    SetterFrame(glBindRenderbuffer(target, renderbuffer), glBindRenderbuffer(target, 0), RenderbufferBinding(target));
  }

  /** Both framebuffer-renderbuffer macros. They always address
      GL_FRAMEBUFFER; the `fbo` argument is not used. */
  function FramebufferRenderbufferScope(fbo: int, attachment: int, renderbuffer: int): Frame {
    Frame([glFramebufferRenderbuffer(GL_FRAMEBUFFER, attachment, GL_RENDERBUFFER, renderbuffer)],
          [glFramebufferRenderbuffer(GL_FRAMEBUFFER, attachment, GL_RENDERBUFFER, 0)])
  }

  /** The block sees the renderbuffer attached to the framebuffer bound to
      GL_FRAMEBUFFER, and after any block that framebuffer's attachment is
      empty; the frame is the same whatever `fbo` is passed. */
  lemma FramebufferRenderbufferEffect(fbo: int, attachment: int, renderbuffer: int)
    ensures var f := FramebufferRenderbufferScope(fbo, attachment, renderbuffer);
            && (forall c :: Get(Entered(f, c), AttachmentOf(c, GL_FRAMEBUFFER, attachment))
                            == AttachValue(GL_RENDERBUFFER, renderbuffer, 0))
            && (forall x :: Get(ExecAll(x, f.exit), AttachmentOf(x, GL_FRAMEBUFFER, attachment)) == Attached(0, 0, 0))
            && (forall c :: OnlyChanges(c, Entered(f, c), AttachmentOf(c, GL_FRAMEBUFFER, attachment)))
            && (forall x :: OnlyChanges(x, ExecAll(x, f.exit), AttachmentOf(x, GL_FRAMEBUFFER, attachment)))
            && Confined(f, AttachmentSlots(attachment)) && Mirrors(f)
    ensures forall other :: FramebufferRenderbufferScope(other, attachment, renderbuffer)
                            == FramebufferRenderbufferScope(fbo, attachment, renderbuffer)
  {
    OneCallFrame(glFramebufferRenderbuffer(GL_FRAMEBUFFER, attachment, GL_RENDERBUFFER, renderbuffer),
                 glFramebufferRenderbuffer(GL_FRAMEBUFFER, attachment, GL_RENDERBUFFER, 0));
  }

  // ---------------------------------------------------------------------
  // Texture parameter of the texture bound to GL_TEXTURE_2D (the integer
  // flavour, `ext` = i)

  /** The texture bound to GL_TEXTURE_2D. */
  function Bound2D(c: Ctx): int {
    NameOf(c, TextureBinding(GL_TEXTURE_2D))
  }

  function RestoreTex2DParameter(param: int, val: int, c: Ctx): Frame {
    var prev := GetTexParameteriv(c, GL_TEXTURE_2D, param);
    Frame([glTexParameteri(GL_TEXTURE_2D, param, val)], [glTexParameteri(GL_TEXTURE_2D, param, prev)])
  }

  function UnsetTex2DParameter(param: int, val: int): Frame {
    Frame([glTexParameteri(GL_TEXTURE_2D, param, val)], [glTexParameteri(GL_TEXTURE_2D, param, 0)])
  }

  /** The restoring scope: the block sees `val` in the parameter of the
      texture bound on entry, and the exit writes the entry value into the
      parameter of whatever texture is bound to GL_TEXTURE_2D at exit. */
  lemma RestoreTex2DParameterEffect(param: int, val: int, c: Ctx)
    ensures var f := RestoreTex2DParameter(param, val, c);
            && Get(Entered(f, c), TexParameterValue(Bound2D(c), param)) == Name(val)
            && (forall x :: Get(ExecAll(x, f.exit), TexParameterValue(Bound2D(x), param))
                            == Get(c, TexParameterValue(Bound2D(c), param)))
            && OnlyChanges(c, Entered(f, c), TexParameterValue(Bound2D(c), param))
            && (forall x :: OnlyChanges(x, ExecAll(x, f.exit), TexParameterValue(Bound2D(x), param)))
            && Confined(f, TexParameterSlots(param)) && Mirrors(f)
  {
    OneCallFrame(glTexParameteri(GL_TEXTURE_2D, param, val),
                 glTexParameteri(GL_TEXTURE_2D, param, GetTexParameteriv(c, GL_TEXTURE_2D, param)));
  }

  /** The resetting scope: the same entry, and the exit writes 0 into the
      parameter of the texture bound at exit. */
  lemma UnsetTex2DParameterEffect(param: int, val: int)
    ensures var f := UnsetTex2DParameter(param, val);
            && (forall x :: Get(Entered(f, x), TexParameterValue(Bound2D(x), param)) == Name(val))
            && (forall x :: Get(ExecAll(x, f.exit), TexParameterValue(Bound2D(x), param)) == Name(0))
            && (forall x :: OnlyChanges(x, Entered(f, x), TexParameterValue(Bound2D(x), param)))
            && (forall x :: OnlyChanges(x, ExecAll(x, f.exit), TexParameterValue(Bound2D(x), param)))
            && Confined(f, TexParameterSlots(param)) && Mirrors(f)
  {
    OneCallFrame(glTexParameteri(GL_TEXTURE_2D, param, val), glTexParameteri(GL_TEXTURE_2D, param, 0));
  }

  // ---------------------------------------------------------------------
  // The switch

  /** The `_restore_*` column of the switch. */
  function RestoreFrame(op: Op, c: Ctx, unwritten: int): Frame
    requires Expands(Restore, op)
  {
    match op
    case UseProgram(id) => RestoreUseProgram(id, c)
    case BindVertexArray(vao) => RestoreBindVertexArray(vao, c)
    case BindTexture(t, tex) => RestoreBindTexture(t, tex, c, unwritten)
    case BindArrayBuffer(vbo) => RestoreBindArrayBuffer(vbo, c)
    case Enable(cap) => RestoreEnable(cap, c)
    case Disable(cap) => RestoreDisable(cap, c)
    case BindFramebuffer(t, fbo) => RestoreBindFramebuffer(t, fbo, c, unwritten)
    case FramebufferTexture(t, att, textarget, tex, level) =>
      FramebufferTextureScope(t, att, textarget, tex, level)
    case BindRenderbuffer(t, rb) => BindRenderbufferScope(t, rb)
    case FramebufferRenderbuffer(fbo, att, rb) => FramebufferRenderbufferScope(fbo, att, rb)
    case Viewport(x, y, w, h) => RestoreViewport(x, y, w, h, c)
    case ClearColor(r, g, b, a) => RestoreClearColor(r, g, b, a, c)
    case BlendFunc(src, dst) => RestoreBlendFunc(src, dst, c)
    case BlendEquation(eq) => RestoreBlendEquation(eq, c)
    case CullFace(m) => RestoreCullFace(m, c)
    case FrontFace(o) => RestoreFrontFace(o, c)
    case BindTexture2D(tex) => RestoreBindTexture2D(tex, c)
    case BindFBO(fbo) => RestoreBindFBO(fbo, c)
    case BindSSBO(ssbo, binding) => RestoreBindSSBO(ssbo, binding, c)
    case Tex2DParameter(param, val) => RestoreTex2DParameter(param, val, c)
  }

  /** The `_unset_*` column of the switch. */
  function ResetFrame(op: Op): Frame
    requires Expands(Reset, op)
  {
    match op
    case UseProgram(id) => UnsetUseProgram(id)
    case BindVertexArray(vao) => UnsetBindVertexArray(vao)
    case BindTexture(t, tex) => UnsetBindTexture(t, tex)
    case BindBuffer(t, buf) => UnsetBindBuffer(t, buf)
    case BindArrayBuffer(vbo) => UnsetBindArrayBuffer(vbo)
    case Enable(cap) => UnsetEnable(cap)
    case Disable(cap) => UnsetDisable(cap)
    case BindFramebuffer(t, fbo) => UnsetBindFramebuffer(t, fbo)
    case FramebufferTexture(t, att, textarget, tex, level) =>
      FramebufferTextureScope(t, att, textarget, tex, level)
    case BindRenderbuffer(t, rb) => BindRenderbufferScope(t, rb)
    case FramebufferRenderbuffer(fbo, att, rb) => FramebufferRenderbufferScope(fbo, att, rb)
    case Viewport(x, y, w, h) => UnsetViewport(x, y, w, h)
    case ClearColor(r, g, b, a) => UnsetClearColor(r, g, b, a)
    case BlendFunc(src, dst) => UnsetBlendFunc(src, dst)
    case BlendEquation(eq) => UnsetBlendEquation(eq)
    case CullFace(m) => UnsetCullFace(m)
    case BindTexture2D(tex) => UnsetBindTexture2D(tex)
    case BindFBO(fbo) => UnsetBindFBO(fbo)
    case BindSSBO(ssbo, binding) => UnsetBindSSBO(ssbo, binding)
    case Tex2DParameter(param, val) => UnsetTex2DParameter(param, val)
  }

  /** The scope `scope_<name>` expands to under the build's mode, entered
      from context `c`. `unwritten` is what a restoring macro's uninitialised
      local holds when its query writes nothing into it; only the generic
      texture and framebuffer scopes can leave it unwritten. */
  function FrameOf(mode: Mode, op: Op, c: Ctx, unwritten: int): Frame
    requires Expands(mode, op)
  {
    if mode == Restore then RestoreFrame(op, c, unwritten) else ResetFrame(op)
  }

  /** What the switch promises of the scope it selects: under either mode it
      writes only the scope's own slots, in mirrored order, and gives the
      block the new value; restoring puts back what was read on entry,
      resetting leaves the neutral value. */
  ghost predicate SwitchKeeps(mode: Mode, op: Op, c: Ctx, unwritten: int)
    requires Expands(mode, op)
  {
    && Confined(FrameOf(mode, op, c, unwritten), Footprint(op))
    && Mirrors(FrameOf(mode, op, c, unwritten))
    && (Direct(op) ==> Get(Entered(FrameOf(mode, op, c, unwritten), c), SlotOf(op)) == NewValue(op))
    && (mode == Restore && Restorable(op) ==>
          ExitLeaves(FrameOf(mode, op, c, unwritten), SlotOf(op), Get(c, SlotOf(op))))
    && (mode == Reset && Direct(op) ==> ExitLeaves(FrameOf(mode, op, c, unwritten), SlotOf(op), Neutral(op)))
  }

  /** The switch keeps its promise for every scope that builds. */
  lemma FrameOfSpec(mode: Mode, op: Op, c: Ctx, unwritten: int)
    requires Expands(mode, op)
    ensures SwitchKeeps(mode, op, c, unwritten)
  {
    match op
    case UseProgram(id) => UseProgramSwitch(mode, id, c, unwritten);
    case BindVertexArray(vao) => BindVertexArraySwitch(mode, vao, c, unwritten);
    case BindTexture(t, tex) => BindTextureSwitch(mode, t, tex, c, unwritten);
    case BindBuffer(t, buf) => BindBufferSwitch(mode, t, buf, c, unwritten);
    case BindArrayBuffer(vbo) => BindArrayBufferSwitch(mode, vbo, c, unwritten);
    case Enable(cap) => EnableSwitch(mode, cap, c, unwritten);
    case Disable(cap) => DisableSwitch(mode, cap, c, unwritten);
    case BindFramebuffer(t, fbo) => BindFramebufferSwitch(mode, t, fbo, c, unwritten);
    case FramebufferTexture(t, att, textarget, tex, level) =>
      FramebufferTextureSwitch(mode, t, att, textarget, tex, level, c, unwritten);
    case BindRenderbuffer(t, rb) => BindRenderbufferSwitch(mode, t, rb, c, unwritten);
    case FramebufferRenderbuffer(fbo, att, rb) => FramebufferRenderbufferSwitch(mode, fbo, att, rb, c, unwritten);
    case Viewport(x, y, w, h) => ViewportSwitch(mode, x, y, w, h, c, unwritten);
    case ClearColor(r, g, b, a) => ClearColorSwitch(mode, r, g, b, a, c, unwritten);
    case BlendFunc(src, dst) => BlendFuncSwitch(mode, src, dst, c, unwritten);
    case BlendEquation(eq) => BlendEquationSwitch(mode, eq, c, unwritten);
    case CullFace(m) => CullFaceSwitch(mode, m, c, unwritten);
    case FrontFace(o) => FrontFaceSwitch(mode, o, c, unwritten);
    case BindTexture2D(tex) => BindTexture2DSwitch(mode, tex, c, unwritten);
    case BindFBO(fbo) => BindFBOSwitch(mode, fbo, c, unwritten);
    case BindSSBO(ssbo, binding) => BindSSBOSwitch(mode, ssbo, binding, c, unwritten);
    case Tex2DParameter(param, val) => Tex2DParameterSwitch(mode, param, val, c, unwritten);
  }

  // One case of the switch per scope: each follows from that scope's own
  // effect lemma.

  lemma UseProgramSwitch(mode: Mode, id: int, c: Ctx, unwritten: int)
    ensures SwitchKeeps(mode, UseProgram(id), c, unwritten)
  { UseProgramScopes(id, c); }

  lemma BindVertexArraySwitch(mode: Mode, vao: int, c: Ctx, unwritten: int)
    ensures SwitchKeeps(mode, BindVertexArray(vao), c, unwritten)
  { BindVertexArrayScopes(vao, c); }

  lemma BindTextureSwitch(mode: Mode, target: int, texture: int, c: Ctx, unwritten: int)
    ensures SwitchKeeps(mode, BindTexture(target, texture), c, unwritten)
  { BindTextureScopes(target, texture, c, unwritten); }

  lemma BindBufferSwitch(mode: Mode, target: int, buffer: int, c: Ctx, unwritten: int)
    requires mode == Reset
    ensures SwitchKeeps(mode, BindBuffer(target, buffer), c, unwritten)
  { BindBufferScope(target, buffer); }

  lemma BindArrayBufferSwitch(mode: Mode, vbo: int, c: Ctx, unwritten: int)
    ensures SwitchKeeps(mode, BindArrayBuffer(vbo), c, unwritten)
  { BindArrayBufferScopes(vbo, c); }

  lemma EnableSwitch(mode: Mode, cap: int, c: Ctx, unwritten: int)
    ensures SwitchKeeps(mode, Enable(cap), c, unwritten)
  { EnableScopes(cap, c); }

  lemma DisableSwitch(mode: Mode, cap: int, c: Ctx, unwritten: int)
    ensures SwitchKeeps(mode, Disable(cap), c, unwritten)
  { DisableScopes(cap, c); }

  lemma BindFramebufferSwitch(mode: Mode, target: int, fbo: int, c: Ctx, unwritten: int)
    ensures SwitchKeeps(mode, BindFramebuffer(target, fbo), c, unwritten)
  { BindFramebufferScopes(target, fbo, c, unwritten); }

  lemma FramebufferTextureSwitch(mode: Mode, target: int, attachment: int, textarget: int, texture: int,
                                 level: int, c: Ctx, unwritten: int)
    ensures SwitchKeeps(mode, FramebufferTexture(target, attachment, textarget, texture, level), c, unwritten)
  { FramebufferTextureEffect(target, attachment, textarget, texture, level); }

  lemma BindRenderbufferSwitch(mode: Mode, target: int, renderbuffer: int, c: Ctx, unwritten: int)
    ensures SwitchKeeps(mode, BindRenderbuffer(target, renderbuffer), c, unwritten)
  { BindRenderbufferEffect(target, renderbuffer); }

  lemma FramebufferRenderbufferSwitch(mode: Mode, fbo: int, attachment: int, renderbuffer: int, c: Ctx, unwritten: int)
    ensures SwitchKeeps(mode, FramebufferRenderbuffer(fbo, attachment, renderbuffer), c, unwritten)
  { FramebufferRenderbufferEffect(fbo, attachment, renderbuffer); }

  lemma ViewportSwitch(mode: Mode, x: int, y: int, w: int, h: int, c: Ctx, unwritten: int)
    ensures SwitchKeeps(mode, Viewport(x, y, w, h), c, unwritten)
  { ViewportScopes(x, y, w, h, c); }

  lemma ClearColorSwitch(mode: Mode, r: Float, g: Float, b: Float, a: Float, c: Ctx, unwritten: int)
    ensures SwitchKeeps(mode, ClearColor(r, g, b, a), c, unwritten)
  { ClearColorScopes(r, g, b, a, c); }

  lemma BlendFuncSwitch(mode: Mode, src: int, dst: int, c: Ctx, unwritten: int)
    ensures SwitchKeeps(mode, BlendFunc(src, dst), c, unwritten)
  { BlendFuncScopes(src, dst, c); }

  lemma BlendEquationSwitch(mode: Mode, eq: int, c: Ctx, unwritten: int)
    ensures SwitchKeeps(mode, BlendEquation(eq), c, unwritten)
  { BlendEquationScopes(eq, c); }

  lemma CullFaceSwitch(mode: Mode, faceMode: int, c: Ctx, unwritten: int)
    ensures SwitchKeeps(mode, CullFace(faceMode), c, unwritten)
  { CullFaceScopes(faceMode, c); }

  lemma FrontFaceSwitch(mode: Mode, orient: int, c: Ctx, unwritten: int)
    requires mode == Restore
    ensures SwitchKeeps(mode, FrontFace(orient), c, unwritten)
  { FrontFaceScope(orient, c); }

  lemma BindTexture2DSwitch(mode: Mode, tex: int, c: Ctx, unwritten: int)
    ensures SwitchKeeps(mode, BindTexture2D(tex), c, unwritten)
  { BindTexture2DScopes(tex, c); }

  lemma BindFBOSwitch(mode: Mode, fbo: int, c: Ctx, unwritten: int)
    ensures SwitchKeeps(mode, BindFBO(fbo), c, unwritten)
  { BindFBOScopes(fbo, c); }

  lemma BindSSBOSwitch(mode: Mode, ssbo: int, binding: int, c: Ctx, unwritten: int)
    ensures SwitchKeeps(mode, BindSSBO(ssbo, binding), c, unwritten)
  {
    SsboFrameEffect(ssbo, binding, IntAt(GetIntegerv(c, GL_SHADER_STORAGE_BUFFER_BINDING), 0));
    SsboFrameEffect(ssbo, binding, 0);
  }

  lemma Tex2DParameterSwitch(mode: Mode, param: int, val: int, c: Ctx, unwritten: int)
    ensures SwitchKeeps(mode, Tex2DParameter(param, val), c, unwritten)
  {
    if mode == Restore {
      OneCallFrame(glTexParameteri(GL_TEXTURE_2D, param, val),
                   glTexParameteri(GL_TEXTURE_2D, param, GetTexParameteriv(c, GL_TEXTURE_2D, param)));
    } else {
      OneCallFrame(glTexParameteri(GL_TEXTURE_2D, param, val), glTexParameteri(GL_TEXTURE_2D, param, 0));
    }
  }

  /** `scope_<name>(args) { body }` under the build's mode, for a block that
      completes normally. */
  function Open(mode: Mode, op: Op, body: Body, c: Ctx, unwritten: int): Ctx
    requires Expands(mode, op)
  {
    Run(FrameOf(mode, op, c, unwritten), body, c)
  }
}
