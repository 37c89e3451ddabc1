/** The driver side of the context: the OpenGL set calls the scope macros
    issue, what each one writes, and the queries the restoring macros read the
    old value with. Errors the driver would raise are not modelled. */
module GlDriver {
  import opened GlEnums
  import opened GlContext

  /** The OpenGL calls the scope macros make, one constructor per entry point. */
  datatype Call =
    | glUseProgram(program: int)
    | glBindVertexArray(array: int)
    | glBindTexture(target: int, texture: int)
    | glBindBuffer(target: int, buffer: int)
    | glBindBufferBase(target: int, index: int, buffer: int)
    | glEnable(cap: int)
    | glDisable(cap: int)
    | glBindFramebuffer(target: int, framebuffer: int)
    | glBindRenderbuffer(target: int, renderbuffer: int)
    | glFramebufferTexture2D(target: int, attachment: int, textarget: int, texture: int, level: int)
    | glFramebufferRenderbuffer(target: int, attachment: int, rbtarget: int, renderbuffer: int)
    | glViewport(x: int, y: int, w: int, h: int)
    | glClearColor(r: Float, g: Float, b: Float, a: Float)
    | glBlendFunc(sfactor: int, dfactor: int)
    | glBlendEquation(mode: int)
    | glCullFace(mode: int)
    | glFrontFace(mode: int)
    | glTexParameteri(target: int, pname: int, param: int)
    | glUniform1f(location: int, v0: Float)
    | glUniformMatrix4fv(location: int, value: seq<Float>)

  /** The attachment slot a framebuffer call addresses: the given attachment
      of the framebuffer object bound to `target` when the call is made. */
  function AttachmentOf(c: Ctx, target: int, attachment: int): Slot {
    AttachmentPoint(NameOf(c, FramebufferBinding(target)), attachment)
  }

  /** The value an attachment point holds after attaching object `obj`;
      attaching object 0 detaches whatever was attached. */
  function AttachValue(kind: int, obj: int, level: int): Value {
    if obj == 0 then Attached(0, 0, 0) else Attached(kind, obj, level)
  }

  /** Every attachment slot with the given attachment, whatever framebuffer. */
  ghost function AttachmentSlots(attachment: int): iset<Slot> {
    iset s: Slot | s.AttachmentPoint? && s.attachment == attachment
  }

  /** Every parameter slot with the given pname, whatever texture. */
  ghost function TexParameterSlots(pname: int): iset<Slot> {
    iset s: Slot | s.TexParameterValue? && s.pname == pname
  }

  /** Every uniform slot at the given location, whatever program. */
  ghost function UniformSlots(location: int): iset<Slot> {
    iset s: Slot | s.UniformValue? && s.location == location
  }

  /** The slots a call may write, whatever the context it runs in. */
  ghost function CallFootprint(call: Call): iset<Slot> {
    match call
    case glUseProgram(_) => iset{CurrentProgram}
    case glBindVertexArray(_) => iset{VertexArrayBinding}
    case glBindTexture(t, _) => iset{TextureBinding(t)}
    case glBindBuffer(t, _) => iset{BufferBinding(t)}
    case glBindBufferBase(t, i, _) => iset{IndexedBufferBinding(t, i)}
    case glEnable(cap) => iset{CapabilityFlag(cap)}
    case glDisable(cap) => iset{CapabilityFlag(cap)}
    case glBindFramebuffer(t, _) => iset{FramebufferBinding(t)}
    case glBindRenderbuffer(t, _) => iset{RenderbufferBinding(t)}
    case glFramebufferTexture2D(_, att, _, _, _) => AttachmentSlots(att)
    case glFramebufferRenderbuffer(_, att, _, _) => AttachmentSlots(att)
    case glViewport(_, _, _, _) => iset{ViewportRect}
    case glClearColor(_, _, _, _) => iset{ClearColorValue}
    case glBlendFunc(_, _) => iset{BlendFactors}
    case glBlendEquation(_) => iset{BlendEquationMode}
    case glCullFace(_) => iset{CullFaceMode}
    case glFrontFace(_) => iset{FrontFaceMode}
    case glTexParameteri(_, pname, _) => TexParameterSlots(pname)
    case glUniform1f(loc, _) => UniformSlots(loc)
    case glUniformMatrix4fv(loc, _) => UniformSlots(loc)
  }

  /** The one slot a call writes, when run against context `c`. Calls that
      address an object through a binding (texture parameters, framebuffer
      attachments, uniforms) act on the object bound when the call is made. */
  function Target(c: Ctx, call: Call): (s: Slot)
    ensures s in CallFootprint(call)
  {
    match call
    case glUseProgram(_) => CurrentProgram
    case glBindVertexArray(_) => VertexArrayBinding
    case glBindTexture(t, _) => TextureBinding(t)
    case glBindBuffer(t, _) => BufferBinding(t)
    case glBindBufferBase(t, i, _) => IndexedBufferBinding(t, i)
    case glEnable(cap) => CapabilityFlag(cap)
    case glDisable(cap) => CapabilityFlag(cap)
    case glBindFramebuffer(t, _) => FramebufferBinding(t)
    case glBindRenderbuffer(t, _) => RenderbufferBinding(t)
    case glFramebufferTexture2D(t, att, _, _, _) => AttachmentOf(c, t, att)
    case glFramebufferRenderbuffer(t, att, _, _) => AttachmentOf(c, t, att)
    case glViewport(_, _, _, _) => ViewportRect
    case glClearColor(_, _, _, _) => ClearColorValue
    case glBlendFunc(_, _) => BlendFactors
    case glBlendEquation(_) => BlendEquationMode
    case glCullFace(_) => CullFaceMode
    case glFrontFace(_) => FrontFaceMode
    case glTexParameteri(t, pname, _) => TexParameterValue(NameOf(c, TextureBinding(t)), pname)
    case glUniform1f(loc, _) => UniformValue(NameOf(c, CurrentProgram), loc)
    case glUniformMatrix4fv(loc, _) => UniformValue(NameOf(c, CurrentProgram), loc)
  }

  /** The value a call writes into its slot. */
  function Written(call: Call): Value {
    match call
    case glUseProgram(p) => Name(p)
    case glBindVertexArray(a) => Name(a)
    case glBindTexture(_, tex) => Name(tex)
    case glBindBuffer(_, b) => Name(b)
    case glBindBufferBase(_, _, b) => Name(b)
    case glEnable(_) => Flag(true)
    case glDisable(_) => Flag(false)
    case glBindFramebuffer(_, f) => Name(f)
    case glBindRenderbuffer(_, rb) => Name(rb)
    case glFramebufferTexture2D(_, _, textarget, tex, level) => AttachValue(textarget, tex, level)
    case glFramebufferRenderbuffer(_, _, rbtarget, rb) => AttachValue(rbtarget, rb, 0)
    case glViewport(x, y, w, h) => Rect(x, y, w, h)
    case glClearColor(r, g, b, a) => Rgba(r, g, b, a)
    case glBlendFunc(s, d) => Factors(s, d)
    case glBlendEquation(m) => Name(m)
    case glCullFace(m) => Name(m)
    case glFrontFace(m) => Name(m)
    case glTexParameteri(_, _, v) => Name(v)
    case glUniform1f(_, v) => Floats([v])
    case glUniformMatrix4fv(_, m) => Floats(m)
  }

  /** Runs one call against the context: its target slot takes the written
      value, and every other slot keeps its value. */
  function Exec(c: Ctx, call: Call): (r: Ctx)
    ensures Get(r, Target(c, call)) == Written(call)
    ensures forall t :: t != Target(c, call) ==> Get(r, t) == Get(c, t)
  {
    Put(c, Target(c, call), Written(call))
  }

  /** True when no call of the list may write slot `t`. */
  ghost predicate Untouched(calls: seq<Call>, t: Slot) {
    forall i :: 0 <= i < |calls| ==> t !in CallFootprint(calls[i])
  }

  /** Runs a list of calls in order. */
  function ExecAll(c: Ctx, calls: seq<Call>): Ctx
    decreases |calls|
  {
    if |calls| == 0 then c else ExecAll(Exec(c, calls[0]), calls[1..])
  }

  /** A slot that no call of the list may write keeps its value. */
  lemma {:induction false} ExecAllKeeps(c: Ctx, calls: seq<Call>, t: Slot)
    requires Untouched(calls, t)
    ensures Get(ExecAll(c, calls), t) == Get(c, t)
    decreases |calls|
  {
    if |calls| > 0 {
      forall i | 0 <= i < |calls[1..]| ensures t !in CallFootprint(calls[1..][i]) {
        assert calls[1..][i] == calls[i + 1];
      }
      ExecAllKeeps(Exec(c, calls[0]), calls[1..], t);
    }
  }

  lemma ExecAllOne(c: Ctx, a: Call)
    ensures ExecAll(c, [a]) == Exec(c, a)
  {
    assert [a][1..] == [];
  }

  lemma ExecAllTwo(c: Ctx, a: Call, b: Call)
    ensures ExecAll(c, [a, b]) == Exec(Exec(c, a), b)
  {
    assert [a, b][1..] == [b];
    ExecAllOne(Exec(c, a), b);
  }

  /** The slot a binding query reads, for the queries whose answer is the
      single name held by one slot. Every other pname reads nothing here. */
  function IntegerQuery(pname: int): (s: Option<Slot>)
    ensures s.Some? ==> NameSlot(s.value)
  {
    if pname == GL_CURRENT_PROGRAM then Some(CurrentProgram)
    else if pname == GL_VERTEX_ARRAY_BINDING then Some(VertexArrayBinding)
    else if pname == GL_TEXTURE_BINDING_1D then Some(TextureBinding(GL_TEXTURE_1D))
    else if pname == GL_TEXTURE_BINDING_2D then Some(TextureBinding(GL_TEXTURE_2D))
    else if pname == GL_TEXTURE_BINDING_3D then Some(TextureBinding(GL_TEXTURE_3D))
    else if pname == GL_TEXTURE_BINDING_1D_ARRAY then Some(TextureBinding(GL_TEXTURE_1D_ARRAY))
    else if pname == GL_TEXTURE_BINDING_2D_ARRAY then Some(TextureBinding(GL_TEXTURE_2D_ARRAY))
    else if pname == GL_TEXTURE_BINDING_RECTANGLE then Some(TextureBinding(GL_TEXTURE_RECTANGLE))
    else if pname == GL_TEXTURE_BINDING_CUBE_MAP then Some(TextureBinding(GL_TEXTURE_CUBE_MAP))
    else if pname == GL_TEXTURE_BINDING_CUBE_MAP_ARRAY then Some(TextureBinding(GL_TEXTURE_CUBE_MAP_ARRAY))
    else if pname == GL_TEXTURE_BINDING_BUFFER then Some(TextureBinding(GL_TEXTURE_BUFFER))
    else if pname == GL_TEXTURE_BINDING_2D_MULTISAMPLE then Some(TextureBinding(GL_TEXTURE_2D_MULTISAMPLE))
    else if pname == GL_TEXTURE_BINDING_2D_MULTISAMPLE_ARRAY then Some(TextureBinding(GL_TEXTURE_2D_MULTISAMPLE_ARRAY))
    else if pname == GL_ARRAY_BUFFER_BINDING then Some(BufferBinding(GL_ARRAY_BUFFER))
    else if pname == GL_SHADER_STORAGE_BUFFER_BINDING then Some(BufferBinding(GL_SHADER_STORAGE_BUFFER))
    else if pname == GL_FRAMEBUFFER_BINDING then Some(FramebufferBinding(GL_FRAMEBUFFER))
    else if pname == GL_BLEND_EQUATION then Some(BlendEquationMode)
    else if pname == GL_CULL_FACE_MODE then Some(CullFaceMode)
    else if pname == GL_FRONT_FACE then Some(FrontFaceMode)
    else None
  }

  /** A binding query reads back the name held by the slot it reads. */
  lemma QueryReads(c: Ctx, pname: int)
    requires IntegerQuery(pname).Some?
    ensures IntAt(GetIntegerv(c, pname), 0) == NameOf(c, IntegerQuery(pname).value)
  {
  }

  datatype Option<T> = None | Some(value: T)

  /** glGetIntegerv: the integers the query writes into the caller's array.
      A pname the model does not know writes nothing. */
  function GetIntegerv(c: Ctx, pname: int): seq<int> {
    if pname == GL_VIEWPORT then
      var v := Get(c, ViewportRect); [v.x, v.y, v.w, v.h]
    else if pname == GL_BLEND_SRC then [Get(c, BlendFactors).src]
    else if pname == GL_BLEND_DST then [Get(c, BlendFactors).dst]
    else match IntegerQuery(pname)
      case Some(s) => [NameOf(c, s)]
      case None => []
  }

  /** glGetFloatv, for the one float query the macros make. */
  function GetFloatv(c: Ctx, pname: int): seq<Float> {
    if pname == GL_COLOR_CLEAR_VALUE then
      var v := Get(c, ClearColorValue); [v.r, v.g, v.b, v.a]
    else []
  }

  /** glGetBooleanv on a capability (the same answer as glIsEnabled). */
  function GetBooleanv(c: Ctx, cap: int): bool {
    Get(c, CapabilityFlag(cap)).on
  }

  /** glGetTexParameteriv: a parameter of the texture bound to `target`. */
  function GetTexParameteriv(c: Ctx, target: int, pname: int): int {
    NameOf(c, TexParameterValue(NameOf(c, TextureBinding(target)), pname))
  }

  /** glGetUniformfv: the floats of a uniform of the given program. */
  function GetUniformfv(c: Ctx, program: int, location: int): seq<Float> {
    Get(c, UniformValue(program, location)).fs
  }

  /** Element `i` of the caller's integer array after a query wrote `written`
      into it. The source leaves elements the query did not write
      uninitialised; the model reads them as 0. */
  function IntAt(written: seq<int>, i: nat): int {
    if i < |written| then written[i] else 0
  }

  /** A single `GLint` local after `glGetIntegerv(pname, &local)`: the
      integer the query wrote, or, when the query writes nothing, whatever
      the uninitialised local already held (`unwritten`). */
  function ReadInto(written: seq<int>, unwritten: int): int {
    if 0 < |written| then written[0] else unwritten
  }

  /** The same, for a float array. */
  function FloatAt(written: seq<Float>, i: nat): Float {
    if i < |written| then written[i] else ZeroFloat
  }
}
