/** The graphics context the scope macros act on, abstracted as a finite map
    from state slots to values. A slot is one independently settable piece of
    context state; every value stored in a slot has that slot's shape. */
module GlContext {

  /** A 32-bit float, kept as its bit pattern: the macros only copy floats,
      never compute with them. The pattern 0 is the float 0.0. */
  datatype Float = Float(bits: bv32)

  const ZeroFloat: Float := Float(0)

  /** One piece of context state, named by its category and, where the
      category has several, by its target, index or object. */
  datatype Slot =
    | CurrentProgram                                   // glUseProgram
    | VertexArrayBinding                               // glBindVertexArray
    | TextureBinding(target: int)                      // glBindTexture, per target
    | BufferBinding(target: int)                       // glBindBuffer, per target
    | IndexedBufferBinding(target: int, index: int)    // glBindBufferBase
    | CapabilityFlag(cap: int)                         // glEnable / glDisable
    | FramebufferBinding(target: int)                  // glBindFramebuffer
    | RenderbufferBinding(target: int)                 // glBindRenderbuffer
    | AttachmentPoint(fbo: int, attachment: int)       // an attachment of one framebuffer object
    | ViewportRect                                     // glViewport
    | ClearColorValue                                  // glClearColor
    | BlendFactors                                     // glBlendFunc
    | BlendEquationMode                                // glBlendEquation
    | CullFaceMode                                     // glCullFace
    | FrontFaceMode                                    // glFrontFace
    | TexParameterValue(texture: int, pname: int)      // one parameter of one texture object
    | UniformValue(program: int, location: int)        // one uniform of one program object

  /** What a slot holds. */
  datatype Value =
    | Name(n: int)                                     // an object name or an enumerant
    | Flag(on: bool)
    | Rect(x: int, y: int, w: int, h: int)
    | Rgba(r: Float, g: Float, b: Float, a: Float)
    | Factors(src: int, dst: int)
    | Attached(kind: int, obj: int, level: int)        // kind 0 (GL_NONE) when nothing is attached
    | Floats(fs: seq<Float>)

  /** The slots whose value is a single name or enumerant. */
  predicate NameSlot(s: Slot) {
    !(s.CapabilityFlag? || s.ViewportRect? || s.ClearColorValue? || s.BlendFactors?
      || s.AttachmentPoint? || s.UniformValue?)
  }

  /** The shape of value each slot holds. */
  predicate Fits(s: Slot, v: Value) {
    match s
    case CapabilityFlag(_) => v.Flag?
    case ViewportRect => v.Rect?
    case ClearColorValue => v.Rgba?
    case BlendFactors => v.Factors?
    case AttachmentPoint(_, _) => v.Attached?
    case UniformValue(_, _) => v.Floats?
    case _ => v.Name?
  }

  /** The all-zero value of a slot's shape: what a slot the context has never
      been given reads as. */
  function Zero(s: Slot): (v: Value)
    ensures Fits(s, v)
  {
    match s
    case CapabilityFlag(_) => Flag(false)
    case ViewportRect => Rect(0, 0, 0, 0)
    case ClearColorValue => Rgba(ZeroFloat, ZeroFloat, ZeroFloat, ZeroFloat)
    case BlendFactors => Factors(0, 0)
    case AttachmentPoint(_, _) => Attached(0, 0, 0)
    case UniformValue(_, _) => Floats([])
    case _ => Name(0)
  }

  predicate Typed(m: map<Slot, Value>) {
    forall s :: s in m ==> Fits(s, m[s])
  }

  /** A context: every slot it holds has a value of the slot's shape. */
  type Ctx = m: map<Slot, Value> | Typed(m) witness map[]

  /** The value of a slot: the stored one, or the slot's zero value. */
  function Get(c: Ctx, s: Slot): (v: Value)
    ensures Fits(s, v)
    ensures s !in c ==> v == Zero(s)
  {
    if s in c then c[s] else Zero(s)
  }

  /** Writes one slot; every other slot keeps its value. */
  function Put(c: Ctx, s: Slot, v: Value): (r: Ctx)
    requires Fits(s, v)
    ensures Get(r, s) == v
    ensures forall t :: t != s ==> Get(r, t) == Get(c, t)
  {
    c[s := v]
  }

  /** The name held by a name slot. */
  function NameOf(c: Ctx, s: Slot): (n: int)
    requires NameSlot(s)
    ensures Get(c, s) == Name(n)
  {
    Get(c, s).n
  }
}
