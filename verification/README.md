# scope_gl in Dafny

`scope_gl.h` is a header of C macros. Each macro wraps a block in an
"enter / run the block once / exit" scope for one piece of OpenGL state:
the current program, a texture binding, a capability flag, the viewport,
and so on.

- In the restoring build (`SCOPE_GL_RESTORE_STATE` defined), a scope reads
  the old value, sets the new one and writes the old value back on exit.
- In the resetting build, a scope sets the new value and writes a fixed
  neutral value (unbind, disable, zero) on exit.

This project models that header and proves what its users rely on:

- restoring wins over whatever the block does;
- resetting ends at the neutral value;
- a scope writes only its own slots;
- nested scopes unwind innermost first;
- a few macros do not restore at all.

## Structure

| file | module | models |
|---|---|---|
| `gl_enums.dfy` | `GlEnums` | the OpenGL enumerant values the macros use |
| `gl_context.dfy` | `GlContext` | the graphics context: a map from state slots to values of the slot's shape; an absent slot reads as zero |
| `gl_driver.dfy` | `GlDriver` | the GL calls the macros make, as a `Call` datatype run by `Exec`; the queries (`glGetIntegerv` and the rest) as functions of the context |
| `scope.dfy` | `Scope` | the scope primitive: a `Frame` of enter and exit calls, one scope around a block (`Run`), the `for`-loop itself (`ForScope`) and nesting (`Nest`) |
| `texture_targets.dfy` | `TextureTargets` | `_scope_gl_map_texture_target_to_binding` |
| `bindings.dfy` | `Bindings` | every `_restore_*` and `_unset_*` binding macro, and the switch between the two families |
| `uniforms.dfy` | `Uniforms` | `scope_glUniformfv` and `scope_glUniformMatrix4fv` |
| `properties.dfy` | `ScopeProperties` | properties over arbitrary blocks, and worked cases |

The block is an arbitrary function `Body = Ctx -> Ctx`. The macros write
`glGetIntegerv(pname, &var)` into an uninitialised local. Here that read is
`ReadInto(GetIntegerv(c, pname), unwritten)`: what the query writes, or, when
it writes nothing, `unwritten`, an arbitrary integer standing for whatever
the local held. Every lemma about the switch holds for every value of
`unwritten`. The restoring macros are functions of the context at entry,
because they capture it. The resetting macros are not.

A GL call that addresses an object through a binding acts on the object
bound when the call runs:

- `glTexParameteri` acts on the texture bound to GL_TEXTURE_2D;
- `glFramebufferTexture2D` and `glFramebufferRenderbuffer` act on the
  framebuffer bound to their target;
- `glUniform*` acts on the current program.

So the model can state what happens when the block changes those bindings.

## Model

| member | source | states |
|---|---|---|
| Scope.RunKeeps | scope_gl.h:248-249 | one scope around a block that completes normally: a slot no enter call writes reaches the block unchanged, and a slot no exit call writes holds what the block left |
| Scope.ForScope | scope_gl.h:248-249 | the `for` loop runs the enter calls first and the block exactly once; after a fall-through or `continue` it runs the exit calls exactly once, after a `break` or `return` out of its own block it never does |
| Scope.OneCallFrame | scope_gl.h:248-249 | a scope of one enter and one exit call on the same slots has its exit mirror its entry and writes nothing else |
| Scope.SetterFrame | scope_gl.h:248-249 | when both calls set exactly one slot, the block sees the entered value from any context, and after any block the slot holds the exit call's value |
| Scope.NestIsLifo | scope_gl.h:248-249 | nested scopes run every enter call outermost first, then the block, then every exit call innermost first |
| Scope.ExitsInReverse | scope_gl.h:248-249 | for scope i outside scope j, all of j's exit calls come before any of i's |
| Scope.ExitOffset | scope_gl.h:248-249 | each scope's exit calls appear as one contiguous run inside the nest's exit sequence |
| ScopeProperties.OpenAllIsLifo | scope_gl.h:248-249 | nested binding scopes are a nest of their frames, each built from the context at its own entry; so they run every enter call outermost first, then the block, then every exit call innermost first |
| TextureTargets.SwitchMatchesTable | scope_gl.h:251-266 | the switch agrees with the eleven-entry target-to-binding table, and answers 0 for every other target |
| TextureTargets.KnownTargetsOnly | scope_gl.h:251-266 | the answer is nonzero exactly for the eleven known targets |
| TextureTargets.QueryReadsTargetBinding | scope_gl.h:118 | the generic texture scope's query reads exactly the target's own binding for a known target; for any other target it reads nothing |
| Bindings.UseProgramScopes | scope_gl.h:107-110 | the block sees program `id` current; afterwards the entry program is current (restore) or program 0 (reset); nothing else is written |
| Bindings.BindVertexArrayScopes | scope_gl.h:112-115 | the same for the vertex-array binding |
| Bindings.BindTextureScopes | scope_gl.h:117-120 | the same for the texture bound to `target`; the restoring scope gets the entry binding back only for a target the lookup knows; for any other target its query writes nothing and the exit binds whatever the uninitialised local held |
| Bindings.BindTexture2DScopes | scope_gl.h:122-125 | the same for GL_TEXTURE_2D |
| Bindings.BindBufferScope | scope_gl.h:130 | the resetting buffer scope binds `buffer` for the block and no buffer afterwards |
| Bindings.BindArrayBufferScopes | scope_gl.h:132-135 | the same as the program scopes, for the GL_ARRAY_BUFFER binding |
| Bindings.EnableScopes | scope_gl.h:137-140 | the flag is on for the block; afterwards it is as it was (restore) or off (reset) |
| Bindings.DisableScopes | scope_gl.h:142-145 | the flag is off for the block; afterwards it is as it was (restore) or on (reset) |
| Bindings.BindFramebufferScopes | scope_gl.h:147-150 | `fbo` is bound for the block; the restoring exit binds what `glGetIntegerv(target)` left in the local, which for every framebuffer target is whatever the uninitialised local held, independent of the entry binding; the resetting exit binds 0 |
| Bindings.BindFBOScopes | scope_gl.h:152-155 | the same as the program scopes, for the GL_FRAMEBUFFER binding |
| Bindings.FramebufferTextureEffect | scope_gl.h:162-167 | the block sees the texture attached to the framebuffer bound at entry; after any block, the attachment of the framebuffer bound at exit is empty; each call changes only that one attachment of the framebuffer bound when it runs |
| Bindings.BindRenderbufferEffect | scope_gl.h:170-173 | the renderbuffer is bound for the block and none afterwards, in both families |
| Bindings.FramebufferRenderbufferEffect | scope_gl.h:180-185 | the renderbuffer is attached for the block, and the attachment is empty afterwards; each call changes only that attachment of the framebuffer bound to GL_FRAMEBUFFER when it runs; the scope is the same whatever `fbo` is passed |
| Bindings.ViewportScopes | scope_gl.h:187-190 | all four components are set for the block; afterwards all four are back (restore) or all zero (reset) |
| Bindings.ClearColorScopes | scope_gl.h:192-195 | the same for the four clear-colour components |
| Bindings.BlendFuncScopes | scope_gl.h:197-200 | the same for the (src, dst) pair; reset leaves (0, 0) |
| Bindings.BlendEquationScopes | scope_gl.h:202-205 | the same as the program scopes, for the blend equation |
| Bindings.CullFaceScopes | scope_gl.h:208-211 | the same as the program scopes, for the cull-face mode |
| Bindings.FrontFaceScope | scope_gl.h:214-216 | the restoring front-face scope gives the block `orient` and restores the entry winding |
| Bindings.SsboFrameEffect | scope_gl.h:220-223 | entry binds the generic point, then the indexed point; exit unbinds them in the opposite order; both points hold `ssbo` for the block and the exit value afterwards |
| Bindings.BindSSBOScopes | scope_gl.h:220-223 | the restoring scope leaves both points at the generic point's entry binding, so the indexed point does not get its own back; the resetting scope leaves both at 0 |
| Bindings.RestoreTex2DParameterEffect | scope_gl.h:227-229 | the block sees `val` in the parameter of the texture bound at entry; the exit writes the entry value into the parameter of the texture bound at exit; each call changes only that parameter of the texture bound to GL_TEXTURE_2D when it runs |
| Bindings.UnsetTex2DParameterEffect | scope_gl.h:230 | the resetting exit writes 0 into the parameter of the texture bound at exit; each call changes only that parameter of the texture then bound |
| Bindings.FrameOfSpec | scope_gl.h:58-104 | for every scope that builds, in either family, the scope writes only its footprint and mirrors its entry; a direct scope shows the block its new value; restorable scopes put back the entry value; resetting scopes leave the neutral value |
| Uniforms.UniformfvEffect | scope_gl.h:238-241 | the block sees `val` in the uniform of the entry program; the exit writes the float read at entry at the same location of the program current at exit, so the uniform is restored when the block leaves the entry program current; each call changes only the uniform at that location of the program current when it runs |
| Uniforms.UniformMatrix4fvEffect | scope_gl.h:234-237 | the same for the sixteen floats of a matrix uniform |
| Uniforms.Captured16 | scope_gl.h:236 | the captured matrix always has sixteen floats; when the uniform holds at least sixteen it is exactly the uniform's first sixteen, and a shorter uniform's floats come first, followed by zeros |
| ScopeProperties.RestoreWins | scope_gl.h:58-80 | in the restoring build, a restorable scope leaves its slot at the entry value whatever the block does, including writing that slot |
| ScopeProperties.ResetLeavesNeutral | scope_gl.h:81-104 | in the resetting build, a direct scope leaves its slot at the neutral value whatever it held and whatever the block does |
| ScopeProperties.NeutralIsZeroExceptDisable | scope_gl.h:110-145 | the neutral value is the slot's zero for every direct scope except `_unset_glDisable`, whose exit enables |
| ScopeProperties.OutsideFootprintUnchanged | scope_gl.h:248-249 | a slot outside a scope's footprint is unchanged for the block and after the scope holds what the block left |
| ScopeProperties.EmptyRestoreIsNoop | scope_gl.h:58-80 | a restoring scope around an empty block leaves every slot as it was |
| ScopeProperties.NestedRestore | scope_gl.h:248-249 | after any depth of nested restorable scopes, every one of their slots is back to its value before the outermost |
| ScopeProperties.NestedDistinctSlots | scope_gl.h:248-249 | the block inside two nested scopes on different slots sees the outer scope's new value in the outer slot; when the inner scope exits, the inner slot has reverted and the outer slot still holds what the block left there |
| ScopeProperties.SequentialRestore | scope_gl.h:58-80 | any number of restoring scopes on one slot, opened one after another, leave the slot at its value before the first |
| ScopeProperties.AttachmentScopesIgnoreMode | scope_gl.h:162-185 | the framebuffer-texture, renderbuffer and framebuffer-renderbuffer scopes are identical in both builds |
| ScopeProperties.FramebufferTextureDetaches | scope_gl.h:162-167 | after the scope, in either build, the attachment is empty whatever was attached before |
| ScopeProperties.FramebufferRenderbufferDetaches | scope_gl.h:180-185 | the same for the renderbuffer attachment; the `fbo` argument makes no difference |
| ScopeProperties.RenderbufferUnbinds | scope_gl.h:170-173 | after the scope, in either build, no renderbuffer is bound |
| ScopeProperties.RestoreFramebufferForgetsBinding | scope_gl.h:147-149 | for every framebuffer target, the restoring generic framebuffer scope leaves the target bound to whatever its uninitialised local held, whatever was bound before and whatever the block does |
| ScopeProperties.UnknownTextureTargetForgetsBinding | scope_gl.h:117-119 | the restoring generic texture scope on a target the lookup does not know leaves the target bound to whatever its uninitialised local held, whatever was bound before |
| ScopeProperties.SsboScope | scope_gl.h:220-223 | the entry/exit call order of the shader-storage scope, and where both points end up in each build |
| ScopeProperties.Tex2DParameterRestoresBoundTexture | scope_gl.h:227-229 | the restored parameter value goes to the texture bound at the block's end |
| ScopeProperties.UniformfvRestores | scope_gl.h:238-241 | the float uniform scope's end state, for any block |
| ScopeProperties.UniformMatrix4fvRestores | scope_gl.h:234-237 | the matrix uniform scope restores the uniform when the block leaves the entry program current |
| ScopeProperties.TextureScenario | scope_gl.h:122-124 | no 2D texture bound; a scope binding 7 shows 7 to the block, and 0 afterwards |
| ScopeProperties.BlendScenario | scope_gl.h:137-140 | blending off; an enabling scope shows it on to the block and off afterwards, in both builds |
| ScopeProperties.ViewportScenario | scope_gl.h:187-189 | viewport (0, 0, 800, 600); a scope of (10, 10, 100, 100) leaves all four components as they were |
| ScopeProperties.ResetProgramScenario | scope_gl.h:110 | program 3 current; in the resetting build a program scope of 9 leaves program 0, not 3 |
| ScopeProperties.NestedTextureScenario | scope_gl.h:117-119 | 2D texture 5 outside, 3D texture 6 inside: at the inner exit the 3D binding is back and the 2D binding is still 5 |
| ScopeProperties.NestedTextureUnwinds | scope_gl.h:117-119 | the same two scopes: at the outer exit both bindings are back |

## Left out

- The OpenGL driver itself. It is replaced by a map from slots to values.
  GL errors, invalid enumerants and invalid handles are not modelled. The
  one exception is a query for a pname the model does not know: it writes
  nothing.
- Couplings between slots that the API defines, such as `glBindBufferBase`
  also binding the generic point, or GL_FRAMEBUFFER standing for both the
  draw and the read binding. Every call here writes its own slot only.
- Preprocessor mechanics: `UQ`/`__LINE__` unique names and their same-line
  collision, `##ext` token pasting and `typeof`. Of the texture-parameter
  flavours, only the integer one (`ext` = `i`) is modelled.
- `_unset_glBindSSBO` passes its own parameter `ssbo` as the `var` argument
  of `scope_begin_end_var` (scope_gl.h:223), and `UQ` pastes the caller's
  argument onto `__LINE__`. The macro therefore builds only when that
  argument is a plain identifier: `scope_glBindSSBO(bufs[i], 0)` or
  `scope_glBindSSBO(5, 0)` do not build. The model treats every argument
  as building.
- Macros that do not build. These cannot be expanded (`Expands` is false
  for them), so their contracts are not modelled:
  - `_restore_glBindBuffer` names `vbo` and `old_vbo`, which it never
    declares;
  - `_unset_glFrontFace` calls `glFrontface`;
  - `scope_glFramebufferTex2D` expands to `_restore_glFramebufferTex2D` /
    `_unset_glFramebufferTex2D`, which the header never defines, so it has
    no `Op`.
- `glGetBooleanv` writing one `GLboolean` into a `GLint` (scope_gl.h:138,
  143). The model reads the flag as the boolean itself. The bytes the call
  leaves uninitialised are not modelled.
- Uninitialised arrays. A single `GLint` local that its query leaves
  unwritten is the parameter `unwritten`. In nested scopes
  (`ScopeProperties.OpenAll`, `ScopeProperties.FramesOf`) every scope's
  local gets the same `unwritten`. In the source each has its own local,
  which may hold a different value. This matters only for the generic
  framebuffer scope and for a texture target the lookup does not know. An element of an output array
  that the query does not write reads as 0 (`IntAt`, `FloatAt`,
  `Uniforms.Captured16`). The array queries the binding scopes make
  (GL_VIEWPORT, GL_COLOR_CLEAR_VALUE) write every element. The uniform
  scopes read an unwritten element only when the uniform holds fewer floats
  than their local.
- Bindings.BindFramebufferScopes: the model does not know what
  `glGetIntegerv` returns for a pname other than the binding queries. For a
  non-framebuffer target, the restoring exit binds whatever that query
  wrote, and the lemma states only that.
- Exit on every path. The header's own comment (scope_gl.h:5-7) says
  consistent use of the scopes "should make state leaks impossible". The
  code does not guarantee that. `break` leaves only the innermost `for`, so
  the innermost scope skips its exit. Every enclosing scope still runs its
  exit, because its own block completed. `return` (or `goto` out) skips
  every enclosing scope's exit. `Scope.ForScope` models one scope's loop.
  Every other member models only blocks that complete normally.
- Texture units. The model has a single texture unit (no
  `glActiveTexture`).
- Float content. Floats are opaque 32-bit patterns that are only copied,
  with no arithmetic.
- The uniform scopes and the current program. The uniform's location is
  looked up in the program captured at entry, both on entry and on exit.
  But `glUniform1f` and `glUniformMatrix4fv` write the program current when
  they run. So the restore is proved only when the block leaves the entry
  program current.
- `glGetUniformLocation` is a parameter (`Locator`), not modelled.
- Uniforms.UniformfvEffect, Uniforms.UniformMatrix4fvEffect: the old
  uniform value is restored only when it held exactly one (or sixteen)
  floats. The exit writes one float (or sixteen). So a larger uniform comes
  back truncated to its first float (or first sixteen), and a smaller
  matrix uniform comes back padded with zeros. For a larger uniform, the
  source's `glGetUniformfv` also writes every float into the single
  `GLfloat old_val` (or the sixteen-element `mat`) and overflows it. That
  overflow is not modelled.
