/** The uniform scopes. Unlike the binding scopes they are not switched by
    the build's mode: they always read the uniform's old value on entry and
    write it back on exit. The program is read once, on entry; the uniform's
    location is looked up in that program; the glUniform calls themselves act
    on whichever program is current when they run. */
module Uniforms {
  import opened GlEnums
  import opened GlContext
  import opened GlDriver
  import opened Scope

  /** glGetUniformLocation: the location of a named uniform in a program.
      The model takes it as a parameter; it is a pure function of its
      arguments while the program stays linked. */
  type Locator = (int, string) -> int

  /** The program current when the scope is entered. */
  function EnteredProgram(c: Ctx): int {
    IntAt(GetIntegerv(c, GL_CURRENT_PROGRAM), 0)
  }

  /** The location the scope uses, both on entry and on exit. */
  function LocationIn(name: string, locate: Locator, c: Ctx): int {
    locate(EnteredProgram(c), name)
  }

  /** The value glUniform writes on exit when the uniform already holds it. */
  predicate HoldsFloats(c: Ctx, program: int, location: int, n: nat) {
    |GetUniformfv(c, program, location)| == n
  }

  /** scope_glUniformfv: one float is read into `old_val` on entry, the new
      value is set, and `old_val` is set again on exit. */
  function UniformfvFrame(val: Float, name: string, locate: Locator, c: Ctx): Frame {
    var prog := EnteredProgram(c);
    var loc := locate(prog, name);
    var oldVal := FloatAt(GetUniformfv(c, prog, loc), 0);
    Frame([glUniform1f(loc, val)], [glUniform1f(loc, oldVal)])
  }

  /** The block sees `val` in the uniform of the entry program. The exit
      writes the float read on entry into the uniform of whichever program
      is current at exit; when that is the entry program and the uniform
      held one float, the uniform is back to its entry value. Only uniforms
      at the looked-up location are written, and the exit mirrors the
      entry. */
  lemma UniformfvEffect(val: Float, name: string, locate: Locator, c: Ctx)
    ensures var f := UniformfvFrame(val, name, locate, c);
            var loc := LocationIn(name, locate, c);
            && Get(Entered(f, c), UniformValue(EnteredProgram(c), loc)) == Floats([val])
            && (forall x :: Get(ExecAll(x, f.exit), UniformValue(NameOf(x, CurrentProgram), loc))
                            == Floats([FloatAt(GetUniformfv(c, EnteredProgram(c), loc), 0)]))
            && (HoldsFloats(c, EnteredProgram(c), loc, 1) ==>
                  forall x :: NameOf(x, CurrentProgram) == EnteredProgram(c) ==>
                    Get(ExecAll(x, f.exit), UniformValue(EnteredProgram(c), loc))
                    == Get(c, UniformValue(EnteredProgram(c), loc)))
            && OnlyChanges(c, Entered(f, c), UniformValue(EnteredProgram(c), loc))
            && (forall x :: OnlyChanges(x, ExecAll(x, f.exit), UniformValue(NameOf(x, CurrentProgram), loc)))
            && Confined(f, UniformSlots(loc)) && Mirrors(f)
  {
    var prog := EnteredProgram(c);
    var loc := locate(prog, name);
    var oldVal := FloatAt(GetUniformfv(c, prog, loc), 0);
    OneCallFrame(glUniform1f(loc, val), glUniform1f(loc, oldVal));
    if HoldsFloats(c, prog, loc, 1) {
      var fs := GetUniformfv(c, prog, loc);
      assert fs == [fs[0]];
    }
  }

  /** The sixteen floats the matrix scope captures: what glGetUniformfv
      writes into the 16-element array, unwritten elements read as 0. */
  function Captured16(written: seq<Float>): (m: seq<Float>)
    ensures |m| == 16
    ensures |written| >= 16 ==> m == written[..16]
    ensures forall i :: 0 <= i < 16 && i < |written| ==> m[i] == written[i]
    ensures forall i :: |written| <= i < 16 ==> m[i] == ZeroFloat
  {
    seq(16, i requires 0 <= i < 16 => FloatAt(written, i))
  }

  /** scope_glUniformMatrix4fv: the sixteen floats of the uniform are read on
      entry, `matrix` is set, and the read floats are set again on exit. */
  function UniformMatrix4fvFrame(matrix: seq<Float>, name: string, locate: Locator, c: Ctx): Frame {
    var prog := EnteredProgram(c);
    var loc := locate(prog, name);
    var mat := Captured16(GetUniformfv(c, prog, loc));
    Frame([glUniformMatrix4fv(loc, matrix)], [glUniformMatrix4fv(loc, mat)])
  }

  /** The same for the matrix scope, with sixteen floats in place of one. */
  lemma UniformMatrix4fvEffect(matrix: seq<Float>, name: string, locate: Locator, c: Ctx)
    requires |matrix| == 16
    ensures var f := UniformMatrix4fvFrame(matrix, name, locate, c);
            var loc := LocationIn(name, locate, c);
            && Get(Entered(f, c), UniformValue(EnteredProgram(c), loc)) == Floats(matrix)
            && (forall x :: Get(ExecAll(x, f.exit), UniformValue(NameOf(x, CurrentProgram), loc))
                            == Floats(Captured16(GetUniformfv(c, EnteredProgram(c), loc))))
            && (HoldsFloats(c, EnteredProgram(c), loc, 16) ==>
                  forall x :: NameOf(x, CurrentProgram) == EnteredProgram(c) ==>
                    Get(ExecAll(x, f.exit), UniformValue(EnteredProgram(c), loc))
                    == Get(c, UniformValue(EnteredProgram(c), loc)))
            && OnlyChanges(c, Entered(f, c), UniformValue(EnteredProgram(c), loc))
            && (forall x :: OnlyChanges(x, ExecAll(x, f.exit), UniformValue(NameOf(x, CurrentProgram), loc)))
            && Confined(f, UniformSlots(loc)) && Mirrors(f)
  {
    var prog := EnteredProgram(c);
    var loc := locate(prog, name);
    var mat := Captured16(GetUniformfv(c, prog, loc));
    OneCallFrame(glUniformMatrix4fv(loc, matrix), glUniformMatrix4fv(loc, mat));
    if HoldsFloats(c, prog, loc, 16) {
      assert GetUniformfv(c, prog, loc) == mat;
    }
  }
}
