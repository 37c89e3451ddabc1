/** The lookup the generic texture scope uses to find the query that reads a
    texture target's binding: a switch over eleven targets with 0 as the
    answer for every other target. */
module TextureTargets {
  import opened GlEnums
  import opened GlContext
  import opened GlDriver

  /** The switch of _scope_gl_map_texture_target_to_binding. */
  function MapTextureTargetToBinding(target: int): int {
    if target == GL_TEXTURE_1D then GL_TEXTURE_BINDING_1D
    else if target == GL_TEXTURE_2D then GL_TEXTURE_BINDING_2D
    else if target == GL_TEXTURE_3D then GL_TEXTURE_BINDING_3D
    else if target == GL_TEXTURE_1D_ARRAY then GL_TEXTURE_BINDING_1D_ARRAY
    else if target == GL_TEXTURE_2D_ARRAY then GL_TEXTURE_BINDING_2D_ARRAY
    else if target == GL_TEXTURE_RECTANGLE then GL_TEXTURE_BINDING_RECTANGLE
    else if target == GL_TEXTURE_CUBE_MAP then GL_TEXTURE_BINDING_CUBE_MAP
    else if target == GL_TEXTURE_CUBE_MAP_ARRAY then GL_TEXTURE_BINDING_CUBE_MAP_ARRAY
    else if target == GL_TEXTURE_BUFFER then GL_TEXTURE_BINDING_BUFFER
    else if target == GL_TEXTURE_2D_MULTISAMPLE then GL_TEXTURE_BINDING_2D_MULTISAMPLE
    else if target == GL_TEXTURE_2D_MULTISAMPLE_ARRAY then GL_TEXTURE_BINDING_2D_MULTISAMPLE_ARRAY
    else 0
  }

  /** The same correspondence written as a table from target to binding
      query, the form an independent reading of the switch gives. */
  const BindingTable: map<int, int> := map[
    GL_TEXTURE_1D := GL_TEXTURE_BINDING_1D,
    GL_TEXTURE_2D := GL_TEXTURE_BINDING_2D,
    GL_TEXTURE_3D := GL_TEXTURE_BINDING_3D,
    GL_TEXTURE_1D_ARRAY := GL_TEXTURE_BINDING_1D_ARRAY,
    GL_TEXTURE_2D_ARRAY := GL_TEXTURE_BINDING_2D_ARRAY,
    GL_TEXTURE_RECTANGLE := GL_TEXTURE_BINDING_RECTANGLE,
    GL_TEXTURE_CUBE_MAP := GL_TEXTURE_BINDING_CUBE_MAP,
    GL_TEXTURE_CUBE_MAP_ARRAY := GL_TEXTURE_BINDING_CUBE_MAP_ARRAY,
    GL_TEXTURE_BUFFER := GL_TEXTURE_BINDING_BUFFER,
    GL_TEXTURE_2D_MULTISAMPLE := GL_TEXTURE_BINDING_2D_MULTISAMPLE,
    GL_TEXTURE_2D_MULTISAMPLE_ARRAY := GL_TEXTURE_BINDING_2D_MULTISAMPLE_ARRAY
  ]

  /** The targets the switch knows. */
  predicate IsTextureTarget(target: int) {
    target in BindingTable
  }

  /** The switch and the table agree on every target, and the switch answers
      0 exactly for the targets the table lacks. */
  lemma SwitchMatchesTable(target: int)
    ensures IsTextureTarget(target) ==> MapTextureTargetToBinding(target) == BindingTable[target]
    ensures !IsTextureTarget(target) ==> MapTextureTargetToBinding(target) == 0
  {
  }

  /** A target gets a nonzero binding query exactly when the switch knows it. */
  lemma KnownTargetsOnly(target: int)
    ensures MapTextureTargetToBinding(target) != 0 <==> IsTextureTarget(target)
  {
    SwitchMatchesTable(target);
  }

  /** For a known target the query the switch picks reads exactly that
      target's binding slot; for any other target the query is 0, which
      reads no slot at all. */
  lemma QueryReadsTargetBinding(target: int)
    ensures IsTextureTarget(target) ==>
              IntegerQuery(MapTextureTargetToBinding(target)) == Some(TextureBinding(target))
    ensures !IsTextureTarget(target) ==> IntegerQuery(MapTextureTargetToBinding(target)) == None
  {
    KnownTargetsOnly(target);
  }
}
