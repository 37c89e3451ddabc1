/** The OpenGL enumerants the scope macros use, with the values the OpenGL
    headers give them. Only their identity matters to the model: which query
    reads which slot, and which target names which binding point. */
module GlEnums {

  // Texture targets (the first argument of glBindTexture)
  const GL_TEXTURE_1D: int := 0x0DE0
  const GL_TEXTURE_2D: int := 0x0DE1
  const GL_TEXTURE_3D: int := 0x806F
  const GL_TEXTURE_1D_ARRAY: int := 0x8C18
  const GL_TEXTURE_2D_ARRAY: int := 0x8C1A
  const GL_TEXTURE_RECTANGLE: int := 0x84F5
  const GL_TEXTURE_CUBE_MAP: int := 0x8513
  const GL_TEXTURE_CUBE_MAP_ARRAY: int := 0x9009
  const GL_TEXTURE_BUFFER: int := 0x8C2A
  const GL_TEXTURE_2D_MULTISAMPLE: int := 0x9100
  const GL_TEXTURE_2D_MULTISAMPLE_ARRAY: int := 0x9102

  // The matching binding queries (the pname of glGetIntegerv)
  const GL_TEXTURE_BINDING_1D: int := 0x8068
  const GL_TEXTURE_BINDING_2D: int := 0x8069
  const GL_TEXTURE_BINDING_3D: int := 0x806A
  const GL_TEXTURE_BINDING_1D_ARRAY: int := 0x8C1C
  const GL_TEXTURE_BINDING_2D_ARRAY: int := 0x8C1D
  const GL_TEXTURE_BINDING_RECTANGLE: int := 0x84F6
  const GL_TEXTURE_BINDING_CUBE_MAP: int := 0x8514
  const GL_TEXTURE_BINDING_CUBE_MAP_ARRAY: int := 0x900A
  const GL_TEXTURE_BINDING_BUFFER: int := 0x8C2C
  const GL_TEXTURE_BINDING_2D_MULTISAMPLE: int := 0x9104
  const GL_TEXTURE_BINDING_2D_MULTISAMPLE_ARRAY: int := 0x9105

  // Buffer, framebuffer and renderbuffer targets
  const GL_ARRAY_BUFFER: int := 0x8892
  const GL_SHADER_STORAGE_BUFFER: int := 0x90D2
  const GL_FRAMEBUFFER: int := 0x8D40
  const GL_READ_FRAMEBUFFER: int := 0x8CA8
  const GL_DRAW_FRAMEBUFFER: int := 0x8CA9
  const GL_RENDERBUFFER: int := 0x8D41

  // Other state queries
  const GL_CURRENT_PROGRAM: int := 0x8B8D
  const GL_VERTEX_ARRAY_BINDING: int := 0x85B5
  const GL_ARRAY_BUFFER_BINDING: int := 0x8894
  const GL_SHADER_STORAGE_BUFFER_BINDING: int := 0x90D3
  const GL_FRAMEBUFFER_BINDING: int := 0x8CA6
  const GL_VIEWPORT: int := 0x0BA2
  const GL_COLOR_CLEAR_VALUE: int := 0x0C22
  const GL_BLEND_DST: int := 0x0BE0
  const GL_BLEND_SRC: int := 0x0BE1
  const GL_BLEND_EQUATION: int := 0x8009
  const GL_CULL_FACE_MODE: int := 0x0B45
  const GL_FRONT_FACE: int := 0x0B46

  // A capability, used by the scenarios
  const GL_BLEND: int := 0x0BE2
}
