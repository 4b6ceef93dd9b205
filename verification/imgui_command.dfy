/**
 The render command that the ImGui drawing code recycles, reduced to the fields
 that code reads or writes, and `setupRenderCmd`, which configures a freshly
 created command for ImGui's vertex format.
 */
module ImGuiCommand {

  import opened Wrappers

  /** Address of a shader program object; commands are compatible when they use the same one. */
  type ShaderId = nat
  /** An ImGui texture id, which the code reinterprets as a texture object. */
  type TextureId = nat
  /** The orthographic projection uploaded to the `projection` uniform; only stored. */
  type Matrix = seq<real>

  /** `GL_TRIANGLES` of the OpenGL specification. */
  const GL_TRIANGLES: nat := 0x0004

  /** What the ImGui drawer owns once constructed: its shader program, the HUD
      layer base of the scene graph, and the number of floats per `ImDrawVert`. */
  datatype Env = Env(shader: ShaderId, hudLayer: nat, floatsPerVertex: nat)

  datatype Scissor = Scissor(x: int, y: int, width: int, height: int)

  /** The vertex and index data a command draws from: never set by this code yet,
      an upload it owns, or the buffers of another command (named by its id). */
  datatype Buffers = Unset | Owned(vertexFloats: nat, indices: nat) | SharedWith(owner: nat)

  /** Everything `draw` sets on a command it submits, always together. */
  datatype Placement = Placement(scissor: Scissor, numIndices: nat, firstIndex: nat,
                                 layer: nat, texture: TextureId)

  datatype Cmd = Cmd(
    id: nat,                    // identity of the heap object
    imguiProfiling: bool,       // profiling type IMGUI
    shader: ShaderId,
    textureUnit: int,           // value of the `uTexture` uniform
    transparent: bool,
    floatsPerVertex: nat,
    primitive: nat,             // draw parameters: primitive, first vertex, vertex count
    firstVertex: int,
    numVertices: int,
    projection: Option<Matrix>, // value of the `projection` uniform, once uploaded
    buffers: Buffers,
    placement: Option<Placement>)

  /** A command the pool may hand out for ImGui drawing: it uses ImGui's shader. */
  predicate Compatible(c: Cmd, shader: ShaderId)
  {
    c.shader == shader
  }

  /** The configuration `setupRenderCmd` gives a command and that drawing never changes. */
  predicate Configured(c: Cmd, env: Env)
  {
    && Compatible(c, env.shader)
    && c.imguiProfiling
    && c.textureUnit == 0
    && c.transparent
    && c.floatsPerVertex == env.floatsPerVertex
    && c.primitive == GL_TRIANGLES && c.firstVertex == 0 && c.numVertices == 0
  }

  /** A new command (`makeUnique<RenderCommand>()`) configured by `setupRenderCmd`.
      Nothing has been uploaded to it and it has never been placed. */
  function SetupRenderCmd(id: nat, env: Env): (c: Cmd)
    ensures c.id == id && Configured(c, env)
    ensures c.projection == None && c.buffers == Unset && c.placement == None
  {
    Cmd(id, true, env.shader, 0, true, env.floatsPerVertex, GL_TRIANGLES, 0, 0, None, Unset, None)
  }
}
