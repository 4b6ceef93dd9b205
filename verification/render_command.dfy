/**
 The record types a render command carries: a material (colour and texture
 name), a transformation (scale and position) and a geometry (draw type,
 vertex range and two data pointers), bundled with a priority and a sort key.

 Colour components and scale factors are `GLfloat`s that are only stored and
 read back, never computed with, so they are modelled as `real`.
 */
module RenderCommand {

  import opened CTypes

  type GLuint = x: int | 0 <= x < 0x1_0000_0000
  type GLint = x: int | -0x8000_0000 <= x < 0x8000_0000
  type GLsizei = GLint
  type GLenum = GLuint
  type GLfloat = real

  /** `GL_TRIANGLES` of the OpenGL specification. */
  const GL_TRIANGLES: GLenum := 0x0004

  // ---------------------------------------------------------------------
  // ncRenderMaterial

  datatype Color = Color(r: GLfloat, g: GLfloat, b: GLfloat, a: GLfloat)

  datatype Material = Material(color: Color, textureGLId: GLuint)

  /** Opaque white, the colour every constructor without a colour argument uses. */
  const White: Color := Color(1.0, 1.0, 1.0, 1.0)

  /** `ncRenderMaterial(fColor, uTextureGLId)`: copies the first four entries of the array. */
  function MaterialOf(fColor: seq<GLfloat>, textureGLId: GLuint): (m: Material)
    requires |fColor| >= 4
    ensures TextureGLId(m) == textureGLId
    ensures m.color.r == fColor[0] && m.color.g == fColor[1]
    ensures m.color.b == fColor[2] && m.color.a == fColor[3]
  {
    Material(Color(fColor[0], fColor[1], fColor[2], fColor[3]), textureGLId)
  }

  /** `ncRenderMaterial(uTextureGLId)`: a white material with the given texture. */
  function MaterialWithTexture(textureGLId: GLuint): (m: Material)
    ensures TextureGLId(m) == textureGLId && m.color == White
  {
    Material(White, textureGLId)
  }

  /** `ncRenderMaterial()`: white and untextured (texture name 0). */
  function DefaultMaterial(): (m: Material)
    ensures TextureGLId(m) == 0 && m.color == White
    ensures m == MaterialWithTexture(0)
  {
    Material(White, 0)
  }

  /** `SetColor(fR, fG, fB, fA)`. */
  function SetColor(m: Material, r: GLfloat, g: GLfloat, b: GLfloat, a: GLfloat): (res: Material)
    ensures res.color.r == r && res.color.g == g && res.color.b == b && res.color.a == a
    ensures TextureGLId(res) == TextureGLId(m)
  {
    m.(color := Color(r, g, b, a))
  }

  /** `SetColor(fColor[4])`: the array overload agrees with the component overload. */
  function SetColorArray(m: Material, fColor: seq<GLfloat>): (res: Material)
    requires |fColor| >= 4
    ensures res == SetColor(m, fColor[0], fColor[1], fColor[2], fColor[3])
    ensures res == MaterialOf(fColor, TextureGLId(m))
  {
    m.(color := Color(fColor[0], fColor[1], fColor[2], fColor[3]))
  }

  function TextureGLId(m: Material): GLuint
  {
    m.textureGLId
  }

  /** `SetTextureGLId`. */
  function SetTextureGLId(m: Material, textureGLId: GLuint): (res: Material)
    ensures TextureGLId(res) == textureGLId && res.color == m.color
  {
    m.(textureGLId := textureGLId)
  }

  /** Setting the texture and reading it back yields the value set; setting it twice
      keeps the later value; setting the value already there changes nothing; setting
      the texture and setting the colour commute. */
  lemma TextureRoundTrip(m: Material, t: GLuint, u: GLuint, r: GLfloat, g: GLfloat, b: GLfloat, a: GLfloat)
    ensures TextureGLId(SetTextureGLId(m, t)) == t
    ensures SetTextureGLId(SetTextureGLId(m, t), u) == SetTextureGLId(m, u)
    ensures SetTextureGLId(m, TextureGLId(m)) == m
    ensures SetColor(SetTextureGLId(m, t), r, g, b, a) == SetTextureGLId(SetColor(m, r, g, b, a), t)
  {
  }

  // ---------------------------------------------------------------------
  // ncRenderTransformation

  /** `ncPoint` is not part of this model; its coordinates are taken as integers. */
  datatype Point = Point(x: int, y: int)

  datatype Transformation = Transformation(scaleX: GLfloat, scaleY: GLfloat, position: Point)

  /** `ncRenderTransformation()`: unit scale at the origin. */
  function DefaultTransformation(): (t: Transformation)
    ensures t.scaleX == 1.0 && t.scaleY == 1.0 && t.position == Point(0, 0)
    ensures t == TransformationAt(Point(0, 0))
  {
    Transformation(1.0, 1.0, Point(0, 0))
  }

  /** `ncRenderTransformation(position)`: unit scale at the given position. */
  function TransformationAt(position: Point): (t: Transformation)
    ensures t.scaleX == 1.0 && t.scaleY == 1.0 && t.position == position
  {
    Transformation(1.0, 1.0, position)
  }

  /** `SetScale`: only the scale changes. */
  function SetScale(t: Transformation, scaleX: GLfloat, scaleY: GLfloat): (res: Transformation)
    ensures res.scaleX == scaleX && res.scaleY == scaleY && res.position == t.position
  {
    t.(scaleX := scaleX, scaleY := scaleY)
  }

  /** `SetPosition`: only the position changes. */
  function SetPosition(t: Transformation, position: Point): (res: Transformation)
    ensures res.position == position && res.scaleX == t.scaleX && res.scaleY == t.scaleY
  {
    t.(position := position)
  }

  /** Scale and position are independent: the two setters commute. */
  lemma ScaleAndPositionCommute(t: Transformation, sx: GLfloat, sy: GLfloat, p: Point)
    ensures SetPosition(SetScale(t, sx, sy), p) == SetScale(SetPosition(t, p), sx, sy)
    ensures SetScale(SetPosition(t, p), sx, sy) == Transformation(sx, sy, p)
  {
  }

  // ---------------------------------------------------------------------
  // ncRenderGeometry

  /** A `GLfloat *`: null or some address. */
  datatype Pointer = Null | Address(addr: nat)

  datatype Geometry = Geometry(drawType: GLenum, firstVertex: GLint, numVertices: GLsizei,
                               vertices: Pointer, texCoords: Pointer)

  /** The five-argument constructor stores its arguments. */
  function GeometryOf(drawType: GLenum, firstVertex: GLint, numVertices: GLsizei,
                      vertices: Pointer, texCoords: Pointer): (g: Geometry)
    ensures g.drawType == drawType && g.firstVertex == firstVertex && g.numVertices == numVertices
    ensures g.vertices == vertices && g.texCoords == texCoords
  {
    Geometry(drawType, firstVertex, numVertices, vertices, texCoords)
  }

  /** The three-argument constructor draws triangles from vertex 0. */
  function TriangleGeometry(numVertices: GLsizei, vertices: Pointer, texCoords: Pointer): (g: Geometry)
    ensures g == GeometryOf(GL_TRIANGLES, 0, numVertices, vertices, texCoords)
  {
    Geometry(GL_TRIANGLES, 0, numVertices, vertices, texCoords)
  }

  /** The default constructor: no vertices, null pointers. */
  function DefaultGeometry(): (g: Geometry)
    ensures g == TriangleGeometry(0, Null, Null)
    ensures g.drawType == GL_TRIANGLES && g.firstVertex == 0 && g.numVertices == 0
    ensures g.vertices == Null && g.texCoords == Null
  {
    Geometry(GL_TRIANGLES, 0, 0, Null, Null)
  }

  /** `SetData`: every field is overwritten, so the previous geometry is forgotten. */
  function SetData(g: Geometry, drawType: GLenum, firstVertex: GLint, numVertices: GLsizei,
                   vertices: Pointer, texCoords: Pointer): (res: Geometry)
    ensures res == GeometryOf(drawType, firstVertex, numVertices, vertices, texCoords)
  {
    g.(drawType := drawType, firstVertex := firstVertex, numVertices := numVertices,
       vertices := vertices, texCoords := texCoords)
  }

  /** `SetData` does not depend on the geometry it overwrites. */
  lemma SetDataForgetsPrevious(g: Geometry, h: Geometry, drawType: GLenum, firstVertex: GLint,
                               numVertices: GLsizei, vertices: Pointer, texCoords: Pointer)
    ensures SetData(g, drawType, firstVertex, numVertices, vertices, texCoords)
         == SetData(h, drawType, firstVertex, numVertices, vertices, texCoords)
  {
  }

  // ---------------------------------------------------------------------
  // ncRenderCommand

  /** The sort key is stored and read; how `CalculateSortKey` fills it is not part of this model. */
  datatype Command = Command(sortKey: ULong, priority: int32, material: Material,
                             transformation: Transformation, geometry: Geometry)

  newtype int32 = x: int | -0x8000_0000 <= x < 0x8000_0000

  function Priority(c: Command): int32
  {
    c.priority
  }

  function SortKey(c: Command): ULong
  {
    c.sortKey
  }

  /** `SetPriority`: only the priority changes; the stored sort key is left as it was. */
  function SetPriority(c: Command, priority: int32): (res: Command)
    ensures Priority(res) == priority && SortKey(res) == SortKey(c)
    ensures res.material == c.material && res.transformation == c.transformation
    ensures res.geometry == c.geometry
  {
    c.(priority := priority)
  }

  /** The mutable `Material()` accessor: a caller replaces the material, nothing else. */
  function SetMaterial(c: Command, m: Material): (res: Command)
    ensures res.material == m && Priority(res) == Priority(c) && SortKey(res) == SortKey(c)
    ensures res.transformation == c.transformation && res.geometry == c.geometry
  {
    c.(material := m)
  }

  /** The mutable `Transformation()` accessor. */
  function SetTransformation(c: Command, t: Transformation): (res: Command)
    ensures res.transformation == t && Priority(res) == Priority(c) && SortKey(res) == SortKey(c)
    ensures res.material == c.material && res.geometry == c.geometry
  {
    c.(transformation := t)
  }

  /** The mutable `Geometry()` accessor. */
  function SetGeometry(c: Command, g: Geometry): (res: Command)
    ensures res.geometry == g && Priority(res) == Priority(c) && SortKey(res) == SortKey(c)
    ensures res.material == c.material && res.transformation == c.transformation
  {
    c.(geometry := g)
  }

  /** Setting a priority and reading it back yields it; the sort key is not recomputed
      by any setter, so a stale key survives every field update. */
  lemma PriorityRoundTrip(c: Command, p: int32, m: Material, t: Transformation, g: Geometry)
    ensures Priority(SetPriority(c, p)) == p
    ensures SortKey(SetGeometry(SetTransformation(SetMaterial(SetPriority(c, p), m), t), g)) == SortKey(c)
    ensures SetPriority(SetPriority(c, p), Priority(c)) == c
  {
  }
}
