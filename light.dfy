/** Lights: a type, a culling rule derived from it, a position that doubles
    as the direction of a directional light, colours and attenuation. */
module Light {

  datatype Vec3 = Vec3(x: real, y: real, z: real)

  datatype Colour = Colour(r: real, g: real, b: real, a: real)

  datatype LightType = Point | Directional | SpotLight

  datatype CullingMode = CullNever | CullPartitioner

  /** The id of a light; 0 is the null id. */
  type LightId = nat

  /** The opposite vector: moving by `v` and then by the result returns to
      the origin. */
  function Negate(v: Vec3): (r: Vec3)
    ensures Translate(v, r) == Origin
  {
    Vec3(-v.x, -v.y, -v.z)
  }

  lemma NegateInvolutive(v: Vec3)
    ensures Negate(Negate(v)) == v
  {
  }

  const Origin := Vec3(0.0, 0.0, 0.0)

  /** A point given relative to a parent, placed in the world by the
      parent's position (a parent is a translation here). */
  function Translate(offset: Vec3, v: Vec3): (r: Vec3)
    ensures offset == Origin ==> r == v
    ensures r.x - offset.x == v.x && r.y - offset.y == v.y && r.z - offset.z == v.z
  {
    Vec3(offset.x + v.x, offset.y + v.y, offset.z + v.z)
  }

  /** Translating back by the negated offset recovers the relative point. */
  lemma TranslateBack(offset: Vec3, v: Vec3)
    ensures Translate(Negate(offset), Translate(offset, v)) == v
  {
  }

  /** The culling mode set_type chooses: directional lights are never culled. */
  function CullingModeFor(t: LightType): (m: CullingMode)
    ensures m == CullNever <==> t == Directional
    ensures m == CullPartitioner <==> t != Directional
  {
    if t == Directional then CullNever else CullPartitioner
  }

  /** What the render path reads of a light during one frame. */
  datatype LightView = LightView(
    id: LightId,
    lightType: LightType,
    /** position(): relative to the light's parent. */
    position: Vec3,
    /** absolute_position(): in the world. */
    absolutePosition: Vec3,
    range: real,
    ambient: Colour,
    diffuse: Colour,
    specular: Colour,
    constantAttenuation: real,
    linearAttenuation: real,
    quadraticAttenuation: real)

  class Light {
    const id: LightId
    var lightType: LightType
    var cullingMode: CullingMode
    /** The position relative to the parent, which move_to sets; a
        directional light stores its reversed direction here. */
    var position: Vec3
    /** Where the parent node sits in the world. */
    var parentPosition: Vec3
    var ambient: Colour
    var diffuse: Colour
    var specular: Colour
    var range: real
    var constantAttenuation: real
    var linearAttenuation: real
    var quadraticAttenuation: real

    /** The culling mode starts as PARTITIONER whatever the type. */
    constructor (lid: LightId, t: LightType, pos: Vec3, parent: Vec3)
      ensures id == lid && lightType == t && position == pos && parentPosition == parent
      ensures cullingMode == CullPartitioner
    {
      id := lid;
      lightType := t;
      position := pos;
      parentPosition := parent;
      cullingMode := CullPartitioner;
      ambient := Colour(0.0, 0.0, 0.0, 1.0);
      diffuse := Colour(0.0, 0.0, 0.0, 1.0);
      specular := Colour(0.0, 0.0, 0.0, 1.0);
      range := 0.0;
      constantAttenuation := 0.0;
      linearAttenuation := 0.0;
      quadraticAttenuation := 0.0;
    }

    method SetType(t: LightType)
      modifies this`lightType, this`cullingMode
      ensures lightType == t
      ensures cullingMode == CullingModeFor(t)
    {
      lightType := t;
      cullingMode := if lightType == Directional then CullNever else CullPartitioner;
    }

    /** absolute_position(). */
    function AbsolutePosition(): (p: Vec3)
      reads this
      ensures parentPosition == Origin ==> p == position
    {
      Translate(parentPosition, position)
    }

    /** direction(): the absolute position. */
    function Direction(): (d: Vec3)
      reads this
      ensures parentPosition == Origin ==> d == position
    {
      AbsolutePosition()
    }

    /** set_direction(d): becomes directional and moves to -d relative to
        its parent, so direction() reads d back reversed only when the
        parent sits at the origin. */
    method SetDirection(d: Vec3)
      modifies this`lightType, this`cullingMode, this`position
      ensures lightType == Directional && cullingMode == CullNever
      ensures position == Negate(d) && parentPosition == old(parentPosition)
      ensures Translate(Negate(parentPosition), Direction()) == Negate(d)
      ensures parentPosition == Origin ==> Negate(Direction()) == d
    {
      SetType(Directional);
      position := Negate(d);
      NegateInvolutive(d);
      TranslateBack(parentPosition, position);
    }

    method SetDiffuse(c: Colour)
      modifies this`diffuse
      ensures Diffuse() == c
    {
      diffuse := c;
    }

    method SetAmbient(c: Colour)
      modifies this`ambient
      ensures Ambient() == c
    {
      ambient := c;
    }

    method SetSpecular(c: Colour)
      modifies this`specular
      ensures Specular() == c
    {
      specular := c;
    }

    function Type(): LightType reads this { lightType }
    function Ambient(): Colour reads this { ambient }
    function Diffuse(): Colour reads this { diffuse }
    function Specular(): Colour reads this { specular }
    function Range(): real reads this { range }
    function RenderableCullingMode(): CullingMode reads this { cullingMode }

    /** The light as the renderer reads it in one frame. */
    function View(): (v: LightView)
      reads this
      ensures v.id == id && v.lightType == lightType
      ensures v.position == position && v.absolutePosition == AbsolutePosition()
    {
      LightView(id, lightType, position, AbsolutePosition(), range, ambient, diffuse, specular,
                constantAttenuation, linearAttenuation, quadraticAttenuation)
    }
  }
}
