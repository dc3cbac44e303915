/** The GL2 renderer's batcher: every visible (renderable, material pass)
    pair is filed into a tree of render groups, one level per kind of GL
    state, so that renderables needing the same state are drawn under one
    binding of it. The tree is kept as the set of its groups, each named by
    the path of keys from the root, and the entries added to each group.
    Binding and unbinding a group are lists of GL calls. */
module Batcher {
  import opened Wrappers
  import opened Light
  import Bytes

  datatype Vec4 = Vec4(x: real, y: real, z: real, w: real)

  /** A 4x4 matrix, as its sixteen entries. */
  type Mat4 = seq<real>

  /** The uniforms a shader can ask the engine to fill in by itself. */
  datatype AutoUniform =
    | LightPosition | LightAmbient | LightDiffuse | LightSpecular
    | LightConstantAttenuation | LightLinearAttenuation | LightQuadraticAttenuation
    | LightGlobalAmbient
    | MaterialAmbient | MaterialDiffuse | MaterialSpecular | MaterialShininess
    | MaterialPointSize | MaterialActiveTextureUnits
    | MaterialTexMatrix(index: nat)

  /** A vertex attribute the engine can feed a shader. */
  type Attribute = nat

  /** A program instance: the auto uniforms and attributes it uses and the
      variable names it gives them. */
  datatype Program = Program(
    programObject: nat,
    uniforms: set<AutoUniform>,
    uniformName: AutoUniform -> string,
    attributes: set<Attribute>,
    attributeName: Attribute -> string)

  datatype TextureUnit = TextureUnit(textureId: nat, matrix: Mat4)

  datatype Iteration = IterateOnce | IterateN | IterateOncePerLight

  /** Blend types; `BlendInvalid` stands for any other value of the enum. */
  datatype BlendType =
    | BlendNone | BlendAdd | BlendAlpha | BlendColour | BlendModulate | BlendOneOneMinusAlpha
    | BlendInvalid(code: int)

  datatype PolygonMode = PolygonFill | PolygonLine | PolygonPoint | PolygonInvalid(code: int)

  /** A material pass, as the batcher reads it. */
  datatype Pass = Pass(
    id: nat,
    program: Program,
    textureUnits: seq<TextureUnit>,
    depthTest: bool,
    depthWrite: bool,
    ambient: Colour,
    diffuse: Colour,
    specular: Colour,
    shininess: real,
    pointSize: real,
    blending: BlendType,
    polygonMode: PolygonMode,
    stagedFloats: map<string, real>,
    stagedInts: map<string, int>,
    iteration: Iteration,
    maxIterations: Bytes.uint8)

  /** A renderable, as the batcher reads it; an instanced mesh id of 0 is
      the null id. */
  datatype RenderableView = RenderableView(
    id: nat,
    visible: bool,
    instancedMeshId: nat,
    instancedSubmeshId: nat)

  /** What the batcher looks up in the stage: the GL name of each texture
      and each light. */
  datatype Stage = Stage(glTexture: nat -> nat, lightOf: LightId -> LightView)

  /** MAX_TEXTURE_UNITS, MAX_TEXTURE_MATRICES and SHADER_AVAILABLE_ATTRS. */
  datatype Constants = Constants(
    textureUnits: nat,
    textureMatrices: nat,
    availableAttributes: seq<Attribute>)

  /** A uniform a group sets: the program's variable and its value. */
  datatype Bound<T> = Bound(variable: string, value: T)

  datatype LightGroupData = LightGroupData(
    lightId: LightId,
    position: Option<Bound<Vec4>>,
    ambient: Option<Bound<Colour>>,
    diffuse: Option<Bound<Colour>>,
    specular: Option<Bound<Colour>>,
    constantAttenuation: Option<Bound<real>>,
    linearAttenuation: Option<Bound<real>>,
    quadraticAttenuation: Option<Bound<real>>)

  datatype MaterialGroupData = MaterialGroupData(
    ambient: Option<Bound<Colour>>,
    diffuse: Option<Bound<Colour>>,
    specular: Option<Bound<Colour>>,
    shininess: Option<Bound<real>>,
    pointSize: Option<Bound<real>>,
    activeTextureCount: Option<Bound<int>>)

  /** The key of a group under its parent, one constructor per kind of group. */
  datatype GroupKey =
    | ShaderKey(programObject: nat)
    | GlobalKey(globalAmbientVariable: Option<string>)
    | AutoAttributeKey(attributes: map<string, Attribute>)
    | TextureKey(units: seq<nat>)
    | TextureMatrixKey(matrices: seq<Option<Bound<Mat4>>>)
    | DepthKey(depthTest: bool, depthWrite: bool)
    | MaterialKey(material: MaterialGroupData)
    | BlendKey(blend: BlendType)
    | RenderSettingsKey(pointSize: real, polygonMode: PolygonMode)
    | StagedUniformKey(floats: map<string, real>, ints: map<string, int>)
    | LightKey(light: LightGroupData)
    | InstancedMeshKey(mesh: nat, submesh: nat)
    | RenderableKey

  /** A group, named by its parent and its key under that parent. */
  datatype Path = Root | Child(parent: Path, key: GroupKey)

  /** The keys leading from the root to a group. */
  function KeysOf(p: Path): (keys: seq<GroupKey>)
    ensures p.Child? ==> keys != [] && keys[|keys| - 1] == p.key
  {
    if p.Root? then [] else KeysOf(p.parent) + [p.key]
  }

  /** What `add` files in a leaf group. */
  datatype Entry = Entry(renderable: nat, pass: nat)

  // ---------------------------------------------------------------- uniforms

  /** The variable a program gives an auto uniform together with its value,
      present only when the program uses that uniform. */
  function Uniform<T>(p: Program, a: AutoUniform, value: T): Option<Bound<T>>
  {
    if a in p.uniforms then Some(Bound(p.uniformName(a), value)) else None
  }

  /** The light position uniform: the position with w = 0 for a
      directional light (a direction) and w = 1 for any other (a point). */
  function PositionOf(l: LightView): (v: Vec4)
    ensures v.w == 0.0 <==> l.lightType == Directional
    ensures v.w == 1.0 <==> l.lightType != Directional
  {
    Vec4(l.absolutePosition.x, l.absolutePosition.y, l.absolutePosition.z, if l.lightType == Directional then 0.0 else 1.0)
  }

  /** generate_light_group_data. */
  function GenerateLightGroupData(p: Program, l: LightView): (r: LightGroupData)
    ensures r.lightId == l.id
    ensures r.position.Some? ==> (r.position.value.value.w == 0.0 <==> l.lightType == Directional)
  {
    LightGroupData(
      l.id,
      Uniform(p, LightPosition, PositionOf(l)),
      Uniform(p, LightAmbient, l.ambient),
      Uniform(p, LightDiffuse, l.diffuse),
      Uniform(p, LightSpecular, l.specular),
      Uniform(p, LightConstantAttenuation, l.constantAttenuation),
      Uniform(p, LightLinearAttenuation, l.linearAttenuation),
      Uniform(p, LightQuadraticAttenuation, l.quadraticAttenuation))
  }

  /** generate_material_group_data; the active texture count is the pass's
      number of texture units. */
  function GenerateMaterialGroupData(p: Program, pass: Pass): MaterialGroupData
  {
    MaterialGroupData(
      Uniform(p, MaterialAmbient, pass.ambient),
      Uniform(p, MaterialDiffuse, pass.diffuse),
      Uniform(p, MaterialSpecular, pass.specular),
      Uniform(p, MaterialShininess, pass.shininess),
      Uniform(p, MaterialPointSize, pass.pointSize),
      Uniform(p, MaterialActiveTextureUnits, |pass.textureUnits|))
  }

  // ------------------------------------------------------------- GL effects

  datatype Capability = Blending | DepthTesting

  datatype BlendFactor = One | Zero | SrcAlpha | OneMinusSrcAlpha | SrcColour | OneMinusSrcColour | DstColour

  datatype GLPolygonMode = GLFill | GLLine | GLPoint

  datatype UniformValue = ColourValue(c: Colour) | Vec4Value(v: Vec4) | FloatValue(f: real) | IntValue(i: int)

  /** The GL calls the bind and unbind of the modelled groups make. */
  datatype GLCall =
    | SetUniform(variable: string, value: UniformValue)
    | Enable(cap: Capability)
    | Disable(cap: Capability)
    | BlendFunc(src: BlendFactor, dst: BlendFactor)
    | DepthMask(flag: bool)
    | PointSize(size: real)
    | SetPolygonMode(mode: GLPolygonMode)

  /** The calls a bind makes, and the ValueError it ends in, if any; calls
      made before the throw stay made. */
  datatype BindEffect = BindEffect(calls: seq<GLCall>, error: Option<string>)

  /** The part of the GL state these groups set. */
  datatype GLState = GLState(
    blending: bool,
    depthTesting: bool,
    blendSrc: BlendFactor,
    blendDst: BlendFactor,
    depthMask: bool,
    pointSize: real,
    polygonMode: GLPolygonMode)

  function Step(s: GLState, c: GLCall): GLState
  {
    match c
    case SetUniform(_, _) => s
    case Enable(cap) => if cap == Blending then s.(blending := true) else s.(depthTesting := true)
    case Disable(cap) => if cap == Blending then s.(blending := false) else s.(depthTesting := false)
    case BlendFunc(src, dst) => s.(blendSrc := src, blendDst := dst)
    case DepthMask(flag) => s.(depthMask := flag)
    case PointSize(size) => s.(pointSize := size)
    case SetPolygonMode(mode) => s.(polygonMode := mode)
  }

  /** The state after a list of calls, made in order. */
  function Apply(s: GLState, calls: seq<GLCall>): GLState
    decreases |calls|
  {
    if calls == [] then s else Apply(Step(s, calls[0]), calls[1..])
  }

  /** Calls made one list after another act as the two lists in turn. */
  lemma {:induction false} ApplyAppend(s: GLState, a: seq<GLCall>, b: seq<GLCall>)
    ensures Apply(s, a + b) == Apply(Apply(s, a), b)
    decreases |a|
  {
    if a == [] {
      assert a + b == b;
    } else {
      assert (a + b)[1..] == a[1..] + b;
      ApplyAppend(Step(s, a[0]), a[1..], b);
    }
  }

  lemma ApplyOne(s: GLState, c: GLCall)
    ensures Apply(s, [c]) == Step(s, c)
  {
    assert [c][1..] == [];
  }

  lemma ApplyTwo(s: GLState, c: GLCall, d: GLCall)
    ensures Apply(s, [c, d]) == Step(Step(s, c), d)
  {
    assert [c, d][1..] == [d];
    ApplyOne(Step(s, c), d);
  }

  /** The calls that set, in the order given, each of the first `n`
      uniforms of `order` that the program uses, to its value from `src`. */
  function SetUsed(p: Program, order: seq<AutoUniform>, n: nat, src: Source): (calls: seq<GLCall>)
    requires n <= |order|
    ensures |calls| <= n
  {
    if n == 0 then []
    else
      SetUsed(p, order, n - 1, src)
      + (if order[n - 1] in p.uniforms then [SetUniform(p.uniformName(order[n - 1]), ValueOf(src, order[n - 1]))] else [])
  }

  /** The call that sets one uniform of a group, if the group holds it. */
  function SetColour(u: Option<Bound<Colour>>): seq<GLCall>
  {
    if u.Some? then [SetUniform(u.value.variable, ColourValue(u.value.value))] else []
  }

  function SetVec4(u: Option<Bound<Vec4>>): seq<GLCall>
  {
    if u.Some? then [SetUniform(u.value.variable, Vec4Value(u.value.value))] else []
  }

  function SetFloat(u: Option<Bound<real>>): seq<GLCall>
  {
    if u.Some? then [SetUniform(u.value.variable, FloatValue(u.value.value))] else []
  }

  function SetInt(u: Option<Bound<int>>): seq<GLCall>
  {
    if u.Some? then [SetUniform(u.value.variable, IntValue(u.value.value))] else []
  }

  /** LightGroup::bind: nothing for the null light, otherwise the uniforms
      the group holds, in field order. */
  function LightBind(d: LightGroupData): seq<GLCall>
  {
    if d.lightId == 0 then []
    else
      SetVec4(d.position) + SetColour(d.ambient) + SetColour(d.diffuse) + SetColour(d.specular)
      + SetFloat(d.constantAttenuation) + SetFloat(d.linearAttenuation) + SetFloat(d.quadraticAttenuation)
  }

  /** MaterialGroup::bind. */
  function MaterialBind(d: MaterialGroupData): seq<GLCall>
  {
    SetColour(d.ambient) + SetColour(d.diffuse) + SetColour(d.specular)
    + SetFloat(d.shininess) + SetFloat(d.pointSize) + SetInt(d.activeTextureCount)
  }

  const LightUniforms: seq<AutoUniform> := [LightPosition, LightAmbient, LightDiffuse, LightSpecular,
    LightConstantAttenuation, LightLinearAttenuation, LightQuadraticAttenuation]

  const MaterialUniforms: seq<AutoUniform> := [MaterialAmbient, MaterialDiffuse, MaterialSpecular,
    MaterialShininess, MaterialPointSize, MaterialActiveTextureUnits]

  /** Where uniform values come from: a light, or a material pass. */
  datatype Source = LightSource(light: LightView) | MaterialSource(pass: Pass)

  /** The value each auto uniform takes from its source. */
  function ValueOf(src: Source, a: AutoUniform): UniformValue
  {
    match src
    case LightSource(l) => (
      match a
      case LightPosition => Vec4Value(PositionOf(l))
      case LightAmbient => ColourValue(l.ambient)
      case LightDiffuse => ColourValue(l.diffuse)
      case LightSpecular => ColourValue(l.specular)
      case LightConstantAttenuation => FloatValue(l.constantAttenuation)
      case LightLinearAttenuation => FloatValue(l.linearAttenuation)
      case _ => FloatValue(l.quadraticAttenuation))
    case MaterialSource(pass) => (
      match a
      case MaterialAmbient => ColourValue(pass.ambient)
      case MaterialDiffuse => ColourValue(pass.diffuse)
      case MaterialSpecular => ColourValue(pass.specular)
      case MaterialShininess => FloatValue(pass.shininess)
      case MaterialPointSize => FloatValue(pass.pointSize)
      case _ => IntValue(|pass.textureUnits|))
  }

  /** Building a light group for a light and binding it sets exactly the
      light uniforms the program uses, each to the light's value. */
  lemma LightGroupSetsUsedUniforms(p: Program, l: LightView)
    requires l.id != 0
    ensures LightBind(GenerateLightGroupData(p, l)) == SetUsed(p, LightUniforms, 7, LightSource(l))
  {
    var d := GenerateLightGroupData(p, l);
    var u, f := LightUniforms, LightSource(l);
    LightStep(p, l, 1);
    assert SetUsed(p, u, 1, f) == SetVec4(d.position);
    LightStep(p, l, 2);
    assert SetUsed(p, u, 2, f) == SetVec4(d.position) + SetColour(d.ambient);
    LightStep(p, l, 3);
    LightStep(p, l, 4);
    assert SetUsed(p, u, 4, f) == SetVec4(d.position) + SetColour(d.ambient) + SetColour(d.diffuse) + SetColour(d.specular);
    LightStep(p, l, 5);
    LightStep(p, l, 6);
    LightStep(p, l, 7);
  }

  /** The call for the i-th light uniform, taken from a light group. */
  function LightCall(d: LightGroupData, i: nat): seq<GLCall>
  {
    match i
    case 0 => SetVec4(d.position)
    case 1 => SetColour(d.ambient)
    case 2 => SetColour(d.diffuse)
    case 3 => SetColour(d.specular)
    case 4 => SetFloat(d.constantAttenuation)
    case 5 => SetFloat(d.linearAttenuation)
    case _ => SetFloat(d.quadraticAttenuation)
  }

  lemma LightStep(p: Program, l: LightView, n: nat)
    requires 1 <= n <= 7
    ensures SetUsed(p, LightUniforms, n, LightSource(l)) ==
      SetUsed(p, LightUniforms, n - 1, LightSource(l)) + LightCall(GenerateLightGroupData(p, l), n - 1)
  {
  }

  /** Building a material group for a pass and binding it sets exactly the
      material uniforms the program uses, each to the pass's value. */
  lemma MaterialGroupSetsUsedUniforms(p: Program, pass: Pass)
    ensures MaterialBind(GenerateMaterialGroupData(p, pass)) == SetUsed(p, MaterialUniforms, 6, MaterialSource(pass))
  {
    MaterialStep(p, pass, 1);
    MaterialStep(p, pass, 2);
    MaterialStep(p, pass, 3);
    MaterialStep(p, pass, 4);
    MaterialStep(p, pass, 5);
    MaterialStep(p, pass, 6);
  }

  /** The call for the i-th material uniform, taken from a material group. */
  function MaterialCall(d: MaterialGroupData, i: nat): seq<GLCall>
  {
    match i
    case 0 => SetColour(d.ambient)
    case 1 => SetColour(d.diffuse)
    case 2 => SetColour(d.specular)
    case 3 => SetFloat(d.shininess)
    case 4 => SetFloat(d.pointSize)
    case _ => SetInt(d.activeTextureCount)
  }

  lemma MaterialStep(p: Program, pass: Pass, n: nat)
    requires 1 <= n <= 6
    ensures SetUsed(p, MaterialUniforms, n, MaterialSource(pass)) ==
      SetUsed(p, MaterialUniforms, n - 1, MaterialSource(pass)) + MaterialCall(GenerateMaterialGroupData(p, pass), n - 1)
  {
  }

  /** The blend function of each known blend type other than none. */
  function BlendFactors(t: BlendType): (BlendFactor, BlendFactor)
  {
    match t
    case BlendAdd => (One, One)
    case BlendAlpha => (SrcAlpha, OneMinusSrcAlpha)
    case BlendColour => (SrcColour, OneMinusSrcColour)
    case BlendModulate => (DstColour, Zero)
    case _ => (One, OneMinusSrcAlpha)
  }

  /** BlendGroup::bind: nothing for none; otherwise blending is enabled and
      then the type's blend function set, and an unknown type throws after
      blending was enabled. */
  function BlendBind(t: BlendType): (b: BindEffect)
    ensures b.error.Some? <==> t.BlendInvalid?
    ensures t == BlendNone <==> b.calls == []
    ensures t != BlendNone ==> b.calls[0] == Enable(Blending)
  {
    if t == BlendNone then BindEffect([], None)
    else if t.BlendInvalid? then BindEffect([Enable(Blending)], Some("Invalid blend type specified"))
    else BindEffect([Enable(Blending), BlendFunc(BlendFactors(t).0, BlendFactors(t).1)], None)
  }

  /** BlendGroup::unbind: blending is disabled unless the type is none. */
  function BlendUnbind(t: BlendType): seq<GLCall>
  {
    if t != BlendNone then [Disable(Blending)] else []
  }

  /** A known blend type other than none turns blending on with its own
      blend function, distinct from every other type's; none leaves the
      state alone. Unbinding then leaves blending off, or as it was for
      none; nothing else changes. */
  lemma BlendBindThenUnbind(s: GLState, t: BlendType)
    requires !t.BlendInvalid?
    ensures var bound := Apply(s, BlendBind(t).calls);
      (t == BlendNone ==> bound == s) &&
      (t != BlendNone ==> bound == s.(blending := true, blendSrc := BlendFactors(t).0, blendDst := BlendFactors(t).1))
    ensures var after := Apply(Apply(s, BlendBind(t).calls), BlendUnbind(t));
      after.blending == (t == BlendNone && s.blending) &&
      after.depthTesting == s.depthTesting && after.depthMask == s.depthMask &&
      after.pointSize == s.pointSize && after.polygonMode == s.polygonMode
  {
    if t != BlendNone {
      var bound := Step(Step(s, Enable(Blending)), BlendFunc(BlendFactors(t).0, BlendFactors(t).1));
      ApplyTwo(s, Enable(Blending), BlendFunc(BlendFactors(t).0, BlendFactors(t).1));
      ApplyOne(bound, Disable(Blending));
    }
  }

  /** Different blend types set different blend functions. */
  lemma BlendFactorsDistinct(t: BlendType, u: BlendType)
    requires t != BlendNone && u != BlendNone && !t.BlendInvalid? && !u.BlendInvalid?
    ensures BlendFactors(t) == BlendFactors(u) <==> t == u
  {
  }

  /** An unknown blend type throws with blending already on. */
  lemma InvalidBlendLeavesBlendingOn(s: GLState, t: BlendType)
    requires t.BlendInvalid?
    ensures BlendBind(t).error.Some? && Apply(s, BlendBind(t).calls) == s.(blending := true)
  {
    ApplyOne(s, Enable(Blending));
  }

  /** DepthGroup::bind. */
  function DepthBind(depthTest: bool, depthWrite: bool): (calls: seq<GLCall>)
    ensures |calls| == 2
  {
    [if depthTest then Enable(DepthTesting) else Disable(DepthTesting), DepthMask(depthWrite)]
  }

  /** DepthGroup::unbind: the depth test is switched off only by a group
      that switched it on. */
  function DepthUnbind(depthTest: bool): (calls: seq<GLCall>)
    ensures calls != [] <==> depthTest
  {
    if depthTest then [Disable(DepthTesting)] else []
  }

  /** Binding a depth group sets the test and the mask to the group's;
      unbinding leaves the test off either way and keeps the mask. */
  lemma DepthBindThenUnbind(s: GLState, depthTest: bool, depthWrite: bool)
    ensures Apply(s, DepthBind(depthTest, depthWrite)) == s.(depthTesting := depthTest, depthMask := depthWrite)
    ensures Apply(Apply(s, DepthBind(depthTest, depthWrite)), DepthUnbind(depthTest)) ==
      s.(depthTesting := false, depthMask := depthWrite)
  {
    var bound := s.(depthTesting := depthTest, depthMask := depthWrite);
    ApplyTwo(s, if depthTest then Enable(DepthTesting) else Disable(DepthTesting), DepthMask(depthWrite));
    if depthTest {
      ApplyOne(bound, Disable(DepthTesting));
    }
  }

  function GLModeOf(m: PolygonMode): GLPolygonMode
  {
    match m
    case PolygonLine => GLLine
    case PolygonPoint => GLPoint
    case _ => GLFill
  }

  /** RenderSettingsGroup::bind (desktop GL): the point size, then the
      polygon mode; an unknown mode throws after the point size was set. */
  function RenderSettingsBind(pointSize: real, mode: PolygonMode): (b: BindEffect)
    ensures b.error.Some? <==> mode.PolygonInvalid?
    ensures b.calls != [] && b.calls[0] == PointSize(pointSize)
  {
    if mode.PolygonInvalid? then BindEffect([PointSize(pointSize)], Some("Invalid polygon mode specified"))
    else BindEffect([PointSize(pointSize), SetPolygonMode(GLModeOf(mode))], None)
  }

  /** RenderSettingsGroup::unbind: back to the defaults. */
  function RenderSettingsUnbind(): seq<GLCall>
  {
    [PointSize(1.0), SetPolygonMode(GLFill)]
  }

  /** Binding render settings sets the group's point size and polygon mode;
      unbinding restores point size 1 and filled polygons whatever the
      group was, and nothing else is touched. */
  lemma RenderSettingsBindThenUnbind(s: GLState, pointSize: real, mode: PolygonMode)
    requires !mode.PolygonInvalid?
    ensures Apply(s, RenderSettingsBind(pointSize, mode).calls) == s.(pointSize := pointSize, polygonMode := GLModeOf(mode))
    ensures Apply(Apply(s, RenderSettingsBind(pointSize, mode).calls), RenderSettingsUnbind()) ==
      s.(pointSize := 1.0, polygonMode := GLFill)
  {
    ApplyTwo(s, PointSize(pointSize), SetPolygonMode(GLModeOf(mode)));
    ApplyTwo(s.(pointSize := pointSize, polygonMode := GLModeOf(mode)), PointSize(1.0), SetPolygonMode(GLFill));
  }

  /** The three known polygon modes reach GL as three different modes. */
  lemma PolygonModesDistinct(m: PolygonMode, n: PolygonMode)
    requires !m.PolygonInvalid? && !n.PolygonInvalid?
    ensures GLModeOf(m) == GLModeOf(n) <==> m == n
  {
  }

  // ------------------------------------------------------------- group keys

  /** texture_matrix_auto: the auto uniform of texture matrix 0 to 3; any
      other index throws. */
  function TextureMatrixAuto(which: nat): (r: Result<AutoUniform, string>)
    ensures r.Err? <==> which > 3
    ensures r.Ok? ==> r.value == MaterialTexMatrix(which)
  {
    if which <= 3 then Ok(MaterialTexMatrix(which)) else Err("Invalid tex matrix index")
  }

  /** The global group's key: the program's variable for the global
      ambient light, if it uses one. */
  function GlobalAmbientVariable(p: Program): Option<string>
  {
    if LightGlobalAmbient in p.uniforms then Some(p.uniformName(LightGlobalAmbient)) else None
  }

  /** The attribute map of the auto-attribute group: each used attribute,
      taken in the order given, under its variable name; a later attribute
      with the same name replaces an earlier one. */
  function AttributeMap(p: Program, available: seq<Attribute>): (r: map<string, Attribute>)
    ensures forall k :: k in r ==> r[k] in p.attributes && r[k] in available && p.attributeName(r[k]) == k
  {
    if available == [] then map[]
    else
      var n := |available| - 1;
      var m := AttributeMap(p, available[..n]);
      var a := available[n];
      if a in p.attributes then m[p.attributeName(a) := a] else m
  }

  /** Every used attribute is reachable under its name. */
  lemma {:induction false} AttributeMapCovers(p: Program, available: seq<Attribute>, a: Attribute)
    requires a in available && a in p.attributes
    ensures p.attributeName(a) in AttributeMap(p, available)
  {
    var n := |available| - 1;
    if available[n] != a {
      assert a in available[..n] by {
        var i :| 0 <= i < |available| && available[i] == a;
        assert available[..n][i] == a;
      }
      AttributeMapCovers(p, available[..n], a);
    }
  }

  /** The GL texture name of a pass's texture unit, or 0 past its units. */
  function UnitTexture(pass: Pass, stage: Stage, i: int): nat
  {
    if 0 <= i < |pass.textureUnits| then stage.glTexture(pass.textureUnits[i].textureId) else 0
  }

  /** The texture group's key: one slot per texture unit the renderer has. */
  function TextureUnits(pass: Pass, stage: Stage, c: Constants): seq<nat>
  {
    seq(c.textureUnits, i => UnitTexture(pass, stage, i))
  }

  /** Passes whose texture units name the same GL textures land in the same
      texture group. */
  lemma SameTexturesSameKey(pass: Pass, other: Pass, stage: Stage, c: Constants)
    requires |pass.textureUnits| == |other.textureUnits|
    requires forall i :: 0 <= i < |pass.textureUnits| ==>
      stage.glTexture(pass.textureUnits[i].textureId) == stage.glTexture(other.textureUnits[i].textureId)
    ensures TextureKey(TextureUnits(pass, stage, c)) == TextureKey(TextureUnits(other, stage, c))
  {
    var a, b := TextureUnits(pass, stage, c), TextureUnits(other, stage, c);
    assert |a| == |b|;
    forall i | 0 <= i < |a|
      ensures a[i] == b[i]
    {
      assert a[i] == UnitTexture(pass, stage, i);
    }
    assert a == b;
  }

  /** Slot `i` of the texture-matrix key: the variable and the unit's matrix
      when the unit exists and the program uses texture matrix `i`. */
  function MatrixSlot(pass: Pass, i: int): Option<Bound<Mat4>>
  {
    if 0 <= i < |pass.textureUnits| && MaterialTexMatrix(i) in pass.program.uniforms then
      Some(Bound(pass.program.uniformName(MaterialTexMatrix(i)), pass.textureUnits[i].matrix))
    else None
  }

  /** Whether building the texture-matrix key throws: it asks for the auto
      uniform of matrix 4 exactly when there is a fifth matrix slot and a
      fifth texture unit. */
  predicate MatrixIndexFails(pass: Pass, c: Constants)
  {
    c.textureMatrices > 4 && |pass.textureUnits| > 4
  }

  function TextureMatrices(pass: Pass, c: Constants): Result<seq<Option<Bound<Mat4>>>, string>
  {
    if MatrixIndexFails(pass, c) then Err("Invalid tex matrix index")
    else Ok(seq(c.textureMatrices, i => MatrixSlot(pass, i)))
  }

  /** The group of the four levels insert creates before it reads the
      texture matrices: shader, global, auto attributes, textures. */
  function LeadingGroup(pass: Pass, stage: Stage, c: Constants): Path
  {
    var p := pass.program;
    Child(Child(Child(Child(Root,
      ShaderKey(p.programObject)),
      GlobalKey(GlobalAmbientVariable(p))),
      AutoAttributeKey(AttributeMap(p, c.availableAttributes))),
      TextureKey(TextureUnits(pass, stage, c)))
  }

  /** The six levels insert creates below `lead` once the texture matrices
      are known: texture matrices, depth, material, blending, render
      settings, staged uniforms. */
  function TrailingGroup(lead: Path, pass: Pass, matrices: seq<Option<Bound<Mat4>>>): Path
  {
    Child(Child(Child(Child(Child(Child(lead,
      TextureMatrixKey(matrices)),
      DepthKey(pass.depthTest, pass.depthWrite)),
      MaterialKey(GenerateMaterialGroupData(pass.program, pass))),
      BlendKey(pass.blending)),
      RenderSettingsKey(pass.pointSize, pass.polygonMode)),
      StagedUniformKey(pass.stagedFloats, pass.stagedInts))
  }

  /** The group below which the mesh leaves go, or the error that stops
      insert. */
  function GroupPath(pass: Pass, stage: Stage, c: Constants): Result<Path, string>
  {
    match TextureMatrices(pass, c)
    case Err(e) => Err(e)
    case Ok(matrices) => Ok(TrailingGroup(LeadingGroup(pass, stage, c), pass, matrices))
  }

  /** The levels come in a fixed order: shader, global, auto attributes,
      textures, texture matrices, depth, material, blending, render
      settings, staged uniforms; the first four are built whether or not
      the texture matrices throw, which they do exactly when there are a
      fifth matrix slot and a fifth unit. */
  lemma GroupPathLevels(pass: Pass, stage: Stage, c: Constants)
    ensures GroupPath(pass, stage, c).Err? <==> MatrixIndexFails(pass, c)
    ensures GroupPath(pass, stage, c).Ok? ==>
      var keys := KeysOf(GroupPath(pass, stage, c).value);
      |keys| == 10 && keys[..4] == KeysOf(LeadingGroup(pass, stage, c)) &&
      keys[0].ShaderKey? && keys[1].GlobalKey? && keys[2].AutoAttributeKey? && keys[3].TextureKey? &&
      keys[4].TextureMatrixKey? && keys[5].DepthKey? && keys[6].MaterialKey? && keys[7].BlendKey? &&
      keys[8].RenderSettingsKey? && keys[9].StagedUniformKey?
  {
    LeadingLevels(pass, stage, c);
    if !MatrixIndexFails(pass, c) {
      TrailingLevels(LeadingGroup(pass, stage, c), pass, TextureMatrices(pass, c).value);
    }
  }

  lemma LeadingLevels(pass: Pass, stage: Stage, c: Constants)
    ensures var p := pass.program;
      KeysOf(LeadingGroup(pass, stage, c)) == [ShaderKey(p.programObject), GlobalKey(GlobalAmbientVariable(p)),
        AutoAttributeKey(AttributeMap(p, c.availableAttributes)), TextureKey(TextureUnits(pass, stage, c))]
  {
    var p := pass.program;
    KeysOfChain(Root, ShaderKey(p.programObject), GlobalKey(GlobalAmbientVariable(p)),
      AutoAttributeKey(AttributeMap(p, c.availableAttributes)), TextureKey(TextureUnits(pass, stage, c)));
  }

  lemma TrailingLevels(lead: Path, pass: Pass, matrices: seq<Option<Bound<Mat4>>>)
    ensures KeysOf(TrailingGroup(lead, pass, matrices)) == KeysOf(lead) + [TextureMatrixKey(matrices),
      DepthKey(pass.depthTest, pass.depthWrite), MaterialKey(GenerateMaterialGroupData(pass.program, pass)),
      BlendKey(pass.blending), RenderSettingsKey(pass.pointSize, pass.polygonMode),
      StagedUniformKey(pass.stagedFloats, pass.stagedInts)]
  {
    var k1, k2, k3 := TextureMatrixKey(matrices), DepthKey(pass.depthTest, pass.depthWrite),
      MaterialKey(GenerateMaterialGroupData(pass.program, pass));
    var k4, k5, k6 := BlendKey(pass.blending), RenderSettingsKey(pass.pointSize, pass.polygonMode),
      StagedUniformKey(pass.stagedFloats, pass.stagedInts);
    KeysOfChain(lead, k1, k2, k3, k4);
    var mid := Child(Child(Child(Child(lead, k1), k2), k3), k4);
    assert KeysOf(Child(Child(mid, k5), k6)) == KeysOf(mid) + [k5, k6];
    assert KeysOf(lead) + [k1, k2, k3, k4] + [k5, k6] == KeysOf(lead) + [k1, k2, k3, k4, k5, k6];
  }

  /** Four levels below a group add their four keys to its path. */
  lemma KeysOfChain(p: Path, k1: GroupKey, k2: GroupKey, k3: GroupKey, k4: GroupKey)
    ensures KeysOf(Child(Child(Child(Child(p, k1), k2), k3), k4)) == KeysOf(p) + [k1, k2, k3, k4]
  {
    var l := KeysOf(p);
    assert KeysOf(Child(Child(p, k1), k2)) == l + [k1, k2];
    assert KeysOf(Child(Child(Child(p, k1), k2), k3)) == l + [k1, k2, k3];
  }

  /** The leaf key: an instanced-mesh group keyed by mesh and submesh when
      the renderable has an instanced mesh, otherwise the one renderable
      group. */
  function LeafKey(r: RenderableView): (k: GroupKey)
    ensures k.InstancedMeshKey? <==> r.instancedMeshId != 0
    ensures k.InstancedMeshKey? ==> k.mesh == r.instancedMeshId && k.submesh == r.instancedSubmeshId
    ensures !k.InstancedMeshKey? ==> k == RenderableKey
  {
    if r.instancedMeshId != 0 then InstancedMeshKey(r.instancedMeshId, r.instancedSubmeshId) else RenderableKey
  }

  /** How many times generate_mesh_groups adds the renderable. */
  function IterationCount(pass: Pass, lights: seq<LightId>): nat
  {
    match pass.iteration
    case IterateN => pass.maxIterations
    case IterateOncePerLight => if |lights| < pass.maxIterations then |lights| else pass.maxIterations
    case IterateOnce => 1
  }

  /** The light group under which the i-th light's copy is filed. */
  function LightGroupKey(pass: Pass, stage: Stage, light: LightId): GroupKey
  {
    LightKey(GenerateLightGroupData(pass.program, stage.lightOf(light)))
  }

  /** The groups generate_mesh_groups adds the renderable to, one per addition. */
  function LeafPaths(base: Path, r: RenderableView, pass: Pass, lights: seq<LightId>, stage: Stage): (leaves: seq<Path>)
    ensures |leaves| == IterationCount(pass, lights)
  {
    var n := IterationCount(pass, lights);
    if pass.iteration == IterateOncePerLight then
      seq(n, i requires 0 <= i < n => Child(Child(base, LightGroupKey(pass, stage, lights[i])), LeafKey(r)))
    else
      seq(n, _ => Child(base, LeafKey(r)))
  }

  /** ITERATE_N files `max_iterations` copies in a single leaf, the policy
      "once" files one copy there, and once-per-light files copy `i` in the
      leaf under the light group of the i-th light. */
  lemma LeafPathsByPolicy(base: Path, r: RenderableView, pass: Pass, lights: seq<LightId>, stage: Stage)
    ensures var leaves := LeafPaths(base, r, pass, lights, stage);
      (pass.iteration != IterateOncePerLight ==> forall i :: 0 <= i < |leaves| ==> leaves[i] == Child(base, LeafKey(r))) &&
      (pass.iteration == IterateOncePerLight ==> forall i :: 0 <= i < |leaves| ==>
        i < |lights| && leaves[i] == Child(Child(base, LightGroupKey(pass, stage, lights[i])), LeafKey(r)))
  {
  }

  // ------------------------------------------------------------ the tree

  /** A group and its ancestors below the root: the groups on the way to it. */
  function Lineage(p: Path): set<Path>
  {
    if p.Root? then {} else Lineage(p.parent) + {p}
  }

  /** The groups on the way to any of the paths. */
  function Created(ps: seq<Path>): set<Path>
  {
    if ps == [] then {} else Created(ps[..|ps| - 1]) + Lineage(ps[|ps| - 1])
  }

  function Get(m: map<Path, seq<Entry>>, p: Path): seq<Entry>
  {
    if p in m then m[p] else []
  }

  /** The entries after `e` is added to each group of `ps` in turn. */
  function AddedAt(m: map<Path, seq<Entry>>, ps: seq<Path>, e: Entry): map<Path, seq<Entry>>
  {
    if ps == [] then m
    else
      var n := |ps| - 1;
      var r := AddedAt(m, ps[..n], e);
      r[ps[n] := Get(r, ps[n]) + [e]]
  }

  /** `k` copies of an entry. */
  function Repeat(e: Entry, k: nat): (r: seq<Entry>)
    ensures |r| == k && forall i :: 0 <= i < k ==> r[i] == e
  {
    if k == 0 then [] else Repeat(e, k - 1) + [e]
  }

  /** Each group ends up with its old entries followed by one copy of `e`
      for each time it occurs in `ps`. */
  lemma {:induction false} AddedAtCounts(m: map<Path, seq<Entry>>, ps: seq<Path>, e: Entry, p: Path)
    ensures Get(AddedAt(m, ps, e), p) == Get(m, p) + Repeat(e, Occurrences(ps, p))
  {
    if ps == [] {
      assert Get(m, p) + [] == Get(m, p);
    } else {
      var n := |ps| - 1;
      AddedAtCounts(m, ps[..n], e, p);
      if ps[n] == p {
        AppendAssociative(Get(m, p), Repeat(e, Occurrences(ps[..n], p)), [e]);
      }
    }
  }

  /** How many times `p` occurs in `ps`. */
  function Occurrences(ps: seq<Path>, p: Path): (k: nat)
    ensures k <= |ps|
    ensures k == 0 <==> p !in ps
  {
    if ps == [] then 0
    else
      var n := |ps| - 1;
      assert ps == ps[..n] + [ps[n]];
      Occurrences(ps[..n], p) + if ps[n] == p then 1 else 0
  }

  lemma {:induction false} RepeatedCount(g: Path, n: nat, p: Path)
    ensures Occurrences(seq(n, _ => g), p) == if p == g then n else 0
  {
    if n > 0 {
      assert seq(n, _ => g)[..n - 1] == seq(n - 1, _ => g);
      RepeatedCount(g, n - 1, p);
    }
  }

  /** Under ITERATE_N every copy goes to the one leaf below the group path:
      it gains `max_iterations` entries and no other group changes. */
  lemma IterateNFillsOneLeaf(m: map<Path, seq<Entry>>, base: Path, r: RenderableView, pass: Pass,
                             lights: seq<LightId>, stage: Stage, e: Entry, p: Path)
    requires pass.iteration == IterateN
    ensures var after := AddedAt(m, LeafPaths(base, r, pass, lights, stage), e);
      Get(after, p) == if p == Child(base, LeafKey(r)) then Get(m, p) + Repeat(e, pass.maxIterations) else Get(m, p)
  {
    var leaves := LeafPaths(base, r, pass, lights, stage);
    assert leaves == seq(pass.maxIterations as nat, _ => Child(base, LeafKey(r)));
    AddedAtCounts(m, leaves, e, p);
    RepeatedCount(Child(base, LeafKey(r)), pass.maxIterations as nat, p);
  }

  /** Taking one more path adds its lineage and one copy of `e` to it. */
  lemma LeafStep(m: map<Path, seq<Entry>>, ps: seq<Path>, i: nat, e: Entry)
    requires i < |ps|
    ensures Created(ps[..i + 1]) == Created(ps[..i]) + Lineage(ps[i])
    ensures AddedAt(m, ps[..i + 1], e) == AddedAt(m, ps[..i], e)[ps[i] := Get(AddedAt(m, ps[..i], e), ps[i]) + [e]]
  {
    assert ps[..i + 1][..i] == ps[..i];
  }

  class RenderTree {
    /** The groups that exist below the root. */
    var groups: set<Path>
    /** What has been added to each group. */
    var entries: map<Path, seq<Entry>>

    constructor ()
      ensures groups == {} && entries == map[]
    {
      groups := {};
      entries := map[];
    }

    /** get_or_create: the child of `parent` with this key, made if missing. */
    method GetOrCreate(parent: Path, key: GroupKey) returns (child: Path)
      modifies this`groups
      ensures child == Child(parent, key)
      ensures groups == old(groups) + {child}
    {
      child := Child(parent, key);
      groups := groups + {child};
    }

    /** add: the renderable and pass are filed in the group. */
    method Add(group: Path, e: Entry)
      modifies this`entries
      ensures entries == old(entries)[group := Get(old(entries), group) + [e]]
    {
      entries := entries[group := Get(entries, group) + [e]];
    }

    /** One copy of generate_mesh_groups: the leaf below `parent`, or below
        the light group `light` under `parent`, made if missing, with `e`
        added to it. */
    method AddCopy(parent: Path, light: Option<GroupKey>, leaf: GroupKey, e: Entry) returns (group: Path)
      requires Lineage(parent) <= groups
      modifies this
      ensures group == if light.Some? then Child(Child(parent, light.value), leaf) else Child(parent, leaf)
      ensures groups == old(groups) + Lineage(group)
      ensures entries == old(entries)[group := Get(old(entries), group) + [e]]
    {
      var under := parent;
      if light.Some? {
        under := GetOrCreate(parent, light.value);
      }
      group := GetOrCreate(under, leaf);
      Add(group, e);
    }

    /** generate_mesh_groups: the renderable is added under `parent` as
        many times, and under such light groups, as the pass's iteration
        policy says. */
    method GenerateMeshGroups(parent: Path, r: RenderableView, pass: Pass, lights: seq<LightId>, stage: Stage)
      requires Lineage(parent) <= groups
      modifies this
      ensures groups == old(groups) + Created(LeafPaths(parent, r, pass, lights, stage))
      ensures entries == AddedAt(old(entries), LeafPaths(parent, r, pass, lights, stage), Entry(r.id, pass.id))
    {
      ghost var leaves := LeafPaths(parent, r, pass, lights, stage);
      ghost var g0, e0 := groups, entries;
      var e := Entry(r.id, pass.id);
      var leaf := LeafKey(r);
      var count := IterationCount(pass, lights);
      var i := 0;
      while i < count
        invariant 0 <= i <= count
        invariant groups == g0 + Created(leaves[..i])
        invariant entries == AddedAt(e0, leaves[..i], e)
      {
        LeafStep(e0, leaves, i, e);
        var light := None;
        if pass.iteration == IterateOncePerLight {
          light := Some(LightGroupKey(pass, stage, lights[i]));
        }
        var group := AddCopy(parent, light, leaf, e);
        assert group == leaves[i];
        i := i + 1;
      }
      assert leaves[..i] == leaves;
    }

    /** The attribute map, built by the loop over the available attributes. */
    static method AutoAttributes(p: Program, available: seq<Attribute>) returns (attributes: map<string, Attribute>)
      ensures attributes == AttributeMap(p, available)
    {
      attributes := map[];
      var i := 0;
      while i < |available|
        invariant 0 <= i <= |available|
        invariant attributes == AttributeMap(p, available[..i])
      {
        assert available[..i + 1][..i] == available[..i];
        if available[i] in p.attributes {
          attributes := attributes[p.attributeName(available[i]) := available[i]];
        }
        i := i + 1;
      }
      assert available[..i] == available;
    }

    /** The texture units' GL names: unit `tu` in slot `tu` for every unit
        of the pass, 0 in the remaining slots. */
    static method TextureUnitsOf(pass: Pass, stage: Stage, c: Constants) returns (units: seq<nat>)
      requires |pass.textureUnits| <= c.textureUnits
      ensures |units| == c.textureUnits
      ensures forall i :: 0 <= i < |pass.textureUnits| ==> units[i] == stage.glTexture(pass.textureUnits[i].textureId)
      ensures forall i :: |pass.textureUnits| <= i < c.textureUnits ==> units[i] == 0
      ensures units == TextureUnits(pass, stage, c)
    {
      units := seq(c.textureUnits, _ => 0);
      var tu := 0;
      while tu < |pass.textureUnits|
        invariant 0 <= tu <= |pass.textureUnits| && |units| == c.textureUnits
        invariant forall i :: 0 <= i < c.textureUnits ==> units[i] == if i < tu then UnitTexture(pass, stage, i) else 0
      {
        units := units[tu := stage.glTexture(pass.textureUnits[tu].textureId)];
        tu := tu + 1;
      }
    }

    /** The texture-matrix slots, built by the loop over the matrix slots
        that skips slots past the pass's units and throws on the first
        index texture_matrix_auto rejects. */
    static method TextureMatricesOf(pass: Pass, c: Constants) returns (r: Result<seq<Option<Bound<Mat4>>>, string>)
      ensures r == TextureMatrices(pass, c)
    {
      var p := pass.program;
      var matrices: seq<Option<Bound<Mat4>>> := seq(c.textureMatrices, _ => None);
      var i := 0;
      while i < c.textureMatrices
        invariant 0 <= i <= c.textureMatrices && |matrices| == c.textureMatrices
        invariant i <= 4 || |pass.textureUnits| <= 4
        invariant forall j :: 0 <= j < c.textureMatrices ==> matrices[j] == if j < i then MatrixSlot(pass, j) else None
      {
        if i >= |pass.textureUnits| {
          i := i + 1;
          continue;
        }
        var auto := TextureMatrixAuto(i);
        if auto.Err? {
          return Err(auto.error);
        }
        if auto.value in p.uniforms {
          matrices := matrices[i := Some(Bound(p.uniformName(MaterialTexMatrix(i)), pass.textureUnits[i].matrix))];
        }
        i := i + 1;
      }
      assert matrices == seq(c.textureMatrices, i => MatrixSlot(pass, i));
      return Ok(matrices);
    }

    /** The first four levels of insert: shader, global, auto attributes
        and textures. */
    method AddLeadingGroups(pass: Pass, stage: Stage, c: Constants) returns (lead: Path)
      requires |pass.textureUnits| <= c.textureUnits
      modifies this`groups
      ensures lead == LeadingGroup(pass, stage, c)
      ensures groups == old(groups) + Lineage(lead)
    {
      ghost var g0 := groups;
      var p := pass.program;
      lead := GetOrCreate(Root, ShaderKey(p.programObject));
      assert groups == g0 + Lineage(lead);
      lead := GetOrCreate(lead, GlobalKey(GlobalAmbientVariable(p)));
      assert groups == g0 + Lineage(lead);
      var attributes := AutoAttributes(p, c.availableAttributes);
      lead := GetOrCreate(lead, AutoAttributeKey(attributes));
      assert groups == g0 + Lineage(lead);
      var units := TextureUnitsOf(pass, stage, c);
      lead := GetOrCreate(lead, TextureKey(units));
      assert groups == g0 + Lineage(lead);
    }

    /** The remaining six levels of insert, below `lead`. */
    method AddTrailingGroups(lead: Path, pass: Pass, matrices: seq<Option<Bound<Mat4>>>) returns (base: Path)
      requires Lineage(lead) <= groups
      modifies this`groups
      ensures base == TrailingGroup(lead, pass, matrices)
      ensures groups == old(groups) + Lineage(base)
      ensures Lineage(lead) <= Lineage(base)
    {
      ghost var g0 := groups;
      base := GetOrCreate(lead, TextureMatrixKey(matrices));
      assert groups == g0 + Lineage(base) && Lineage(lead) <= Lineage(base);
      base := GetOrCreate(base, DepthKey(pass.depthTest, pass.depthWrite));
      assert groups == g0 + Lineage(base) && Lineage(lead) <= Lineage(base);
      base := GetOrCreate(base, MaterialKey(GenerateMaterialGroupData(pass.program, pass)));
      assert groups == g0 + Lineage(base) && Lineage(lead) <= Lineage(base);
      base := GetOrCreate(base, BlendKey(pass.blending));
      assert groups == g0 + Lineage(base) && Lineage(lead) <= Lineage(base);
      base := GetOrCreate(base, RenderSettingsKey(pass.pointSize, pass.polygonMode));
      assert groups == g0 + Lineage(base) && Lineage(lead) <= Lineage(base);
      base := GetOrCreate(base, StagedUniformKey(pass.stagedFloats, pass.stagedInts));
    }

    /** RootGroup::insert: an invisible renderable changes nothing. A
        visible one is filed below the ten levels of its group path and
        then by generate_mesh_groups; when the texture matrices throw, the
        four levels already built stay and nothing is added. */
    method Insert(r: RenderableView, pass: Pass, lights: seq<LightId>, stage: Stage, c: Constants)
      returns (result: Result<(), string>)
      requires |pass.textureUnits| <= c.textureUnits
      modifies this
      ensures !r.visible ==> result.Ok? && groups == old(groups) && entries == old(entries)
      ensures r.visible && GroupPath(pass, stage, c).Err? ==>
        result == Err("Invalid tex matrix index") &&
        groups == old(groups) + Lineage(LeadingGroup(pass, stage, c)) && entries == old(entries)
      ensures r.visible && GroupPath(pass, stage, c).Ok? ==>
        var base := GroupPath(pass, stage, c).value;
        var leaves := LeafPaths(base, r, pass, lights, stage);
        result.Ok? &&
        groups == old(groups) + Lineage(base) + Created(leaves) &&
        entries == AddedAt(old(entries), leaves, Entry(r.id, pass.id))
    {
      if !r.visible {
        return Ok(());
      }
      ghost var g0 := groups;
      var lead := AddLeadingGroups(pass, stage, c);
      var matrices := TextureMatricesOf(pass, c);
      if matrices.Err? {
        return Err(matrices.error);
      }
      var base := AddTrailingGroups(lead, pass, matrices.value);
      ghost var g1 := groups;
      assert g1 == g0 + Lineage(base);
      GenerateMeshGroups(base, r, pass, lights, stage);
      return Ok(());
    }
  }
}
