/** The layout of one interleaved vertex: which attributes are present, how
    many bytes each takes, where each starts and how long a vertex is. */
module VertexSpecification {
  import opened Wrappers

  /** How many floats an attribute holds; NONE means the attribute is absent. */
  datatype VertexAttribute = AttributeNone | Attribute2F | Attribute3F | Attribute4F

  /** The eight attribute slots, in the order they are laid out in a vertex. */
  datatype Slot = Position | Normal | Texcoord0 | Texcoord1 | Texcoord2 | Texcoord3 | Diffuse | Specular

  datatype VertexSpecification = VertexSpecification(
    position: VertexAttribute,
    normal: VertexAttribute,
    texcoord0: VertexAttribute,
    texcoord1: VertexAttribute,
    texcoord2: VertexAttribute,
    texcoord3: VertexAttribute,
    diffuse: VertexAttribute,
    specular: VertexAttribute)

  datatype LogicError = NoSuchAttribute

  const FloatSize: nat := 4

  function Components(a: VertexAttribute): nat
  {
    match a
    case AttributeNone => 0
    case Attribute2F => 2
    case Attribute3F => 3
    case Attribute4F => 4
  }

  /** vertex_attribute_size: the bytes one attribute takes in a vertex. */
  function AttributeSize(a: VertexAttribute): (r: nat)
    ensures r == FloatSize * Components(a)
    ensures r == 0 <==> a == AttributeNone
    ensures r <= 16
  {
    match a
    case AttributeNone => 0
    case Attribute2F => 8
    case Attribute3F => 12
    case Attribute4F => 16
  }

  /** Position of a slot in the layout order. */
  function SlotIndex(k: Slot): (i: nat)
    ensures i < 8
  {
    match k
    case Position => 0
    case Normal => 1
    case Texcoord0 => 2
    case Texcoord1 => 3
    case Texcoord2 => 4
    case Texcoord3 => 5
    case Diffuse => 6
    case Specular => 7
  }

  /** The slot laid out just before `k`. */
  function Previous(k: Slot): Slot
    requires k != Position
  {
    match k
    case Normal => Position
    case Texcoord0 => Normal
    case Texcoord1 => Texcoord0
    case Texcoord2 => Texcoord1
    case Texcoord3 => Texcoord2
    case Diffuse => Texcoord3
    case Specular => Diffuse
  }

  function AttributeAt(s: VertexSpecification, k: Slot): VertexAttribute
  {
    match k
    case Position => s.position
    case Normal => s.normal
    case Texcoord0 => s.texcoord0
    case Texcoord1 => s.texcoord1
    case Texcoord2 => s.texcoord2
    case Texcoord3 => s.texcoord3
    case Diffuse => s.diffuse
    case Specular => s.specular
  }

  /** The eight attribute sizes in layout order. */
  function Sizes(s: VertexSpecification): (r: seq<nat>)
    ensures |r| == 8
    ensures forall k: Slot :: r[SlotIndex(k)] == AttributeSize(AttributeAt(s, k))
  {
    [AttributeSize(s.position), AttributeSize(s.normal),
     AttributeSize(s.texcoord0), AttributeSize(s.texcoord1),
     AttributeSize(s.texcoord2), AttributeSize(s.texcoord3),
     AttributeSize(s.diffuse), AttributeSize(s.specular)]
  }

  function Sum(xs: seq<nat>): nat
  {
    if xs == [] then 0 else Sum(xs[..|xs| - 1]) + xs[|xs| - 1]
  }

  /** recalc_stride: the byte length of one vertex, the sum of the eight sizes. */
  function Stride(s: VertexSpecification): (r: nat)
    ensures r == Sum(Sizes(s))
    ensures r <= 8 * 16
  {
    SumOfLayout(s);
    AttributeSize(s.position) + AttributeSize(s.normal)
      + AttributeSize(s.texcoord0) + AttributeSize(s.texcoord1)
      + AttributeSize(s.texcoord2) + AttributeSize(s.texcoord3)
      + AttributeSize(s.diffuse) + AttributeSize(s.specular)
  }

  lemma SumOfLayout(s: VertexSpecification)
    ensures Sum(Sizes(s)) == AttributeSize(s.position) + AttributeSize(s.normal)
      + AttributeSize(s.texcoord0) + AttributeSize(s.texcoord1)
      + AttributeSize(s.texcoord2) + AttributeSize(s.texcoord3)
      + AttributeSize(s.diffuse) + AttributeSize(s.specular)
  {
    var sz := Sizes(s);
    assert sz[..1][..0] == [];
    assert Sum(sz[..1]) == sz[0];
    assert sz[..2][..1] == sz[..1];
    assert Sum(sz[..2]) == Sum(sz[..1]) + sz[1];
    assert sz[..3][..2] == sz[..2];
    assert Sum(sz[..3]) == Sum(sz[..2]) + sz[2];
    assert sz[..4][..3] == sz[..3];
    assert Sum(sz[..4]) == Sum(sz[..3]) + sz[3];
    assert sz[..5][..4] == sz[..4];
    assert Sum(sz[..5]) == Sum(sz[..4]) + sz[4];
    assert sz[..6][..5] == sz[..5];
    assert Sum(sz[..6]) == Sum(sz[..5]) + sz[5];
    assert sz[..7][..6] == sz[..6];
    assert Sum(sz[..7]) == Sum(sz[..6]) + sz[6];
    assert sz[..8][..7] == sz[..7] && sz[..8] == sz;
  }

  /** has_positions(), has_normals(), ...: the slot holds an attribute. */
  predicate Has(s: VertexSpecification, k: Slot)
  {
    AttributeAt(s, k) != AttributeNone
  }

  /** The unchecked offset of a slot, chained the way the source chains
      `X_offset(false)` to the offset of the slot before it. */
  function UncheckedOffset(s: VertexSpecification, k: Slot): nat
    decreases SlotIndex(k)
  {
    if k == Position then 0
    else UncheckedOffset(s, Previous(k)) + AttributeSize(AttributeAt(s, Previous(k)))
  }

  /** X_offset(check): throws logic_error when checking a missing attribute. */
  function Offset(s: VertexSpecification, k: Slot, check: bool): (r: Result<nat, LogicError>)
    ensures r.Err? <==> check && !Has(s, k)
    ensures r.Ok? ==> r.value == Sum(Sizes(s)[..SlotIndex(k)])
  {
    OffsetIsPrefixSum(s, k);
    if check && !Has(s, k) then Err(NoSuchAttribute) else Ok(UncheckedOffset(s, k))
  }

  /** Offsets are prefix sums of the sizes in layout order. */
  lemma {:induction false} OffsetIsPrefixSum(s: VertexSpecification, k: Slot)
    ensures UncheckedOffset(s, k) == Sum(Sizes(s)[..SlotIndex(k)])
    decreases SlotIndex(k)
  {
    if k != Position {
      var p := Previous(k);
      OffsetIsPrefixSum(s, p);
      var sz := Sizes(s);
      PreviousIndex(k);
      SumStep(sz, SlotIndex(p));
      assert sz[SlotIndex(p)] == AttributeSize(AttributeAt(s, p));
    }
  }

  /** The slot before `k` sits one place earlier in the layout. */
  lemma PreviousIndex(k: Slot)
    requires k != Position
    ensures SlotIndex(Previous(k)) + 1 == SlotIndex(k)
  {
  }

  lemma SumStep(xs: seq<nat>, n: nat)
    requires n < |xs|
    ensures Sum(xs[..n + 1]) == Sum(xs[..n]) + xs[n]
  {
    assert xs[..n + 1][..n] == xs[..n];
  }

  /** The specular attribute ends exactly at the end of the vertex. */
  lemma LastSlotEndsAtStride(s: VertexSpecification)
    ensures UncheckedOffset(s, Specular) + AttributeSize(s.specular) == Stride(s)
  {
    OffsetIsPrefixSum(s, Specular);
    var sz := Sizes(s);
    assert sz[..8] == sz;
    assert sz[..8][..7] == sz[..7];
  }

  /** Along the layout order offsets never decrease. */
  lemma {:induction false} OffsetsMonotone(s: VertexSpecification, j: Slot, k: Slot)
    requires SlotIndex(j) <= SlotIndex(k)
    ensures UncheckedOffset(s, j) <= UncheckedOffset(s, k)
    decreases SlotIndex(k)
  {
    if SlotIndex(j) < SlotIndex(k) {
      OffsetsMonotone(s, j, Previous(k));
    }
  }

  /** Every attribute lies inside the vertex. */
  lemma {:induction false} SlotFitsInStride(s: VertexSpecification, k: Slot)
    ensures UncheckedOffset(s, k) + AttributeSize(AttributeAt(s, k)) <= Stride(s)
    decreases 7 - SlotIndex(k)
  {
    if k == Specular {
      LastSlotEndsAtStride(s);
    } else {
      var n := Next(k);
      assert Previous(n) == k;
      SlotFitsInStride(s, n);
    }
  }

  /** The slot laid out just after `k`. */
  function Next(k: Slot): (n: Slot)
    requires k != Specular
    ensures n != Position && SlotIndex(n) == SlotIndex(k) + 1
  {
    match k
    case Position => Normal
    case Normal => Texcoord0
    case Texcoord0 => Texcoord1
    case Texcoord1 => Texcoord2
    case Texcoord2 => Texcoord3
    case Texcoord3 => Diffuse
    case Diffuse => Specular
  }
}
