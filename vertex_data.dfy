/** Index and vertex buffers: byte vectors that grow in place. */
module VertexData {
  import opened Wrappers
  import opened Bytes
  import VS = VertexSpecification

  datatype IndexType = Index8Bit | Index16Bit | Index32Bit

  datatype IndexError = OutOfRange

  datatype CopyError = FormatsDiffer

  /** Bytes per index for each index type. */
  function Width(t: IndexType): nat
  {
    match t
    case Index8Bit => 1
    case Index16Bit => 2
    case Index32Bit => 4
  }

  /** The byte image of a sequence of indices stored one after the other. */
  function Encoded(values: seq<nat>, w: nat): (r: seq<uint8>)
    ensures |r| == |values| * w
  {
    if values == [] then []
    else Encoded(values[..|values| - 1], w) + LittleEndian(values[|values| - 1], w)
  }

  /** The value of the `i`-th index of a byte buffer of stride `w`. */
  function Entry(bytes: seq<uint8>, w: nat, i: nat): nat
    requires i * w + w <= |bytes|
  {
    FromLittleEndian(bytes[i * w..i * w + w])
  }

  /** Every stored index reads back as its value truncated to the width. */
  lemma {:induction false} EntryOfEncoded(values: seq<nat>, w: nat, i: nat)
    requires i < |values|
    ensures i * w + w <= |Encoded(values, w)|
    ensures Entry(Encoded(values, w), w, i) == values[i] % Pow256(w)
  {
    var n := |values| - 1;
    var front := Encoded(values[..n], w);
    var e := Encoded(values, w);
    SlotBound(i, |values|, w);
    if i == n {
      assert e[i * w..i * w + w] == LittleEndian(values[n], w);
      ReadBackStored(values[n], w);
    } else {
      SlotBound(i, n, w);
      assert e[i * w..i * w + w] == front[i * w..i * w + w];
      EntryOfEncoded(values[..n], w, i);
    }
  }

  lemma SlotBound(i: nat, n: nat, w: nat)
    requires i < n
    ensures i * w + w <= n * w
  {
    assert n * w == (n - 1) * w + w;
    assert i * w <= (n - 1) * w;
  }

  /** All values fit the width: nothing is lost when storing them. */
  predicate AllFit(values: seq<nat>, w: nat)
  {
    forall i :: 0 <= i < |values| ==> values[i] < Pow256(w)
  }

  /** With values that fit, equal bytes means equal values: `operator==`
      on two buffers of the same index type compares the stored indices. */
  lemma EncodedInjective(a: seq<nat>, b: seq<nat>, w: nat)
    requires w > 0 && AllFit(a, w) && AllFit(b, w)
    ensures Encoded(a, w) == Encoded(b, w) <==> a == b
  {
    if Encoded(a, w) == Encoded(b, w) {
      assert |a| == |b| by {
        DivExact(|a|, w);
        DivExact(|b|, w);
      }
      forall i | 0 <= i < |a| ensures a[i] == b[i] {
        EntryOfEncoded(a, w, i);
        EntryOfEncoded(b, w, i);
        ModSmall(a[i], Pow256(w));
        ModSmall(b[i], Pow256(w));
      }
    }
  }

  /** The values a store through a `T*` of the given width keeps. */
  function Truncated(values: seq<uint32>, w: nat): (r: seq<nat>)
    ensures |r| == |values|
    ensures forall i :: 0 <= i < |values| ==> r[i] == values[i] % Pow256(w)
  {
    if values == [] then []
    else Truncated(values[..|values| - 1], w) + [values[|values| - 1] % Pow256(w)]
  }

  /** Storing one more index through a `T*` of width `w`: the kept value is
      the truncated one, its bytes are the index's own low bytes, and it fits. */
  lemma AppendStored(values: seq<nat>, xs: seq<uint32>, j: nat, w: nat)
    requires j < |xs| && AllFit(values, w)
    ensures var stored := xs[j] as nat % Pow256(w);
      && Truncated(xs[..j + 1], w) == Truncated(xs[..j], w) + [stored]
      && Encoded(xs[..j + 1], w) == Encoded(xs[..j], w) + LittleEndian(xs[j], w)
      && Encoded(values + [stored], w) == Encoded(values, w) + LittleEndian(xs[j], w)
      && AllFit(values + [stored], w)
  {
    var stored := xs[j] as nat % Pow256(w);
    assert xs[..j + 1][..j] == xs[..j];
    assert (values + [stored])[..|values|] == values;
    StoreTruncated(xs[j], w);
  }

  class IndexData {
    const indexType: IndexType
    const stride: nat
    var indices: seq<uint8>
    var count: nat
    /** The indices stored so far, as `at` reads them back. */
    ghost var Values: seq<nat>

    ghost predicate Valid()
      reads this
    {
      && stride == Width(indexType)
      && count == |Values|
      && AllFit(Values, stride)
      && indices == Encoded(Values, stride)
    }

    constructor (t: IndexType)
      ensures Valid() && indexType == t && Values == [] && indices == []
    {
      indexType := t;
      stride := Width(t);
      indices := [];
      count := 0;
      Values := [];
    }

    /** index(idx): range-checked append of one index. */
    method Index(idx: uint32) returns (r: Result<(), IndexError>)
      requires Valid()
      modifies this
      ensures Valid()
      ensures r.Err? <==> (indexType == Index8Bit && idx > 255) || (indexType == Index16Bit && idx >= 65535)
      ensures r.Ok? ==> indices == old(indices) + LittleEndian(idx, stride)
      ensures r.Ok? ==> Values == old(Values) + [idx as nat] && count == old(count) + 1
      ensures r.Err? ==> indices == old(indices) && Values == old(Values) && count == old(count)
    {
      if indexType == Index8Bit && idx > 255 {
        return Err(OutOfRange);
      }
      if indexType == Index16Bit && idx >= 65535 {
        return Err(OutOfRange);
      }
      assert Pow256(4) == 0x1_0000_0000;
      indices := indices + LittleEndian(idx, stride);
      Values := Values + [idx as nat];
      assert Encoded(Values, stride) == indices by {
        assert Values[..|Values| - 1] == old(Values);
      }
      count := |indices| / stride;
      DivExact(|Values|, stride);
      r := Ok(());
    }

    /** push(idx) is index(idx). */
    method Push(idx: uint32) returns (r: Result<(), IndexError>)
      requires Valid()
      modifies this
      ensures Valid()
      ensures r.Err? <==> (indexType == Index8Bit && idx > 255) || (indexType == Index16Bit && idx >= 65535)
      ensures r.Ok? ==> indices == old(indices) + LittleEndian(idx, stride)
      ensures r.Ok? ==> Values == old(Values) + [idx as nat] && count == old(count) + 1
      ensures r.Err? ==> indices == old(indices) && Values == old(Values) && count == old(count)
    {
      r := Index(idx);
    }

    /** index(indexes, count): appends the first `n` indices without a range
        check, each truncated to the index width. */
    method IndexMany(indexes: seq<uint32>, n: nat)
      requires Valid()
      requires n <= |indexes|
      modifies this
      ensures Valid()
      ensures indices == old(indices) + Encoded(indexes[..n], stride)
      ensures Values == old(Values) + Truncated(indexes[..n], stride)
      ensures count == old(count) + n
    {
      var buffer := indices;
      ghost var values := Values;
      var j := 0;
      while j < n
        invariant 0 <= j <= n
        invariant buffer == old(indices) + Encoded(indexes[..j], stride)
        invariant values == old(Values) + Truncated(indexes[..j], stride)
        invariant AllFit(values, stride)
        invariant buffer == Encoded(values, stride)
      {
        var v := indexes[j];
        AppendStored(values, indexes, j, stride);
        var bytes := LittleEndian(v, stride);
        AppendAssociative(old(indices), Encoded(indexes[..j], stride), bytes);
        AppendAssociative(old(Values), Truncated(indexes[..j], stride), [v as nat % Pow256(stride)]);
        buffer := buffer + bytes;
        values := values + [v as nat % Pow256(stride)];
        j := j + 1;
      }
      indices := buffer;
      Values := values;
      count := |indices| / stride;
      DivExact(|Values|, stride);
    }

    /** at(i): the `i`-th stored index. */
    function At(i: nat): (r: nat)
      reads this
      requires Valid() && i < count
      ensures r == Values[i]
      ensures r < Pow256(stride)
    {
      EntryOfEncoded(Values, stride, i);
      ModSmall(Values[i], Pow256(stride));
      Entry(indices, stride, i)
    }

    function Count(): (r: nat)
      reads this
      requires Valid()
      ensures r == |Values|
    {
      count
    }

    /** operator==: the raw byte buffers are equal; the index type is not compared. */
    function Equals(other: IndexData): (r: bool)
      reads this, other
      requires Valid() && other.Valid()
      ensures r <==> indices == other.indices
      ensures indexType == other.indexType ==> (r <==> Values == other.Values)
    {
      if indexType == other.indexType then
        EncodedInjective(Values, other.Values, stride);
        indices == other.indices
      else
        indices == other.indices
    }

    /** operator!= is the negation of operator==. */
    function NotEquals(other: IndexData): (r: bool)
      reads this, other
      requires Valid() && other.Valid()
      ensures r <==> indices != other.indices
      ensures indexType == other.indexType ==> (r <==> Values != other.Values)
    {
      !(Equals(other))
    }
  }

  /** Buffers of different index types can compare equal: an 8-bit buffer
      holding 1, 0 has the same bytes as a 16-bit buffer holding 1. */
  lemma EqualityIgnoresIndexType()
    ensures Encoded([1, 0], Width(Index8Bit)) == Encoded([1], Width(Index16Bit))
  {
    assert [1, 0][..1] == [1];
    assert [1][..0] == [];
  }

  /** n zero bytes, the fill value of `std::vector::resize`. */
  function Zeros(n: nat): (r: seq<uint8>)
    ensures |r| == n && forall i :: 0 <= i < n ==> r[i] == 0
  {
    if n == 0 then [] else Zeros(n - 1) + [0]
  }

  class VertexData {
    const spec: VS.VertexSpecification
    var data: seq<uint8>
    var vertexCount: nat

    constructor (s: VS.VertexSpecification)
      ensures spec == s && data == [] && vertexCount == 0
    {
      spec := s;
      data := [];
      vertexCount := 0;
    }

    function Stride(): nat
      reads this
    {
      VS.Stride(spec)
    }

    /** copy_vertex_to_another: appends the bytes of vertex `idx` to `out`
        and returns the index of the new vertex there. */
    method CopyVertexToAnother(out: VertexData, idx: nat) returns (r: Result<nat, CopyError>)
      requires out != this
      requires out.spec == spec ==> idx * Stride() + Stride() <= |data|
      modifies out
      ensures r.Err? <==> out.spec != spec
      ensures r.Err? ==> out.data == old(out.data) && out.vertexCount == old(out.vertexCount)
      ensures r.Ok? ==> out.data == old(out.data) + data[idx * Stride()..idx * Stride() + Stride()]
      ensures r.Ok? ==> out.vertexCount == old(out.vertexCount) + 1 && r.value == old(out.vertexCount)
      ensures data == old(data) && vertexCount == old(vertexCount)
    {
      if out.spec != spec {
        return Err(FormatsDiffer);
      }
      var w := Stride();
      var start := idx * w;
      var end := idx * w + w;
      out.data := out.data + data[start..end];
      out.vertexCount := out.vertexCount + 1;
      r := Ok(out.vertexCount - 1);
    }

    /** resize(n): `n` vertices; the byte vector is cut or zero-filled to `n * stride`. */
    method Resize(n: nat)
      modifies this
      ensures vertexCount == n && |data| == n * Stride()
      ensures forall i :: 0 <= i < |data| && i < |old(data)| ==> data[i] == old(data)[i]
      ensures forall i :: |old(data)| <= i < |data| ==> data[i] == 0
    {
      var size := n * Stride();
      if size <= |data| {
        data := data[..size];
      } else {
        data := data + Zeros(size - |data|);
      }
      vertexCount := n;
    }
  }
}
