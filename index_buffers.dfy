/** Index arrays: the size of each index type, reading one index out of a
    mapped index buffer, and the byte offset an indexed draw starts at.

    A buffer's contents are its bytes; multi-byte indices are read in the
    little-endian order of the targets the library is built for. */
module IndexBuffers {
  import opened Base

  /** CoglIndicesType. */
  datatype IndicesType = UnsignedByte | UnsignedShort | UnsignedInt

  /** 256^width: the number of values `width` bytes can hold. A helper;
      its ensures only keeps divisions by it defined. */
  function Pow256(width: nat): (r: nat)
    ensures r >= 1
  {
    if width == 0 then 1 else 256 * Pow256(width - 1)
  }

  /** The number of values of the C type behind each index type
      (guint8, guint16, guint32). */
  function IndexValueBound(t: IndicesType): nat {
    match t
    case UnsignedByte => 0x100
    case UnsignedShort => 0x1_0000
    case UnsignedInt => UINT32_MODULUS
  }

  /** sizeof_index_type: the number of bytes one index occupies, which is
      exactly enough for every value of its C type. */
  function SizeofIndexType(t: IndicesType): (r: nat)
    ensures r == 1 || r == 2 || r == 4
    ensures Pow256(r) == IndexValueBound(t)
  {
    match t
    case UnsignedByte => 1
    case UnsignedShort => 2
    case UnsignedInt => 4
  }

  /** The number `bs` spells, least significant byte first. */
  function LittleEndian(bs: seq<byte>): (v: nat)
    ensures v < Pow256(|bs|)
  {
    if bs == [] then 0 else bs[0] as nat + 256 * LittleEndian(bs[1..])
  }

  /** The `width` bytes, least significant first, that spell `v`. A helper
      whose ensures gives only the length; LittleEndianRoundTrip is the
      property. */
  function ToLittleEndian(v: nat, width: nat): (bs: seq<byte>)
    requires v < Pow256(width)
    ensures |bs| == width
  {
    if width == 0 then [] else [(v % 256) as byte] + ToLittleEndian(v / 256, width - 1)
  }

  lemma {:induction false} LittleEndianRoundTrip(v: nat, width: nat)
    requires v < Pow256(width)
    ensures LittleEndian(ToLittleEndian(v, width)) == v
  {
    if width > 0 {
      var bs := ToLittleEndian(v, width);
      assert bs[1..] == ToLittleEndian(v / 256, width - 1);
      LittleEndianRoundTrip(v / 256, width - 1);
    }
  }

  /** The contents of a mapped CoglIndexArray and the type of its indices. */
  datatype IndexBuffer = IndexBuffer(indicesType: IndicesType, bytes: seq<byte>)

  /** Index `i` lies inside the buffer, or there is no buffer at all. */
  predicate IndexReadable(indices: Option<IndexBuffer>, i: int) {
    indices.None? ||
    (0 <= i && (i + 1) * SizeofIndexType(indices.value.indicesType) <= |indices.value.bytes|)
  }

  /** The bytes of index `i`. */
  function IndexBytes(buffer: IndexBuffer, i: int): (bs: seq<byte>)
    requires IndexReadable(Some(buffer), i)
    ensures |bs| == SizeofIndexType(buffer.indicesType)
  {
    var size := SizeofIndexType(buffer.indicesType);
    assert i * size + size == (i + 1) * size;
    buffer.bytes[i * size..(i + 1) * size]
  }

  /** The value of index `i` as the buffer's C type. */
  function StoredIndex(buffer: IndexBuffer, i: int): (v: nat)
    requires IndexReadable(Some(buffer), i)
    ensures v < IndexValueBound(buffer.indicesType)
  {
    LittleEndian(IndexBytes(buffer, i))
  }

  /** The conversion of a guint32 to a 32-bit `int` (the value modulo 2^32). */
  function AsCInt(v: nat): (r: int)
    requires IsUint32(v)
    ensures IsInt32(r) && r % UINT32_MODULUS == v
    ensures v <= INT32_MAX ==> r == v
  {
    if v <= INT32_MAX then v else v - UINT32_MODULUS
  }

  /** get_index: without an index buffer the vertex number is its own
      index; otherwise the stored index, which for byte and short indices
      is the stored value and for int indices is that value taken modulo
      2^32 into an `int`. */
  function GetIndex(indices: Option<IndexBuffer>, i: int): (r: int)
    requires IndexReadable(indices, i)
    ensures indices.None? ==> r == i
    ensures indices.Some? ==> IsInt32(r) && r % UINT32_MODULUS == StoredIndex(indices.value, i)
    ensures indices.Some? && indices.value.indicesType != UnsignedInt ==>
              r == StoredIndex(indices.value, i)
  {
    match indices
    case None => i
    case Some(buffer) =>
      var v := StoredIndex(buffer, i);
      match buffer.indicesType
      case UnsignedByte => v
      case UnsignedShort => v
      case UnsignedInt => AsCInt(v)
  }

  predicate FitsIndexType(t: IndicesType, vs: seq<nat>) {
    forall k :: 0 <= k < |vs| ==> vs[k] < IndexValueBound(t)
  }

  /** The bytes of an index array holding `vs`, as cogl_indices_new would
      upload them; the partner that GetIndex reads back. A helper whose
      ensures gives only the length; EncodedSlice and GetIndexOfEncoded are
      the properties. */
  function EncodeIndices(t: IndicesType, vs: seq<nat>): (bs: seq<byte>)
    requires FitsIndexType(t, vs)
    ensures |bs| == |vs| * SizeofIndexType(t)
  {
    if vs == [] then []
    else EncodeIndices(t, vs[..|vs| - 1]) + ToLittleEndian(vs[|vs| - 1], SizeofIndexType(t))
  }

  lemma {:induction false} EncodedSlice(t: IndicesType, vs: seq<nat>, i: nat)
    requires FitsIndexType(t, vs)
    requires i < |vs|
    ensures (i + 1) * SizeofIndexType(t) <= |EncodeIndices(t, vs)|
    ensures EncodeIndices(t, vs)[i * SizeofIndexType(t)..(i + 1) * SizeofIndexType(t)]
              == ToLittleEndian(vs[i], SizeofIndexType(t))
  {
    var size := SizeofIndexType(t);
    var front := vs[..|vs| - 1];
    var head := EncodeIndices(t, front);
    var last := ToLittleEndian(vs[|vs| - 1], size);
    assert EncodeIndices(t, vs) == head + last;
    assert |head| == (|vs| - 1) * size;
    assert (i + 1) * size == i * size + size;
    if i == |vs| - 1 {
      assert i * size == |head|;
      SliceOfAppend(head, last, |head|, |head| + size);
    } else {
      EncodedSlice(t, front, i);
      MulMonotone(size, i + 1, |vs| - 1);
      assert (head + last)[i * size..(i + 1) * size] == head[i * size..(i + 1) * size];
    }
  }

  /** Round trip: reading index `i` of an encoded index array gives back
      the i-th value (as an `int`; unchanged whenever it fits one). */
  lemma {:induction false} GetIndexOfEncoded(t: IndicesType, vs: seq<nat>, i: nat)
    requires FitsIndexType(t, vs)
    requires i < |vs|
    ensures IndexReadable(Some(IndexBuffer(t, EncodeIndices(t, vs))), i)
    ensures vs[i] <= INT32_MAX ==> GetIndex(Some(IndexBuffer(t, EncodeIndices(t, vs))), i) == vs[i]
    ensures t == UnsignedInt ==> GetIndex(Some(IndexBuffer(t, EncodeIndices(t, vs))), i) == AsCInt(vs[i])
  {
    EncodedSlice(t, vs, i);
    LittleEndianRoundTrip(vs[i], SizeofIndexType(t));
  }

  /** The byte offset glDrawElements is given at line 1030: the index
      array's offset plus `first_vertex` indices, computed in size_t (the
      int `first_vertex` is converted to size_t first). */
  function DrawElementsOffset(arrayOffset: nat, t: IndicesType, firstVertex: int): (r: nat)
    requires arrayOffset < UINT64_MODULUS
    ensures r < UINT64_MODULUS
    ensures r == (arrayOffset + SizeofIndexType(t) * firstVertex) % UINT64_MODULUS
    ensures 0 <= firstVertex && arrayOffset + SizeofIndexType(t) * firstVertex < UINT64_MODULUS ==>
              r == arrayOffset + SizeofIndexType(t) * firstVertex
  {
    var first := firstVertex % UINT64_MODULUS;
    var product := (SizeofIndexType(t) * first) % UINT64_MODULUS;
    ModuloOfSum(arrayOffset, SizeofIndexType(t), firstVertex);
    (arrayOffset + product) % UINT64_MODULUS
  }

  lemma ModuloOfSum(a: nat, size: nat, f: int)
    ensures (a + (size * (f % UINT64_MODULUS)) % UINT64_MODULUS) % UINT64_MODULUS
              == (a + size * f) % UINT64_MODULUS
  {
    var m := UINT64_MODULUS;
    var q := f / m;
    assert f == q * m + f % m;
    assert size * f == size * (f % m) + (size * q) * m;
    var p := size * (f % m);
    assert p == (p / m) * m + p % m;
    assert a + size * f == (a + p % m) + (p / m + size * q) * m;
    AddMultiple(a + p % m, p / m + size * q, m);
  }

  lemma AddMultiple(x: int, k: int, m: int)
    requires m > 0
    ensures (x + k * m) % m == x % m
  {
    assert x + k * m == m * (x / m + k) + x % m;
    DivUnique(x + k * m, m, x / m + k, x % m);
  }

  /** An index array placed `|before|` bytes into its buffer: the indexed
      draw's start offset points at index `first`. */
  lemma {:induction false} DrawOffsetAddressesFirst(t: IndicesType, before: seq<byte>, vs: seq<nat>,
                                                   first: nat)
    requires FitsIndexType(t, vs)
    requires first < |vs|
    requires |before| + |vs| * SizeofIndexType(t) < UINT64_MODULUS
    ensures DrawElementsOffset(|before|, t, first) + SizeofIndexType(t)
              <= |before + EncodeIndices(t, vs)|
    ensures LittleEndian((before + EncodeIndices(t, vs))[DrawElementsOffset(|before|, t, first)..
                                                          DrawElementsOffset(|before|, t, first) + SizeofIndexType(t)])
              == vs[first]
  {
    var size := SizeofIndexType(t);
    var bs := EncodeIndices(t, vs);
    EncodedSlice(t, vs, first);
    DrawOffsetWithoutWrap(|before|, t, first, |vs|);
    var r := DrawElementsOffset(|before|, t, first);
    SliceOfAppend(before, bs, r, r + size);
    LittleEndianRoundTrip(vs[first], size);
  }

  lemma SliceOfAppend(a: seq<byte>, b: seq<byte>, i: nat, j: nat)
    requires |a| <= i <= j <= |a| + |b|
    ensures (a + b)[i..j] == b[i - |a|..j - |a|]
  {
  }

  /** Below 2^64 the offset of index `first` of `count` is the plain sum. */
  lemma DrawOffsetWithoutWrap(arrayOffset: nat, t: IndicesType, first: nat, count: nat)
    requires first < count
    requires arrayOffset + count * SizeofIndexType(t) < UINT64_MODULUS
    ensures DrawElementsOffset(arrayOffset, t, first) == arrayOffset + first * SizeofIndexType(t)
    ensures (first + 1) * SizeofIndexType(t) == first * SizeofIndexType(t) + SizeofIndexType(t)
    ensures (first + 1) * SizeofIndexType(t) <= count * SizeofIndexType(t)
  {
    MulMonotone(SizeofIndexType(t), first + 1, count);
  }
}
