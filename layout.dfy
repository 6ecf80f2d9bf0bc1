/** The vertex-buffer layout that VertexArray::AddBuffer consumes, and the
    byte arithmetic its loop performs. The element type is the GL type enum;
    the byte size of a type (VertexBufferElement::GetSizeOfType) is a total
    function passed in as `sizeOf`, and the layout's stride is a plain input
    value, not assumed to equal the sum of the element sizes. */
module Layout {

  /** One VertexBufferElement: GL type enum, component count, normalized flag. */
  datatype Element = Element(elementType: nat, count: nat, normalized: bool)

  /** A VertexBufferLayout as seen through GetElements() and GetStride(). */
  datatype VertexBufferLayout = VertexBufferLayout(elements: seq<Element>, stride: nat)

  /** The GL_FLOAT type enum. */
  const GL_FLOAT: nat := 0x1406

  /** 2^32: the range of the C++ `unsigned int` the offset is kept in. */
  const U32: nat := 0x1_0000_0000

  /** Reduction into `unsigned int`, as C++ unsigned arithmetic does. */
  function Wrap32(x: nat): (r: nat)
    ensures r < U32
    ensures x < U32 ==> r == x
  {
    x % U32
  }

  /** Byte size of one element: count * GetSizeOfType(type). */
  function ByteSize(e: Element, sizeOf: nat -> nat): (r: nat)
    ensures e.count == 0 ==> r == 0
    ensures sizeOf(e.elementType) == 0 ==> r == 0
  {
    e.count * sizeOf(e.elementType)
  }

  /** Sum of the byte sizes of `es`; 0 for no elements. */
  function TotalSize(es: seq<Element>, sizeOf: nat -> nat): (r: nat)
    ensures es == [] ==> r == 0
    decreases |es|
  {
    if es == [] then 0 else TotalSize(es[..|es| - 1], sizeOf) + ByteSize(es[|es| - 1], sizeOf)
  }

  /** The exact byte offset of element `i`: the sum of the sizes of the
      elements before it; 0 for the first element. */
  function Offset(es: seq<Element>, i: nat, sizeOf: nat -> nat): (r: nat)
    requires i <= |es|
    ensures i == 0 ==> r == 0
  {
    assert es[..0] == [];
    TotalSize(es[..i], sizeOf)
  }

  /** The offset as the source's `unsigned int offset` holds it before
      element `i`: starts at 0 and each element adds its byte size, with the
      product and the sum both taken in `unsigned int`. */
  function Offset32(es: seq<Element>, i: nat, sizeOf: nat -> nat): (r: nat)
    requires i <= |es|
    ensures r < U32
    ensures i == 0 ==> r == 0
  {
    if i == 0 then 0 else NextOffset(Offset32(es, i - 1, sizeOf), es[i - 1], sizeOf)
  }

  /** `offset += element.count * GetSizeOfType(element.type)` in `unsigned int`:
      the result is an `unsigned int`, and it is the exact sum whenever that
      sum fits. */
  function NextOffset(offset: nat, e: Element, sizeOf: nat -> nat): (r: nat)
    ensures r < U32
    ensures offset + ByteSize(e, sizeOf) < U32 ==> r == offset + ByteSize(e, sizeOf)
  {
    Wrap32(offset + Wrap32(ByteSize(e, sizeOf)))
  }

  /** Adding in `unsigned int` after reducing each summand gives the reduced sum. */
  lemma Wrap32Add(a: nat, b: nat)
    ensures Wrap32(Wrap32(a) + Wrap32(b)) == Wrap32(a + b)
  {
  }

  /** One `unsigned int` step from a reduced offset is the reduction of the
      exact step. */
  lemma NextOffsetWrapped(x: nat, e: Element, sizeOf: nat -> nat)
    ensures NextOffset(Wrap32(x), e, sizeOf) == Wrap32(x + ByteSize(e, sizeOf))
  {
    Wrap32Add(x, ByteSize(e, sizeOf));
  }

  /** Sizes add up over concatenation. */
  lemma {:induction false} TotalSizeConcat(a: seq<Element>, b: seq<Element>, sizeOf: nat -> nat)
    ensures TotalSize(a + b, sizeOf) == TotalSize(a, sizeOf) + TotalSize(b, sizeOf)
    decreases |b|
  {
    if b == [] {
      assert a + b == a;
    } else {
      var b' := b[..|b| - 1];
      assert (a + b)[..|a + b| - 1] == a + b';
      assert (a + b)[|a + b| - 1] == b[|b| - 1];
      TotalSizeConcat(a, b', sizeOf);
    }
  }

  /** The step the loop takes: the next offset is this offset plus this
      element's byte size. The first offset is 0. */
  lemma OffsetStep(es: seq<Element>, i: nat, sizeOf: nat -> nat)
    requires i < |es|
    ensures Offset(es, 0, sizeOf) == 0
    ensures Offset(es, i + 1, sizeOf) == Offset(es, i, sizeOf) + ByteSize(es[i], sizeOf)
  {
    assert es[..0] == [];
    assert es[..i + 1][..i] == es[..i];
  }

  /** The `unsigned int` offset is the exact offset reduced modulo 2^32. */
  lemma {:induction false} Offset32IsWrappedOffset(es: seq<Element>, i: nat, sizeOf: nat -> nat)
    requires i <= |es|
    ensures Offset32(es, i, sizeOf) == Wrap32(Offset(es, i, sizeOf))
  {
    if i == 0 {
      assert Offset32(es, i, sizeOf) == 0 == Offset(es, i, sizeOf);
    } else {
      var prev := Offset(es, i - 1, sizeOf);
      Offset32IsWrappedOffset(es, i - 1, sizeOf);
      OffsetStep(es, i - 1, sizeOf);
      NextOffsetWrapped(prev, es[i - 1], sizeOf);
      assert Offset32(es, i, sizeOf) == NextOffset(Wrap32(prev), es[i - 1], sizeOf);
      assert Offset(es, i, sizeOf) == prev + ByteSize(es[i - 1], sizeOf);
      assert Offset32(es, i, sizeOf) == Wrap32(prev + ByteSize(es[i - 1], sizeOf));
      assert Offset32(es, i, sizeOf) == Wrap32(Offset(es, i, sizeOf));
    }
  }

  /** The byte span between the offsets of elements `i` and `j` is exactly
      the size of the elements in between; in particular offsets never
      decrease. */
  lemma OffsetGap(es: seq<Element>, i: nat, j: nat, sizeOf: nat -> nat)
    requires i <= j <= |es|
    ensures Offset(es, j, sizeOf) == Offset(es, i, sizeOf) + TotalSize(es[i..j], sizeOf)
    ensures Offset(es, i, sizeOf) <= Offset(es, j, sizeOf)
  {
    assert es[..j] == es[..i] + es[i..j];
    TotalSizeConcat(es[..i], es[i..j], sizeOf);
  }

  /** The attributes are packed: element `i` occupies the bytes
      [Offset(i), Offset(i) + ByteSize(i)), which end no later than the next
      attribute starts and no later than the end of the whole record. */
  lemma AttributesPacked(es: seq<Element>, i: nat, j: nat, sizeOf: nat -> nat)
    requires i < j <= |es|
    ensures Offset(es, i, sizeOf) + ByteSize(es[i], sizeOf) <= Offset(es, j, sizeOf)
    ensures Offset(es, j, sizeOf) <= TotalSize(es, sizeOf)
  {
    OffsetStep(es, i, sizeOf);
    OffsetGap(es, i + 1, j, sizeOf);
    OffsetGap(es, j, |es|, sizeOf);
    assert es[..|es|] == es;
  }

  /** When the whole record fits in `unsigned int`, the wrapped offsets are
      the exact ones, start at 0 and never decrease. */
  lemma NoWrapWhenSmall(es: seq<Element>, i: nat, j: nat, sizeOf: nat -> nat)
    requires i <= j <= |es|
    requires TotalSize(es, sizeOf) < U32
    ensures Offset32(es, i, sizeOf) == Offset(es, i, sizeOf)
    ensures Offset32(es, 0, sizeOf) == 0
    ensures Offset32(es, i, sizeOf) <= Offset32(es, j, sizeOf)
  {
    Offset32IsWrappedOffset(es, i, sizeOf);
    Offset32IsWrappedOffset(es, j, sizeOf);
    OffsetGap(es, i, j, sizeOf);
    OffsetGap(es, j, |es|, sizeOf);
    assert es[..|es|] == es;
  }
}
