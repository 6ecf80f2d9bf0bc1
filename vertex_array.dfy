/** VertexBuffer (reduced to its GL name) and VertexArray, acting on an
    explicit GL context. */
module VertexArrays {
  import GL
  import opened Layout

  /** What AddBuffer registers in slot `i` for element `i` of `layout` when
      `buffer` is the bound array buffer. */
  function ExpectedPointer(layout: VertexBufferLayout, i: nat, buffer: nat, sizeOf: nat -> nat): (p: GL.AttribPointer)
    requires i < |layout.elements|
    ensures p.offset < U32
    ensures i == 0 ==> p.offset == 0
  {
    var e := layout.elements[i];
    GL.AttribPointer(e.count, e.elementType, e.normalized, layout.stride, Offset32(layout.elements, i, sizeOf), buffer)
  }

  /** Registering element `i`: slot `i` is enabled and holds its pointer. */
  function Register(va: GL.VertexArrayState, layout: VertexBufferLayout, i: nat, buffer: nat, sizeOf: nat -> nat): (r: GL.VertexArrayState)
    requires i < |layout.elements|
    ensures i in r.enabled && va.enabled <= r.enabled
    ensures i in r.pointers && r.pointers[i] == ExpectedPointer(layout, i, buffer, sizeOf)
    ensures va.pointers.Keys <= r.pointers.Keys
  {
    GL.VertexArrayState(va.enabled + {i}, va.pointers[i := ExpectedPointer(layout, i, buffer, sizeOf)])
  }

  /** The attribute state of a vertex array once elements 0 .. n-1 of
      `layout` have been registered, in order, on top of `before`. */
  function Registered(before: GL.VertexArrayState, layout: VertexBufferLayout, n: nat, buffer: nat, sizeOf: nat -> nat): (r: GL.VertexArrayState)
    requires n <= |layout.elements|
    ensures n == 0 ==> r == before
    ensures before.enabled <= r.enabled
    ensures before.pointers.Keys <= r.pointers.Keys
  {
    if n == 0 then before else Register(Registered(before, layout, n - 1, buffer, sizeOf), layout, n - 1, buffer, sizeOf)
  }

  /** The attribute state of a vertex array after AddBuffer on `before`. */
  function AfterAddBuffer(before: GL.VertexArrayState, layout: VertexBufferLayout, buffer: nat, sizeOf: nat -> nat): (r: GL.VertexArrayState)
    ensures layout.elements == [] ==> r == before
    ensures before.enabled <= r.enabled
    ensures before.pointers.Keys <= r.pointers.Keys
  {
    Registered(before, layout, |layout.elements|, buffer, sizeOf)
  }

  /** After registering elements 0 .. n-1, slot k is enabled iff k < n or
      it was enabled before. */
  lemma {:induction false} RegisteredEnabled(before: GL.VertexArrayState, layout: VertexBufferLayout, n: nat, k: nat, buffer: nat, sizeOf: nat -> nat)
    requires n <= |layout.elements|
    ensures k in Registered(before, layout, n, buffer, sizeOf).enabled <==> k < n || k in before.enabled
  {
    if n > 0 {
      RegisteredEnabled(before, layout, n - 1, k, buffer, sizeOf);
    }
  }

  /** After registering elements 0 .. n-1, slot k < n holds the pointer of
      element k: a later registration never overwrites an earlier slot. */
  lemma {:induction false} RegisteredPointerAt(before: GL.VertexArrayState, layout: VertexBufferLayout, n: nat, k: nat, buffer: nat, sizeOf: nat -> nat)
    requires k < n <= |layout.elements|
    ensures k in Registered(before, layout, n, buffer, sizeOf).pointers
    ensures Registered(before, layout, n, buffer, sizeOf).pointers[k] == ExpectedPointer(layout, k, buffer, sizeOf)
  {
    if k < n - 1 {
      RegisteredPointerAt(before, layout, n - 1, k, buffer, sizeOf);
    }
  }

  /** Registering elements 0 .. n-1 leaves slot k >= n as it was: present
      with the same pointer, or absent. */
  lemma {:induction false} RegisteredKeepsOthers(before: GL.VertexArrayState, layout: VertexBufferLayout, n: nat, k: nat, buffer: nat, sizeOf: nat -> nat)
    requires n <= |layout.elements| && n <= k
    ensures k in Registered(before, layout, n, buffer, sizeOf).pointers <==> k in before.pointers
    ensures k in before.pointers ==> Registered(before, layout, n, buffer, sizeOf).pointers[k] == before.pointers[k]
  {
    if n > 0 {
      RegisteredKeepsOthers(before, layout, n - 1, k, buffer, sizeOf);
    }
  }

  /** What AddBuffer leaves in its vertex array: slots 0 .. |elements|-1 are
      enabled and hold their elements' pointers, no other slot changes, and
      an empty layout changes nothing. */
  lemma AfterAddBufferSlots(before: GL.VertexArrayState, layout: VertexBufferLayout, buffer: nat, sizeOf: nat -> nat)
    ensures var va := AfterAddBuffer(before, layout, buffer, sizeOf);
      && (forall k: nat :: k in va.enabled <==> k < |layout.elements| || k in before.enabled)
      && (forall k: nat :: k < |layout.elements| ==>
            k in va.pointers && va.pointers[k] == ExpectedPointer(layout, k, buffer, sizeOf))
      && (forall k: nat :: k >= |layout.elements| ==>
            (k in va.pointers <==> k in before.pointers) &&
            (k in before.pointers ==> va.pointers[k] == before.pointers[k]))
      && (layout.elements == [] ==> va == before)
  {
    var n := |layout.elements|;
    forall k: nat
      ensures k in AfterAddBuffer(before, layout, buffer, sizeOf).enabled <==> k < n || k in before.enabled
    {
      RegisteredEnabled(before, layout, n, k, buffer, sizeOf);
    }
    forall k: nat | k < n
      ensures k in AfterAddBuffer(before, layout, buffer, sizeOf).pointers
      ensures AfterAddBuffer(before, layout, buffer, sizeOf).pointers[k] == ExpectedPointer(layout, k, buffer, sizeOf)
    {
      RegisteredPointerAt(before, layout, n, k, buffer, sizeOf);
    }
    forall k: nat | k >= n
      ensures k in AfterAddBuffer(before, layout, buffer, sizeOf).pointers <==> k in before.pointers
      ensures k in before.pointers ==> AfterAddBuffer(before, layout, buffer, sizeOf).pointers[k] == before.pointers[k]
    {
      RegisteredKeepsOthers(before, layout, n, k, buffer, sizeOf);
    }
  }

  /** The pointer registered for element `i` copies count, type and
      normalized from element `i`, carries the layout's one stride and the
      given buffer, and its offset is the `unsigned int` running offset, i.e.
      the sum of the sizes before `i` modulo 2^32. The first element's
      offset is 0. When the whole record fits in `unsigned int` the offset
      is that exact sum and never smaller than an earlier element's. */
  lemma RegisteredPointer(layout: VertexBufferLayout, i: nat, j: nat, buffer: nat, sizeOf: nat -> nat)
    requires i <= j < |layout.elements|
    ensures var p, q := ExpectedPointer(layout, i, buffer, sizeOf), ExpectedPointer(layout, j, buffer, sizeOf);
      && p.size == layout.elements[i].count
      && p.elementType == layout.elements[i].elementType
      && p.normalized == layout.elements[i].normalized
      && p.stride == q.stride == layout.stride
      && p.buffer == buffer
      && p.offset == Wrap32(Offset(layout.elements, i, sizeOf))
      && ExpectedPointer(layout, 0, buffer, sizeOf).offset == 0
      && (TotalSize(layout.elements, sizeOf) < U32 ==>
            && p.offset == Offset(layout.elements, i, sizeOf)
            && p.offset <= q.offset)
  {
    Offset32IsWrappedOffset(layout.elements, i, sizeOf);
    if TotalSize(layout.elements, sizeOf) < U32 {
      NoWrapWhenSmall(layout.elements, i, j, sizeOf);
    }
  }

  /** The interleaved position / texture / normal vertex of 3, 2 and 3
      floats, 4 bytes each: the record is 32 bytes, and adding it to an
      untouched vertex array enables slots 0, 1, 2 with offsets 0, 12, 20. */
  lemma WorkedExample(buffer: nat, sizeOf: nat -> nat)
    requires sizeOf(GL_FLOAT) == 4
    ensures var layout := VertexBufferLayout([Element(GL_FLOAT, 3, false), Element(GL_FLOAT, 2, false), Element(GL_FLOAT, 3, false)], 32);
      && TotalSize(layout.elements, sizeOf) == 32
      && AfterAddBuffer(GL.EmptyVertexArray, layout, buffer, sizeOf)
         == GL.VertexArrayState({0, 1, 2}, map[
              0 := GL.AttribPointer(3, GL_FLOAT, false, 32, 0, buffer),
              1 := GL.AttribPointer(2, GL_FLOAT, false, 32, 12, buffer),
              2 := GL.AttribPointer(3, GL_FLOAT, false, 32, 20, buffer)])
  {
    var es := [Element(GL_FLOAT, 3, false), Element(GL_FLOAT, 2, false), Element(GL_FLOAT, 3, false)];
    var layout := VertexBufferLayout(es, 32);
    assert es[..2][..1] == es[..1] && es[..1][..0] == [];
    assert TotalSize(es[..1], sizeOf) == 12;
    assert TotalSize(es[..2], sizeOf) == 20;
    assert es[..|es| - 1] == es[..2];
    assert TotalSize(es, sizeOf) == 32;
    assert Offset32(es, 1, sizeOf) == 12;
    assert Offset32(es, 2, sizeOf) == 20;
    var s1 := Registered(GL.EmptyVertexArray, layout, 1, buffer, sizeOf);
    var s2 := Registered(GL.EmptyVertexArray, layout, 2, buffer, sizeOf);
    assert ExpectedPointer(layout, 0, buffer, sizeOf) == GL.AttribPointer(3, GL_FLOAT, false, 32, 0, buffer);
    assert Registered(GL.EmptyVertexArray, layout, 0, buffer, sizeOf) == GL.EmptyVertexArray;
    assert s1 == Register(GL.EmptyVertexArray, layout, 0, buffer, sizeOf);
    assert s1.pointers == map[0 := GL.AttribPointer(3, GL_FLOAT, false, 32, 0, buffer)];
    assert s2.pointers == s1.pointers[1 := GL.AttribPointer(2, GL_FLOAT, false, 32, 12, buffer)];
  }

  /** One pass of AddBuffer's loop body: with elements 0 .. i-1 already
      registered in the bound vertex array, enables slot `i`, points it at
      element `i` with the running `offset`, and returns the offset of
      element i + 1. */
  method RegisterElement(ctx: GL.Context, layout: VertexBufferLayout, i: nat, offset: nat, sizeOf: nat -> nat,
                         ghost base: map<nat, GL.VertexArrayState>, ghost start: GL.VertexArrayState)
      returns (next: nat)
    requires i < |layout.elements|
    requires offset == Offset32(layout.elements, i, sizeOf)
    requires ctx.vertexArrays == base[ctx.vertexArrayBinding := Registered(start, layout, i, ctx.arrayBufferBinding, sizeOf)]
    modifies ctx
    ensures next == Offset32(layout.elements, i + 1, sizeOf)
    ensures ctx.vertexArrayBinding == old(ctx.vertexArrayBinding)
    ensures ctx.arrayBufferBinding == old(ctx.arrayBufferBinding)
    ensures ctx.vertexArrays == base[ctx.vertexArrayBinding := Registered(start, layout, i + 1, ctx.arrayBufferBinding, sizeOf)]
  {
    var element := layout.elements[i];
    ghost var b, prev := ctx.vertexArrayBinding, Registered(start, layout, i, ctx.arrayBufferBinding, sizeOf);
    ctx.EnableVertexAttribArray(i);
    ghost var enabled := prev.(enabled := prev.enabled + {i});
    GL.UpdateTwice(base, b, prev, enabled);
    ctx.VertexAttribPointer(i, element.count, element.elementType, element.normalized, layout.stride, offset);
    GL.UpdateTwice(base, b, enabled, Registered(start, layout, i + 1, ctx.arrayBufferBinding, sizeOf));
    next := NextOffset(offset, element, sizeOf);
  }

  /** The GL-side vertex buffer: here only its name. */
  class VertexBuffer {
    /** m_RendererID */
    const rendererId: nat

    /** The constructor binds the new buffer to GL_ARRAY_BUFFER; the data
        upload is not modelled. */
    constructor (id: nat, ctx: GL.Context)
      requires id != 0
      modifies ctx
      ensures rendererId == id
      ensures ctx.arrayBufferBinding == id
      ensures ctx.vertexArrayBinding == old(ctx.vertexArrayBinding)
      ensures ctx.vertexArrays == old(ctx.vertexArrays)
    {
      rendererId := id;
      ctx.BindArrayBuffer(id);
    }

    method Bind(ctx: GL.Context)
      modifies ctx
      ensures ctx.arrayBufferBinding == rendererId
      ensures ctx.vertexArrayBinding == old(ctx.vertexArrayBinding)
      ensures ctx.vertexArrays == old(ctx.vertexArrays)
    {
      ctx.BindArrayBuffer(rendererId);
    }

    /** VertexBuffer::UnBind: binds buffer 0 to GL_ARRAY_BUFFER. */
    method UnBind(ctx: GL.Context)
      modifies ctx
      ensures ctx.arrayBufferBinding == 0
      ensures ctx.vertexArrayBinding == old(ctx.vertexArrayBinding)
      ensures ctx.vertexArrays == old(ctx.vertexArrays)
    {
      ctx.BindArrayBuffer(0);
    }
  }

  class VertexArray {
    /** m_RendererID: the GL vertex-array name. */
    const rendererId: nat

    /** Takes the name glGenVertexArrays would have produced. */
    constructor (id: nat)
      requires id != 0
      ensures rendererId == id
    {
      rendererId := id;
    }

    /** Binds this vertex array. Its attribute state is created on first use,
        so no vertex array's attribute state changes. Binding is idempotent:
        once it has been bound, binding again changes nothing. */
    method Bind(ctx: GL.Context)
      modifies ctx
      ensures ctx.vertexArrayBinding == rendererId
      ensures ctx.arrayBufferBinding == old(ctx.arrayBufferBinding)
      ensures ctx.vertexArrays == old(ctx.vertexArrays)[rendererId := old(ctx.VertexArrayOf(rendererId))]
      ensures forall id :: ctx.VertexArrayOf(id) == old(ctx.VertexArrayOf(id))
      ensures old(ctx.vertexArrayBinding) == rendererId && rendererId in old(ctx.vertexArrays) ==>
        ctx.vertexArrays == old(ctx.vertexArrays)
    {
      ctx.BindVertexArray(rendererId);
    }

    /** Binds vertex array 0, the default one. Idempotent like Bind. */
    method Unbind(ctx: GL.Context)
      modifies ctx
      ensures ctx.vertexArrayBinding == 0
      ensures ctx.arrayBufferBinding == old(ctx.arrayBufferBinding)
      ensures ctx.vertexArrays == old(ctx.vertexArrays)[0 := old(ctx.VertexArrayOf(0))]
      ensures forall id :: ctx.VertexArrayOf(id) == old(ctx.VertexArrayOf(id))
      ensures old(ctx.vertexArrayBinding) == 0 && 0 in old(ctx.vertexArrays) ==>
        ctx.vertexArrays == old(ctx.vertexArrays)
    {
      ctx.BindVertexArray(0);
    }

    /** Binds this vertex array and `vb`, then for each element i enables
        slot i and registers its count, type, normalized flag, the layout's
        stride and the running offset, which grows by count * sizeOf(type)
        in `unsigned int` arithmetic. Other vertex arrays are untouched;
        slots of this one at or beyond |elements| keep what they had. */
    method AddBuffer(vb: VertexBuffer, layout: VertexBufferLayout, ctx: GL.Context, sizeOf: nat -> nat)
      modifies ctx
      ensures ctx.vertexArrayBinding == rendererId
      ensures ctx.arrayBufferBinding == vb.rendererId
      ensures ctx.vertexArrays == old(ctx.vertexArrays)[rendererId :=
        AfterAddBuffer(old(ctx.VertexArrayOf(rendererId)), layout, vb.rendererId, sizeOf)]
    {
      Bind(ctx);
      vb.Bind(ctx);

      var elements := layout.elements;
      var offset: nat := 0;
      ghost var start := ctx.VertexArrayOf(rendererId);
      var i: nat := 0;
      while i < |elements|
        invariant i <= |elements|
        invariant offset == Offset32(elements, i, sizeOf)
        invariant ctx.vertexArrayBinding == rendererId && ctx.arrayBufferBinding == vb.rendererId
        invariant ctx.vertexArrays == old(ctx.vertexArrays)[rendererId := Registered(start, layout, i, vb.rendererId, sizeOf)]
      {
        offset := RegisterElement(ctx, layout, i, offset, sizeOf, old(ctx.vertexArrays), start);
        i := i + 1;
      }
    }
  }
}
