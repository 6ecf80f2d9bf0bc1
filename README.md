# Vertex array attribute binding

This project models how the OpenGL tutorial renderer connects a vertex buffer
to a vertex array. `VertexArray::AddBuffer` binds the vertex array and the
vertex buffer. Then it walks the buffer layout's elements in order. For
element `i` it enables attribute slot `i` and registers the element's
component count, type and normalized flag, the layout's stride, and a
running byte offset. The offset starts at 0 and grows by
`count * GetSizeOfType(type)` after each element. `Bind` and `Unbind` set the
current vertex array to the object's own name or to 0.

The OpenGL side is an explicit abstract context, `GL.Context` in `gl.dfy`. It
holds:

- the current vertex array (`glBindVertexArray`);
- the buffer bound to `GL_ARRAY_BUFFER` (`glBindBuffer`);
- per vertex-array name, the set of enabled slots and a map from slot to the
  pointer `glVertexAttribPointer` recorded.

A recorded pointer also keeps the array buffer that was bound when it was
registered, as OpenGL does. That is what ties the vertex buffer to the
vertex array. A vertex-array name gets its default attribute state the
first time it is bound.

Files:

- `layout.dfy` (module `Layout`): the layout, the offset arithmetic and its
  lemmas.
- `gl.dfy` (module `GL`): the context.
- `vertex_array.dfy` (module `VertexArrays`): the `VertexBuffer` and
  `VertexArray` classes and the attribute state AddBuffer produces.

Modelling choices:

- `GetSizeOfType` is not part of this model. It is a parameter
  `sizeOf: nat -> nat`. Type codes are the GL enum values.
- The layout's stride is an input value. The model never assumes it equals
  the sum of the element sizes.
- The offset is an `unsigned int` in the code. The model keeps it modulo
  2^32, with the product and the sum each taken in `unsigned int`, as the
  code does. `AddBuffer` is specified by `AfterAddBuffer`, which defines the
  state after registering each element in turn. The lemmas then prove what
  that state contains.

`VertexBufferLayout` is meant to keep its stride equal to the sum of the
element sizes. That class is not part of this model, and `AddBuffer` only
reads `layout.GetStride()`. So the model takes the stride as given: every
registration carries it unchanged, whatever its value.

## Model

| member | source | states |
|---|---|---|
| Layout.Wrap32 | src/VertexArray.cpp:26 | an `unsigned int` value is below 2^32 and equals any exact value below 2^32 |
| Layout.ByteSize | src/VertexArray.cpp:33 | definition: one element's bytes, count * sizeOf(type); 0 when the count or the type size is 0 |
| Layout.TotalSize | src/VertexArray.cpp:33 | definition: the exact sum of the byte sizes of a run of elements, 0 for none; the reference the `unsigned int` offset is proved against |
| Layout.Offset | src/VertexArray.cpp:26-33 | definition: the exact offset of element i, the total size of elements 0 .. i-1; 0 for the first element |
| Layout.NextOffset | src/VertexArray.cpp:33 | definition of the `offset +=` step in `unsigned int`: the result is below 2^32 and is the exact sum whenever that sum is below 2^32 |
| Layout.Offset32 | src/VertexArray.cpp:26-33 | definition: the value `unsigned int offset` holds before element i, starting at 0 and taking one NextOffset step per element; always below 2^32 |
| Layout.NextOffsetWrapped | src/VertexArray.cpp:33 | one `unsigned int` step from a reduced offset equals the exact step reduced modulo 2^32 |
| Layout.Wrap32Add | src/VertexArray.cpp:33 | adding reduced values in `unsigned int` gives the reduced exact sum |
| Layout.TotalSizeConcat | src/VertexArray.cpp:33 | the byte size of two runs of elements together is the sum of their sizes |
| Layout.OffsetStep | src/VertexArray.cpp:26-33 | the first exact offset is 0; each next offset is the previous one plus that element's count * size |
| Layout.Offset32IsWrappedOffset | src/VertexArray.cpp:26-33 | the `unsigned int` offset before element i is the sum of the sizes of elements 0 .. i-1, modulo 2^32 |
| Layout.OffsetGap | src/VertexArray.cpp:33 | between elements i <= j the offset grows by exactly the sizes of elements i .. j-1, so offsets never decrease |
| Layout.AttributesPacked | src/VertexArray.cpp:32-33 | element i's bytes end no later than any later element's offset and no later than the end of the record |
| Layout.NoWrapWhenSmall | src/VertexArray.cpp:26-33 | when the record is under 2^32 bytes, the `unsigned int` offsets are the exact prefix sums, start at 0 and never decrease |
| VertexArrays.ExpectedPointer | src/VertexArray.cpp:32 | definition: the argument tuple of the glVertexAttribPointer call for element i (count, type, normalized, the layout's stride, the `unsigned int` offset) plus the bound buffer; its offset is below 2^32 and 0 for the first element |
| VertexArrays.Register | src/VertexArray.cpp:31-32 | definition of one loop pass on a vertex array's state: slot i becomes enabled and holds ExpectedPointer for element i; earlier enabled slots and pointer keys stay |
| VertexArrays.Registered | src/VertexArray.cpp:28-34 | definition: the state after the passes for elements 0 .. n-1 in order; no passes leave it as it was, and enabled slots and pointer keys only grow |
| VertexArrays.AfterAddBuffer | src/VertexArray.cpp:28-34 | definition: the state after the whole loop, the one AddBuffer's contract names; an empty layout leaves it as it was |
| VertexArrays.RegisteredEnabled | src/VertexArray.cpp:28-31 | after registering elements 0 .. n-1, slot k is enabled iff k < n or it was already enabled |
| VertexArrays.RegisteredPointerAt | src/VertexArray.cpp:28-32 | after registering elements 0 .. n-1, slot k < n holds element k's pointer; later registrations do not overwrite earlier slots |
| VertexArrays.RegisteredKeepsOthers | src/VertexArray.cpp:28-32 | registering elements 0 .. n-1 leaves slot k >= n exactly as it was, present with the same pointer or absent |
| VertexArrays.AfterAddBufferSlots | src/VertexArray.cpp:28-34 | after AddBuffer, exactly the slots below the element count are added to the enabled set; each holds its element's pointer; other slots are unchanged; an empty layout changes nothing |
| VertexArrays.RegisteredPointer | src/VertexArray.cpp:30-33 | the pointer in slot i copies count, type and normalized from element i, has the layout's stride (the same for every slot) and the bound buffer, and its offset is the prefix sum modulo 2^32; the first slot's offset is 0 for every layout; when the record fits in 2^32 bytes the offsets are exact and non-decreasing |
| VertexArrays.WorkedExample | src/Application.cpp:119-122 | with 4-byte floats, the layout of 3, 2 and 3 floats has a 32-byte record, and adding it to a fresh vertex array enables slots 0, 1, 2 with offsets 0, 12, 20 |
| VertexArrays.RegisterElement | src/VertexArray.cpp:30-33 | one loop pass moves the bound vertex array from "elements 0 .. i-1 registered" to "elements 0 .. i registered" and returns element i+1's offset; bindings and other vertex arrays unchanged |
| VertexArrays.VertexArray.AddBuffer | src/VertexArray.cpp:19-35 | afterwards this vertex array and vb are bound, this vertex array's attribute state is AfterAddBuffer of its old state, and no other vertex array changes |
| VertexArrays.VertexArray.Bind | src/VertexArray.cpp:37-40 | the current vertex array becomes this one's name; the array buffer and every vertex array's attribute state are unchanged; binding again changes nothing |
| VertexArrays.VertexArray.Unbind | src/VertexArray.cpp:42-45 | the current vertex array becomes 0; the array buffer and every vertex array's attribute state are unchanged; unbinding again changes nothing |
| VertexArrays.VertexArray.constructor | src/VertexArray.cpp:5-8 | the object keeps the non-zero name it was given |
| VertexArrays.VertexBuffer.constructor | include/BufferLayout.h:4-10 | the new buffer keeps its non-zero name and is left bound to `GL_ARRAY_BUFFER`; nothing else changes |
| VertexArrays.VertexBuffer.Bind | include/BufferLayout.h:17-20 | the bound array buffer becomes this buffer's name; nothing else changes |
| VertexArrays.VertexBuffer.UnBind | include/BufferLayout.h:22-25 | the bound array buffer becomes 0; nothing else changes |
| GL.Context.constructor | src/Application.cpp:81 | a fresh context, as made current by glfwMakeContextCurrent: no vertex array and no array buffer bound, no vertex-array state |
| GL.Context.VertexArrayOf | src/VertexArray.cpp:31-32 | the attribute state of a vertex-array name: its entry, or nothing enabled and no pointers for a name without one |
| GL.UpdateTwice | src/VertexArray.cpp:31-32 | helper: two updates of one map key leave only the second, used when the two GL calls of one loop pass update the bound vertex array in turn |
| GL.Context.BindVertexArray | src/VertexArray.cpp:39 | glBindVertexArray sets the current vertex array and gives a new name the default state; no attribute state changes |
| GL.Context.BindArrayBuffer | include/BufferLayout.h:19 | glBindBuffer on `GL_ARRAY_BUFFER` sets the array-buffer binding and nothing else |
| GL.Context.EnableVertexAttribArray | src/VertexArray.cpp:31 | adds the slot to the bound vertex array's enabled set; nothing else changes |
| GL.Context.VertexAttribPointer | src/VertexArray.cpp:32 | records the pointer, with the bound array buffer, in that slot of the bound vertex array; nothing else changes |

## Left out

- Handle allocation and release are not modelled: `glGenVertexArrays`, `glGenBuffers`, `glDeleteVertexArrays` and `glDeleteBuffers`. The constructors take the non-zero name the allocation would return, and destructors are not modelled.
- The vertex buffer's data upload (`glBufferData`) is not modelled, because it does not touch the binding or attribute state.
- The `GLCall` error-checking macro and `Renderer.h` are not part of this model, and neither are GL's own rules on valid arguments, such as allowed counts, type enums and the maximum number of attribute slots.
- `VertexBufferElement::GetSizeOfType`, `VertexBufferLayout::GetStride` and `VertexBufferLayout::GetElements` are not part of this model. The size is an abstract function and the stride an input value.
- `IndexBuffer` is left out: it only forwards to GL buffer calls and has no logic of its own.
- `Application.cpp` is left out: window and context setup, shader compilation and the render loop are I/O and foreign GL/GLFW calls. Only its comment on the 3/2/3-float layout is used, in `VertexArrays.WorkedExample`.
- The loop index is an `unsigned int` compared with a `size_t` size. The model uses an unbounded index, so a layout with 2^32 or more elements is not modelled as the code would run it.
- The offset is passed to GL cast to a pointer. The model records it as a number.
