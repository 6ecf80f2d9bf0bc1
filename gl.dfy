/** An abstract OpenGL context: only the pieces of pipeline state that the
    vertex-array code reads or writes. Every GL entry point the core calls is
    a method here that changes this state and nothing else. */
module GL {

  /** What glVertexAttribPointer records for one attribute slot of a vertex
      array: component count, type enum, normalized flag, stride and offset
      exactly as passed, plus the array buffer bound at the time of the call. */
  datatype AttribPointer = AttribPointer(
    size: nat,
    elementType: nat,
    normalized: bool,
    stride: nat,
    offset: nat,
    buffer: nat)

  /** The attribute state held by one vertex-array object. */
  datatype VertexArrayState = VertexArrayState(enabled: set<nat>, pointers: map<nat, AttribPointer>)

  /** A vertex array that has never been touched: nothing enabled, no pointers. */
  const EmptyVertexArray := VertexArrayState({}, map[])

  /** Two updates of the same key leave only the second. */
  lemma UpdateTwice<K, V>(m: map<K, V>, k: K, a: V, b: V)
    ensures m[k := a][k := b] == m[k := b]
  {
  }

  class Context {
    /** The vertex array bound with glBindVertexArray (0 = none). */
    var vertexArrayBinding: nat
    /** The buffer bound to GL_ARRAY_BUFFER with glBindBuffer (0 = none). */
    var arrayBufferBinding: nat
    /** Attribute state per vertex-array name; a name that was never bound
        has no entry and reads as the default state. */
    var vertexArrays: map<nat, VertexArrayState>

    constructor ()
      ensures vertexArrayBinding == 0 && arrayBufferBinding == 0
      ensures vertexArrays == map[]
    {
      vertexArrayBinding := 0;
      arrayBufferBinding := 0;
      vertexArrays := map[];
    }

    /** The attribute state of vertex array `id`: its entry, or nothing
        enabled and no pointers for a name with no entry. */
    function VertexArrayOf(id: nat): (r: VertexArrayState)
      reads this
      ensures id in vertexArrays ==> r == vertexArrays[id]
      ensures id !in vertexArrays ==> r.enabled == {} && r.pointers == map[]
    {
      if id in vertexArrays then vertexArrays[id] else EmptyVertexArray
    }

    /** glBindVertexArray(id): a name bound for the first time gets the
        default attribute state, so afterwards `id` has an entry; no
        vertex array's attribute state changes. */
    method BindVertexArray(id: nat)
      modifies this
      ensures vertexArrayBinding == id
      ensures arrayBufferBinding == old(arrayBufferBinding)
      ensures vertexArrays == old(vertexArrays)[id := old(VertexArrayOf(id))]
    {
      vertexArrayBinding := id;
      vertexArrays := vertexArrays[id := VertexArrayOf(id)];
    }

    /** glBindBuffer(GL_ARRAY_BUFFER, id) */
    method BindArrayBuffer(id: nat)
      modifies this
      ensures arrayBufferBinding == id
      ensures vertexArrayBinding == old(vertexArrayBinding)
      ensures vertexArrays == old(vertexArrays)
    {
      arrayBufferBinding := id;
    }

    /** glEnableVertexAttribArray(index): acts on the bound vertex array. */
    method EnableVertexAttribArray(index: nat)
      modifies this
      ensures vertexArrayBinding == old(vertexArrayBinding)
      ensures arrayBufferBinding == old(arrayBufferBinding)
      ensures vertexArrays == old(vertexArrays)[vertexArrayBinding :=
        old(VertexArrayOf(vertexArrayBinding)).(enabled := old(VertexArrayOf(vertexArrayBinding)).enabled + {index})]
    {
      var va := VertexArrayOf(vertexArrayBinding);
      vertexArrays := vertexArrays[vertexArrayBinding := va.(enabled := va.enabled + {index})];
    }

    /** glVertexAttribPointer(index, size, type, normalized, stride, offset):
        records the pointer, together with the bound array buffer, in slot
        `index` of the bound vertex array. */
    method VertexAttribPointer(index: nat, size: nat, elementType: nat, normalized: bool, stride: nat, offset: nat)
      modifies this
      ensures vertexArrayBinding == old(vertexArrayBinding)
      ensures arrayBufferBinding == old(arrayBufferBinding)
      ensures vertexArrays == old(vertexArrays)[vertexArrayBinding :=
        old(VertexArrayOf(vertexArrayBinding)).(pointers := old(VertexArrayOf(vertexArrayBinding)).pointers[index :=
          AttribPointer(size, elementType, normalized, stride, offset, arrayBufferBinding)])]
    {
      var p := AttribPointer(size, elementType, normalized, stride, offset, arrayBufferBinding);
      var va := VertexArrayOf(vertexArrayBinding);
      vertexArrays := vertexArrays[vertexArrayBinding := va.(pointers := va.pointers[index := p])];
    }
  }
}
