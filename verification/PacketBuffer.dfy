/** How the storage of a packet buffer grows. */
module Growth {
  import opened Types

  /** Size in use, capacity of the vector, and bytes its reallocations have moved so far. */
  datatype Storage = Storage(size: nat, capacity: nat, moved: nat)

  /** Append of `n` bytes: a vector that is too small is replaced by one of twice the size needed. */
  function Append(s: Storage, n: nat): Storage {
    var newSize := s.size + n;
    if n == 0 then s
    else if newSize > s.capacity then Storage(newSize, newSize * 2, s.moved + s.size)
    else s.(size := newSize)
  }

  function AppendAll(s: Storage, sizes: seq<nat>): Storage
    decreases |sizes|
  {
    if sizes == [] then s else AppendAll(Append(s, sizes[0]), sizes[1..])
  }

  /** Either nothing has been moved yet, or the last move left twice the room needed then. */
  ghost predicate Amortised(s: Storage) {
    && s.size <= s.capacity
    && (s.moved == 0 || (s.moved < s.capacity <= 2 * s.size))
  }

  lemma AppendAmortised(s: Storage, n: nat)
    requires Amortised(s)
    ensures Amortised(Append(s, n))
    ensures s.capacity < Append(s, n).capacity ==> 2 * s.capacity < Append(s, n).capacity
  {
  }

  /** Over any run of appends to a buffer nothing has been moved in yet, all reallocations together
      move fewer bytes than twice the final size. */
  lemma {:induction false} MovesAreAmortised(s: Storage, sizes: seq<nat>)
    requires Amortised(s)
    ensures Amortised(AppendAll(s, sizes))
    ensures var end := AppendAll(s, sizes);
            end.moved < 2 * end.size || end.moved == 0
    decreases |sizes|
  {
    if sizes != [] {
      AppendAmortised(s, sizes[0]);
      MovesAreAmortised(Append(s, sizes[0]), sizes[1..]);
    }
  }
}

/** The buffer a packet is put together in. */
module PacketBuffers {
  import opened Types
  import Growth

  class PacketBuffer {
    var mData: seq<byte>   // the elements of the vector; the first `mSize` are the packet
    var mCapacity: nat     // the capacity of the vector
    var mSize: nat
    ghost var moved: nat   // bytes moved by reallocations

    ghost predicate Valid()
      reads this
    {
      mSize <= |mData| <= mCapacity <= MAX_VECTOR_SIZE
    }

    ghost function Contents(): seq<byte>
      requires mSize <= |mData|
      reads this
    {
      mData[..mSize]
    }

    ghost function Storage(): Growth.Storage
      reads this
    {
      Growth.Storage(mSize, mCapacity, moved)
    }

    /** The default constructor passes DEFAULT_BUFFER_SIZE. */
    constructor (initialCapacity: nat)
      requires initialCapacity <= MAX_VECTOR_SIZE
      ensures Valid() && Contents() == []
      ensures Storage() == Growth.Storage(0, initialCapacity, 0)
    {
      mData, mCapacity, mSize, moved := [], initialCapacity, 0, 0;
    }

    constructor FromData(data: Option<seq<byte>>, size: nat)
      requires size <= MAX_VECTOR_SIZE && (data.Some? ==> size <= |data.value|)
      ensures Valid() && mSize == size
      ensures Contents() == if data.Some? then data.value[..size] else seq(size, _ => 0)
      ensures Growth.Amortised(Storage())
    {
      mSize := size;
      mCapacity := size;
      moved := 0;
      mData := if data.Some? then data.value[..size] else seq(size, _ => 0);
    }

    function GetData(): (d: seq<byte>)
      reads this
    {
      mData
    }

    function GetSize(): nat
      reads this
    {
      mSize
    }

    predicate IsEmpty()
      requires Valid()
      reads this
      ensures IsEmpty() <==> Contents() == []
    {
      mSize == 0
    }

    /** Keeps the storage, and with it the old bytes. */
    method Clear()
      requires Valid()
      modifies `mSize
      ensures Valid() && Contents() == []
    {
      mSize := 0;
    }

    /** `std::vector::reserve`, which moves every element when it reallocates.  Fails, by an
        exception, for a capacity no vector can have. */
    method Reserve(capacity: nat) returns (ok: bool)
      requires Valid()
      modifies `mCapacity, `moved
      ensures Valid()
      ensures ok <==> capacity <= MAX_VECTOR_SIZE
      ensures mCapacity == if ok && old(mCapacity) < capacity then capacity else old(mCapacity)
      ensures moved == old(moved) + (if ok && old(mCapacity) < capacity then |mData| else 0)
    {
      if capacity > MAX_VECTOR_SIZE {
        return false;
      }
      if mCapacity < capacity {
        mCapacity := capacity;
        moved := moved + |mData|;
      }
      return true;
    }

    /** `std::vector::resize`: elements up to the old size stay, those beyond it are zero.  When it
        has to reallocate, the library picks the new capacity: `picked`. */
    method ResizeVector(newSize: nat, picked: nat) returns (ok: bool)
      requires Valid() && newSize <= picked
      modifies `mData, `mCapacity, `moved
      ensures ok <==> newSize <= old(mCapacity) || picked <= MAX_VECTOR_SIZE
      ensures if ok then mData == Resized(old(mData), newSize) else mData == old(mData)
      ensures if ok && old(mCapacity) < newSize
              then mCapacity == picked && moved == old(moved) + |old(mData)|
              else mCapacity == old(mCapacity) && moved == old(moved)
    {
      if newSize > mCapacity {
        ok := Reserve(picked);
        if !ok {
          return;
        }
      }
      ok := true;
      mData := if newSize <= |mData| then mData[..newSize] else mData + seq(newSize - |mData|, _ => 0);
    }

    ghost function Resized(data: seq<byte>, size: nat): seq<byte> {
      seq(size, i requires 0 <= i => if i < |data| then data[i] else 0)
    }

    /** After a Clear the bytes that were there before come back. */
    method Resize(newSize: nat, picked: nat) returns (ok: bool)
      requires Valid() && newSize <= picked
      modifies this
      ensures Valid()
      ensures ok <==> newSize <= old(mCapacity) || picked <= MAX_VECTOR_SIZE
      ensures Contents() == if ok then Resized(old(mData), newSize) else old(Contents())
    {
      ok := ResizeVector(newSize, picked);
      if ok {
        mSize := newSize;
      }
    }

    /** Appends bytes from outside the buffer; `data` is None for a null pointer.  Fails, by an
        exception and without any effect, when the storage cannot be made large enough. */
    method Append(data: Option<seq<byte>>, size: nat) returns (ok: bool)
      requires Valid() && (data.Some? ==> size <= |data.value|)
      modifies this
      ensures Valid()
      ensures var n := if data.None? then 0 else size;
              && (ok <==> n == 0 || old(mSize) + n <= old(mCapacity) || 2 * (old(mSize) + n) <= MAX_VECTOR_SIZE)
              && Contents() == old(Contents()) + (if ok && n > 0 then data.value[..n] else [])
              && (old(|mData| == mSize) ==>
                   && |mData| == mSize
                   && Storage() == if ok then Growth.Append(old(Storage()), n) else old(Storage()))
    {
      if data.None? || size == 0 {
        return true;
      }
      var newSize := mSize + size;
      if newSize > mCapacity {
        ok := Reserve(newSize * 2);
        if !ok {
          return;
        }
      }
      ok := ResizeVector(newSize, newSize);
      assert mData[..mSize] == old(Contents());
      mData := mData[..mSize] + data.value[..size];
      mSize := newSize;
    }

    method SetData(data: Option<seq<byte>>, size: nat, picked: nat) returns (ok: bool)
      requires Valid() && size <= picked && (data.Some? ==> size <= |data.value|)
      modifies this
      ensures Valid()
      ensures ok <==> data.None? || size == 0 || size <= old(mCapacity) || picked <= MAX_VECTOR_SIZE
      ensures Contents() == if ok && data.Some? then data.value[..size] else []
    {
      Clear();
      if data.None? || size == 0 {
        return true;
      }
      ok := ResizeVector(size, picked);
      if ok {
        mData := data.value[..size];
        mSize := size;
      }
    }
  }
}

/** A packet buffer as its users build packets: by a run of appends. */
module PacketRuns {
  import opened Types
  import opened PacketBuffers
  import Growth

  function Concat(inputs: seq<seq<byte>>): seq<byte> {
    if inputs == [] then [] else Concat(inputs[..|inputs| - 1]) + inputs[|inputs| - 1]
  }

  function Sizes(inputs: seq<seq<byte>>): seq<nat> {
    seq(|inputs|, i requires 0 <= i < |inputs| => |inputs[i]|)
  }

  lemma {:induction false} ConcatPrefix(inputs: seq<seq<byte>>, k: nat)
    requires k <= |inputs|
    ensures |Concat(inputs[..k])| <= |Concat(inputs)|
    decreases |inputs|
  {
    if k < |inputs| {
      ConcatPrefix(inputs[..|inputs| - 1], k);
      assert inputs[..|inputs| - 1][..k] == inputs[..k];
    } else {
      assert inputs[..k] == inputs;
    }
  }

  lemma {:induction false} AppendOneMore(s: Growth.Storage, sizes: seq<nat>, n: nat)
    ensures Growth.AppendAll(s, sizes + [n]) == Growth.Append(Growth.AppendAll(s, sizes), n)
    decreases |sizes|
  {
    var more := sizes + [n];
    if sizes == [] {
      assert more == [n] && more[1..] == [];
    } else {
      assert more[1..] == sizes[1..] + [n];
      AppendOneMore(Growth.Append(s, sizes[0]), sizes[1..], n);
    }
  }

  lemma NextInput(s: Growth.Storage, inputs: seq<seq<byte>>, k: nat)
    requires k < |inputs|
    ensures Concat(inputs[..k + 1]) == Concat(inputs[..k]) + inputs[k] && |Concat(inputs[..k + 1])| <= |Concat(inputs)|
    ensures Growth.AppendAll(s, Sizes(inputs[..k + 1]))
         == Growth.Append(Growth.AppendAll(s, Sizes(inputs[..k])), |inputs[k]|)
  {
    ConcatPrefix(inputs, k + 1);
    assert inputs[..k + 1] == inputs[..k] + [inputs[k]] && inputs[..k + 1][..k] == inputs[..k];
    assert Sizes(inputs[..k + 1]) == Sizes(inputs[..k]) + [|inputs[k]|];
    AppendOneMore(s, Sizes(inputs[..k]), |inputs[k]|);
  }

  /** Appends all inputs, up to the first that storage cannot be found for: the contents are the old
      ones and those inputs one after the other, and reallocations have moved fewer bytes than twice
      that. */
  method AppendAll(buffer: PacketBuffer, inputs: seq<seq<byte>>) returns (k: nat)
    requires buffer.Valid() && |buffer.mData| == buffer.mSize && Growth.Amortised(buffer.Storage())
    modifies buffer
    ensures buffer.Valid() && k <= |inputs|
    ensures buffer.Contents() == old(buffer.Contents()) + Concat(inputs[..k])
    ensures buffer.Storage() == Growth.AppendAll(old(buffer.Storage()), Sizes(inputs[..k]))
    ensures buffer.moved == 0 || buffer.moved < 2 * buffer.mSize
    ensures 2 * (old(buffer.mSize) + |Concat(inputs)|) <= MAX_VECTOR_SIZE ==> k == |inputs|
  {
    k := 0;
    Growth.MovesAreAmortised(buffer.Storage(), []);
    while k < |inputs|
      invariant k <= |inputs|
      invariant buffer.Valid() && |buffer.mData| == buffer.mSize
      invariant buffer.Contents() == old(buffer.Contents()) + Concat(inputs[..k])
      invariant buffer.Storage() == Growth.AppendAll(old(buffer.Storage()), Sizes(inputs[..k]))
    {
      NextInput(old(buffer.Storage()), inputs, k);
      var ok := buffer.Append(Some(inputs[k]), |inputs[k]|);
      if !ok {
        break;
      }
      k := k + 1;
    }
    Growth.MovesAreAmortised(old(buffer.Storage()), Sizes(inputs[..k]));
  }
}
