/** A named block of interprocess shared memory, with the named mutex and
    condition that guard it. The operating system's objects are modelled by
    the block's bytes and a log of the names whose objects were removed;
    locking and waiting are not modelled. */
module SharedMemory {
  import opened Wrappers
  import opened Decimal

  newtype byte = x: int | 0 <= x < 256

  type uint16 = x: int | 0 <= x < 0x1_0000
  type StreamId = x: int | 0 <= x < 0x1_0000_0000

  /** The block's name for a port and stream: "carla_<port>_<stream id>". */
  function BlockName(port: uint16, streamId: StreamId): string
  {
    "carla_" + NatToString(port) + "_" + NatToString(streamId)
  }

  function MutexName(name: string): string { name + "_mutex" }

  function ConditionName(name: string): string { name + "_condition" }

  /** Split on '_', a block name reads back as "carla", the port and the stream id. */
  lemma BlockNameFields(port: uint16, streamId: StreamId)
    ensures ParseIntoArray(BlockName(port, streamId), '_') == ["carla", NatToString(port), NatToString(streamId)]
  {
    var p := NatToString(port);
    var s := NatToString(streamId);
    DigitsHaveNoSeparator(p, '_');
    DigitsHaveNoSeparator(s, '_');
    assert BlockName(port, streamId) == ("carla" + ['_'] + p) + ['_'] + s;
    FieldsOfJoin("carla" + ['_'] + p, '_', s);
    FieldsOfJoin("carla", '_', p);
    FieldsWithoutSeparator("carla", '_');
    FieldsWithoutSeparator(p, '_');
    FieldsWithoutSeparator(s, '_');
  }

  /** Different (port, stream) pairs never share a block name. */
  lemma BlockNameInjective(p1: uint16, s1: StreamId, p2: uint16, s2: StreamId)
    requires BlockName(p1, s1) == BlockName(p2, s2)
    ensures p1 == p2 && s1 == s2
  {
    BlockNameFields(p1, s1);
    BlockNameFields(p2, s2);
    NatToStringInjective(p1, p2);
    NatToStringInjective(s1, s2);
  }

  /** The three names of a block's objects differ from each other, and each
      determines the block name it was made from. */
  lemma ObjectNamesDistinct(name: string, other: string)
    ensures name != MutexName(name) && name != ConditionName(name) && MutexName(name) != ConditionName(name)
    ensures MutexName(name) == MutexName(other) ==> name == other
    ensures ConditionName(name) == ConditionName(other) ==> name == other
  {
    if MutexName(name) == MutexName(other) {
      assert name == MutexName(name)[..|name|] == MutexName(other)[..|other|] == other;
    }
    if ConditionName(name) == ConditionName(other) {
      assert name == ConditionName(name)[..|name|] == ConditionName(other)[..|other|] == other;
    }
  }

  function Zeros(n: nat): (r: seq<byte>)
    ensures |r| == n && forall i :: 0 <= i < n ==> r[i] == 0
  {
    seq(n, i => 0)
  }

  /** Truncating a memory object to `size` bytes: a shorter object keeps its
      prefix, a longer one is filled with zero bytes. */
  function Resized(contents: seq<byte>, size: nat): (r: seq<byte>)
    ensures |r| == size
    ensures forall i :: 0 <= i < size ==> r[i] == if i < |contents| then contents[i] else 0
  {
    if size <= |contents| then contents[..size] else contents + Zeros(size - |contents|)
  }

  /** How a call that maps the memory ends: it returns at once without
      calling back, it fails (the source raises an interprocess exception),
      or the callback is handed the mapped memory. */
  datatype Mapping<T> = Skipped | Failed | Mapped(value: T)

  class SharedMemoryBlock {
    var name: string
    var mutexName: string
    var conditionName: string
    /** Whether the memory object, and the mutex and condition, have been opened. */
    var hasMemory: bool
    var hasMutex: bool
    /** Whether the memory object was opened for reading only. */
    var readOnly: bool
    /** The contents of the shared memory object, as its mapped region shows them. */
    var memory: array<byte>
    /** The names whose operating-system objects this block removed, in order. */
    var removedObjects: seq<string>

    ghost predicate Valid()
      reads this
    {
      (hasMutex ==> hasMemory) &&
      (hasMutex ==> mutexName == MutexName(name) && conditionName == ConditionName(name))
    }

    constructor ()
      ensures Valid() && !hasMemory && !hasMutex && !readOnly
      ensures name == "" && mutexName == "" && conditionName == "" && removedObjects == []
    {
      name, mutexName, conditionName := "", "", "";
      hasMemory, hasMutex, readOnly := false, false, false;
      memory := new byte[0];
      removedObjects := [];
    }

    method RemoveNamedObjects(objectName: string)
      modifies this`mutexName, this`conditionName, this`removedObjects
      ensures mutexName == MutexName(objectName) && conditionName == ConditionName(objectName)
      ensures removedObjects == old(removedObjects) + [objectName, MutexName(objectName), ConditionName(objectName)]
    {
      removedObjects := removedObjects + [objectName];
      mutexName := MutexName(objectName);
      removedObjects := removedObjects + [mutexName];
      conditionName := ConditionName(objectName);
      removedObjects := removedObjects + [conditionName];
    }

    method CreateMutex(objectName: string) returns (ok: bool)
      modifies this`mutexName, this`conditionName, this`hasMutex
      ensures ok && hasMutex
      ensures mutexName == MutexName(objectName) && conditionName == ConditionName(objectName)
    {
      mutexName := MutexName(objectName);
      conditionName := ConditionName(objectName);
      hasMutex := true;
      return true;
    }

    /** Removes any old objects of that name, creates an empty memory object
        for reading and writing and its mutex, and forces a size of 100 zero bytes. */
    method Create(objectName: string) returns (ok: bool)
      modifies this
      ensures Valid() && ok && hasMemory && hasMutex && !readOnly && name == objectName
      ensures fresh(memory) && memory[..] == Zeros(100)
      ensures removedObjects == old(removedObjects) + [objectName, MutexName(objectName), ConditionName(objectName)]
    {
      RemoveNamedObjects(objectName);
      memory := new byte[0];
      hasMemory, readOnly := true, false;
      var created := CreateMutex(objectName);
      if !created {
        return false;
      }
      var _ := Resize(100);
      assert memory[..] == Zeros(100);
      name := objectName;
      return true;
    }

    method CreateForStream(port: uint16, streamId: StreamId) returns (ok: bool)
      modifies this
      ensures Valid() && ok && hasMemory && hasMutex && !readOnly && name == BlockName(port, streamId)
      ensures fresh(memory) && memory[..] == Zeros(100)
      ensures removedObjects == old(removedObjects) + [name, MutexName(name), ConditionName(name)]
    {
      ok := Create(BlockName(port, streamId));
    }

    /** Opens, for reading only, the memory object of that name, whose current
        bytes are `existing`, and its mutex; the size is left as it is. When
        no object has the name (`existing` is None) opening fails before
        anything is changed. */
    method Open(objectName: string, existing: Option<seq<byte>>) returns (ok: bool)
      modifies this`memory, this`hasMemory, this`readOnly, this`mutexName, this`conditionName, this`hasMutex, this`name
      ensures existing.None? ==> !ok && unchanged(this)
      ensures existing.Some? ==> Valid() && ok && hasMemory && hasMutex && readOnly && name == objectName
      ensures existing.Some? ==> fresh(memory) && memory[..] == existing.value
    {
      if existing.None? {
        return false;
      }
      var bytes := existing.value;
      memory := new byte[|bytes|](i requires 0 <= i < |bytes| => bytes[i]);
      hasMemory, readOnly := true, true;
      var created := CreateMutex(objectName);
      if !created {
        return false;
      }
      name := objectName;
      return true;
    }

    method OpenForStream(port: uint16, streamId: StreamId, existing: Option<seq<byte>>) returns (ok: bool)
      modifies this`memory, this`hasMemory, this`readOnly, this`mutexName, this`conditionName, this`hasMutex, this`name
      ensures existing.None? ==> !ok && unchanged(this)
      ensures existing.Some? ==> Valid() && ok && hasMemory && hasMutex && readOnly && name == BlockName(port, streamId)
      ensures existing.Some? ==> fresh(memory) && memory[..] == existing.value
    {
      ok := Open(BlockName(port, streamId), existing);
    }

    /** Truncates the memory object only when its size differs from the
        request; truncating an object opened for reading only fails. */
    method Resize(size: nat) returns (ok: bool)
      requires hasMemory
      modifies this`memory
      ensures ok <==> !readOnly || old(memory.Length) == size
      ensures ok ==> memory.Length == size && memory[..] == Resized(old(memory[..]), size)
      ensures !ok ==> memory == old(memory)
      ensures old(memory.Length) == size ==> memory == old(memory)
      ensures ok && old(memory.Length) != size ==> fresh(memory)
    {
      var currentSize := memory.Length;
      if currentSize != size {
        if readOnly {
          return false;
        }
        var contents := Resized(memory[..], size);
        memory := new byte[size](i requires 0 <= i < size => contents[i]);
      }
      assert memory[..] == Resized(old(memory[..]), size);
      return true;
    }

    /** The object's size, or 0 when the size query fails (`queryOk` is false). */
    method GetSize(queryOk: bool) returns (size: nat)
      requires hasMemory
      ensures queryOk ==> size == memory.Length
      ensures !queryOk ==> size == 0
    {
      if queryOk {
        size := memory.Length;
      } else {
        size := 0;
      }
    }

    method GetName() returns (n: string)
      ensures n == name
    {
      n := name;
    }

    /** Without a mutex the writer is not called back. Otherwise the object is
        mapped for reading and writing, which fails for an object opened for
        reading only and for an empty object; the writer gets the region. */
    method WaitForWriting() returns (region: Mapping<array<byte>>)
      ensures !hasMutex ==> region == Skipped
      ensures hasMutex && (readOnly || memory.Length == 0) ==> region == Failed
      ensures hasMutex && !readOnly && memory.Length > 0 ==> region == Mapped(memory)
    {
      if !hasMutex {
        return Skipped;
      }
      if readOnly || memory.Length == 0 {
        return Failed;
      }
      region := Mapped(memory);
    }

    /** Without a mutex the reader is not called back. Otherwise, once
        notified, the object is mapped for reading, which fails for an empty
        object; the reader gets the current bytes. */
    method WaitForReading() returns (contents: Mapping<seq<byte>>)
      ensures !hasMutex ==> contents == Skipped
      ensures hasMutex && memory.Length == 0 ==> contents == Failed
      ensures hasMutex && memory.Length > 0 ==> contents == Mapped(memory[..])
    {
      if !hasMutex {
        return Skipped;
      }
      if memory.Length == 0 {
        return Failed;
      }
      contents := Mapped(memory[..]);
    }
  }
}
