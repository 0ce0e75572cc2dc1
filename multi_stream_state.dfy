/** A stream's state when any number of client sessions may be connected.
    The first session to connect creates the shared-memory block named after
    its port and stream; each session is told that name; data written to the
    stream goes to the block and nowhere else. */
module MultiStream {
  import opened SharedMemory

  /** A client's connection, as far as the stream state uses it. */
  class Session {
    const port: uint16
    const streamId: StreamId
    var sharedMemory: SharedMemoryBlock?
    /** The text messages written back to the client, oldest first. */
    var sent: seq<string>

    constructor (port: uint16, streamId: StreamId)
      ensures this.port == port && this.streamId == streamId
      ensures sharedMemory == null && sent == []
    {
      this.port := port;
      this.streamId := streamId;
      sharedMemory := null;
      sent := [];
    }
  }

  // ---------------------------------------------------------------------------
  // Messages: a 4-byte header holding the payload size, then the payload buffers.

  /** The payload buffers laid end to end. */
  function Concat(buffers: seq<seq<byte>>): seq<byte>
  {
    if |buffers| == 0 then [] else Concat(buffers[..|buffers| - 1]) + buffers[|buffers| - 1]
  }

  lemma {:induction false} ConcatAppend(a: seq<seq<byte>>, b: seq<seq<byte>>)
    ensures Concat(a + b) == Concat(a) + Concat(b)
    decreases |b|
  {
    if b == [] {
      assert a + b == a;
    } else {
      var n := |b| - 1;
      assert (a + b)[..|a + b| - 1] == a + b[..n];
      ConcatAppend(a, b[..n]);
    }
  }

  /** The little-endian bytes of a size cut down to 32 bits. */
  function SizeHeader(size: nat): (h: seq<byte>)
    ensures |h| == 4
    ensures (h[0] as int) + 0x100 * (h[1] as int) + 0x1_0000 * (h[2] as int) + 0x100_0000 * (h[3] as int) == size % 0x1_0000_0000
  {
    var v := size % 0x1_0000_0000;
    var q1 := v / 0x100;
    var q2 := q1 / 0x100;
    var q3 := q2 / 0x100;
    assert q3 < 0x100;
    [(v % 0x100) as byte, (q1 % 0x100) as byte, (q2 % 0x100) as byte, q3 as byte]
  }

  datatype Message = Message(size: nat, buffers: seq<seq<byte>>)
  {
    /** The buffers after the size header. */
    function Payload(): seq<seq<byte>>
    {
      if buffers == [] then [] else buffers[1..]
    }

    ghost predicate Valid()
    {
      |buffers| >= 1 && size == |Concat(Payload())|
    }
  }

  function MakeMessage(payload: seq<seq<byte>>): (m: Message)
    ensures m.Valid() && m.Payload() == payload
    ensures m.buffers[0] == SizeHeader(m.size)
  {
    var size := |Concat(payload)|;
    var m := Message(size, [SizeHeader(size)] + payload);
    assert m.buffers[1..] == payload;
    m
  }

  /** `memcpy(dst + at, src, |src|)`. */
  method Memcpy(dst: array<byte>, at: nat, src: seq<byte>)
    requires at + |src| <= dst.Length
    modifies dst
    ensures dst[..] == old(dst[..at]) + src + old(dst[at + |src|..])
  {
    var j := 0;
    while j < |src|
      invariant 0 <= j <= |src|
      invariant forall k :: 0 <= k < dst.Length ==> dst[k] == if at <= k < at + j then src[k - at] else old(dst[k])
    {
      dst[at + j] := src[j];
      j := j + 1;
    }
    assert dst[..] == old(dst[..at]) + src + old(dst[at + |src|..]);
  }

  /** The buffers already copied once the loop has visited the first `i`. */
  function Copied(buffers: seq<seq<byte>>, i: nat): seq<seq<byte>>
    requires i <= |buffers|
  {
    if i <= 1 then [] else buffers[1..i]
  }

  lemma CopiedStep(buffers: seq<seq<byte>>, i: nat)
    requires 1 <= i < |buffers|
    ensures Concat(Copied(buffers, i + 1)) == Concat(Copied(buffers, i)) + buffers[i]
    ensures |Concat(Copied(buffers, i + 1))| <= |Concat(buffers[1..])|
  {
    assert buffers[1..i + 1][..i - 1] == buffers[1..i];
    ConcatAppend(buffers[1..i + 1], buffers[i + 1..]);
    assert buffers[1..i + 1] + buffers[i + 1..] == buffers[1..];
  }

  /** Copying `b` at `|c|` over a region holding `c` then the rest of `original`. */
  lemma Splice(c: seq<byte>, b: seq<byte>, original: seq<byte>)
    requires |c| + |b| <= |original|
    ensures (c + original[|c|..])[..|c|] + b + (c + original[|c|..])[|c| + |b|..] == c + b + original[|c| + |b|..]
  {
    var rest := original[|c|..];
    assert (c + rest)[..|c|] == c;
    assert (c + rest)[|c| + |b|..] == rest[|b|..] == original[|c| + |b|..];
  }

  lemma CopiedAll(message: Message)
    requires message.Valid()
    ensures Copied(message.buffers, |message.buffers|) == message.Payload()
  {
  }

  /** The loop body's copy: buffer `i` copied at `at`, right after the
      bytes of the buffers before it, over the region's `original` contents. */
  method CopyBuffer(region: array<byte>, at: nat, buffers: seq<seq<byte>>, i: nat, ghost original: seq<byte>)
    requires 1 <= i < |buffers| && |Concat(buffers[1..])| <= |original| == region.Length
    requires at == |Concat(Copied(buffers, i))| <= |Concat(buffers[1..])|
    requires region[..] == Concat(Copied(buffers, i)) + original[at..]
    modifies region
    ensures at + |buffers[i]| == |Concat(Copied(buffers, i + 1))| <= |Concat(buffers[1..])|
    ensures region[..] == Concat(Copied(buffers, i + 1)) + original[at + |buffers[i]|..]
  {
    CopiedStep(buffers, i);
    Splice(Concat(Copied(buffers, i)), buffers[i], original);
    Memcpy(region, at, buffers[i]);
  }

  /** The writer's callback: every buffer of the message but the size header,
      copied one after another from the start of the region. The loop starts
      at buffer 1, which is what skipping buffer 0 inside the loop does. */
  method CopyPayload(region: array<byte>, message: Message)
    requires message.Valid() && message.size <= region.Length
    modifies region
    ensures region[..] == Concat(message.Payload()) + old(region[..])[message.size..]
  {
    var buffers := message.buffers;
    ghost var original := region[..];
    assert message.Payload() == buffers[1..];
    var ptr := 0;
    var i := 1;
    while i < |buffers|
      invariant 1 <= i <= |buffers|
      invariant ptr == |Concat(Copied(buffers, i))| <= |Concat(buffers[1..])|
      invariant region[..] == Concat(Copied(buffers, i)) + original[ptr..]
    {
      CopyBuffer(region, ptr, buffers, i, original);
      ptr := ptr + |buffers[i]|;
      i := i + 1;
    }
    CopiedAll(message);
  }

  // ---------------------------------------------------------------------------
  // Removing every occurrence of a session, order kept (std::remove then erase).

  function RemoveAll(s: seq<Session>, x: Session): (r: seq<Session>)
    ensures |r| <= |s| && x !in r
    ensures forall y :: y in r ==> y in s
  {
    if s == [] then []
    else RemoveAll(s[..|s| - 1], x) + (if s[|s| - 1] == x then [] else [s[|s| - 1]])
  }

  /** Every other session keeps its number of occurrences. */
  lemma {:induction false} RemoveAllKeepsOthers(s: seq<Session>, x: Session, y: Session)
    requires y != x
    ensures multiset(RemoveAll(s, x))[y] == multiset(s)[y]
    decreases |s|
  {
    if s != [] {
      var n := |s| - 1;
      assert s == s[..n] + [s[n]];
      RemoveAllKeepsOthers(s[..n], x, y);
    }
  }

  /** The sessions that stay keep their relative order. */
  lemma {:induction false} RemoveAllAppend(a: seq<Session>, b: seq<Session>, x: Session)
    ensures RemoveAll(a + b, x) == RemoveAll(a, x) + RemoveAll(b, x)
    decreases |b|
  {
    if b == [] {
      assert a + b == a;
    } else {
      var n := |b| - 1;
      assert (a + b)[..|a + b| - 1] == a + b[..n];
      RemoveAllAppend(a, b[..n], x);
    }
  }

  lemma {:induction false} RemoveAllAbsent(s: seq<Session>, x: Session)
    requires x !in s
    ensures RemoveAll(s, x) == s
    decreases |s|
  {
    if s != [] {
      var n := |s| - 1;
      assert s[..n] + [s[n]] == s;
      RemoveAllAbsent(s[..n], x);
    }
  }

  /** A new session that connects and then disconnects leaves the list as it was. */
  lemma ConnectDisconnectRestores(s: seq<Session>, x: Session)
    requires x !in s
    ensures RemoveAll(s + [x], x) == s
  {
    RemoveAllAppend(s, [x], x);
    RemoveAllAbsent(s, x);
    assert RemoveAll([x], x) == [];
  }

  class MultiStreamState {
    var sessions: seq<Session>
    /** The one session, when there is exactly one. */
    var session: Session?
    var sharedMemory: SharedMemoryBlock?

    ghost predicate Valid()
      reads this, sharedMemory
    {
      (session != null <==> |sessions| == 1) &&
      (session != null ==> session == sessions[0]) &&
      (|sessions| > 0 ==> sharedMemory != null) &&
      (sharedMemory != null ==> sharedMemory.Valid() && sharedMemory.hasMutex && !sharedMemory.readOnly)
    }

    constructor ()
      ensures Valid() && sessions == [] && session == null && sharedMemory == null
    {
      sessions := [];
      session := null;
      sharedMemory := null;
    }

    /** The first session creates the block "carla_<port>_<stream id>"; every
        session is handed the block and sent its name, then appended. */
    method ConnectSession(s: Session)
      requires Valid()
      modifies this, s
      ensures Valid()
      ensures sessions == old(sessions) + [s]
      ensures old(sessions) == [] ==>
        fresh(sharedMemory) && sharedMemory.name == BlockName(s.port, s.streamId) && sharedMemory.memory[..] == Zeros(100) &&
        sharedMemory.removedObjects == [sharedMemory.name, MutexName(sharedMemory.name), ConditionName(sharedMemory.name)]
      ensures old(sessions) != [] ==> sharedMemory == old(sharedMemory)
      ensures s.sharedMemory == sharedMemory && s.sent == old(s.sent) + [sharedMemory.name]
    {
      if |sessions| == 0 {
        var block := new SharedMemoryBlock();
        var _ := block.CreateForStream(s.port, s.streamId);
        sharedMemory := block;
      }
      s.sharedMemory := sharedMemory;
      var name := sharedMemory.GetName();
      s.sent := s.sent + [name];
      sessions := sessions + [s];
      if |sessions| == 1 {
        session := sessions[0];
      } else {
        session := null;
      }
    }

    /** With one session the list is cleared and the block dropped, whichever
        session is named; with more, every occurrence of `s` is removed. */
    method DisconnectSession(s: Session)
      requires Valid()
      modifies this
      ensures Valid()
      ensures old(|sessions|) == 0 ==> sessions == [] && sharedMemory == old(sharedMemory)
      ensures old(|sessions|) == 1 ==> sessions == [] && sharedMemory == null
      ensures old(|sessions|) > 1 ==> sessions == RemoveAll(old(sessions), s) && sharedMemory == old(sharedMemory)
    {
      if |sessions| == 0 {
        return;
      }
      if |sessions| == 1 {
        session := null;
        sessions := [];
        sharedMemory := null;
      } else {
        sessions := RemoveAll(sessions, s);
        if |sessions| == 1 {
          session := sessions[0];
        } else {
          session := null;
        }
      }
    }

    method ClearSessions()
      modifies this
      ensures Valid() && sessions == [] && session == null && sharedMemory == null
    {
      sessions := [];
      session := null;
      sharedMemory := null;
    }

    /** Writes a message made of `payload` into the block, resized to the
        payload's size; without a block the message goes nowhere. Mapping an
        empty block fails, so a payload of no bytes makes the write fail
        (`ok` is false; the source raises) after the block was emptied. */
    method Write(payload: seq<seq<byte>>) returns (ok: bool)
      requires Valid()
      modifies (if sharedMemory == null then {} else {sharedMemory})`memory, if sharedMemory == null then {} else {sharedMemory.memory}
      ensures Valid()
      ensures ok <==> sharedMemory == null || Concat(payload) != []
      ensures sharedMemory != null ==> sharedMemory.memory[..] == Concat(payload)
    {
      var message := MakeMessage(payload);
      if sharedMemory == null {
        return true;
      }
      var _ := sharedMemory.Resize(message.size);
      var region := sharedMemory.WaitForWriting();
      if !region.Mapped? {
        return false;
      }
      CopyPayload(region.value, message);
      return true;
    }
  }
}
