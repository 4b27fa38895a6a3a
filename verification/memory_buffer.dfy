/**
 * ola::io::MemoryBuffer: a read cursor over a block of memory that the buffer
 * wraps but does not own. Get hands out the next bytes, at most as many as were
 * asked for, and advances the cursor past them.
 */
module Io {
  import opened BaseTypes

  /** How many bytes Get hands out: the request, clamped to the bytes left. */
  function Clamp(size: nat, cursor: nat, requested: nat): (n: nat)
    requires cursor <= size
    ensures n <= requested && n <= size - cursor
    ensures n == requested || n == size - cursor
  {
    if size - cursor < requested then size - cursor else requested
  }

  /** The outcome of one read: the bytes handed out and where the cursor ends up. */
  datatype Read = Read(bytes: seq<uint8>, cursor: nat)

  /** One Get on the block `block` with the cursor at `cursor`. */
  function ReadAt(block: seq<uint8>, cursor: nat, requested: nat): (r: Read)
    requires cursor <= |block|
    ensures |r.bytes| == Clamp(|block|, cursor, requested)
    ensures cursor <= r.cursor <= |block|
    // nothing is lost or handed out twice: the bytes read, then the bytes
    // still unread, are exactly what was unread before
    ensures r.bytes + block[r.cursor..] == block[cursor..]
    ensures cursor == |block| ==> r == Read([], cursor)
  {
    var n := Clamp(|block|, cursor, requested);
    assert block[cursor..cursor + n] + block[cursor + n..] == block[cursor..];
    Read(block[cursor..cursor + n], cursor + n)
  }

  /** The bytes handed out, concatenated, by successive Gets of the given lengths. */
  function ReadAll(block: seq<uint8>, cursor: nat, requests: seq<nat>): seq<uint8>
    requires cursor <= |block|
    decreases |requests|
  {
    if requests == [] then []
    else
      var r := ReadAt(block, cursor, requests[0]);
      r.bytes + ReadAll(block, r.cursor, requests[1..])
  }

  /** The total number of bytes asked for. */
  function Total(requests: seq<nat>): nat
  {
    if requests == [] then 0 else requests[0] + Total(requests[1..])
  }

  /**
   * Successive Gets hand out a contiguous run of the block, starting at the
   * cursor, whose length is the total requested clamped to the bytes left;
   * from a fresh buffer that is the prefix of length min(total, size).
   */
  lemma {:induction false} ReadAllIsPrefix(block: seq<uint8>, cursor: nat, requests: seq<nat>)
    requires cursor <= |block|
    ensures ReadAll(block, cursor, requests)
         == block[cursor..cursor + Clamp(|block|, cursor, Total(requests))]
    decreases |requests|
  {
    if requests != [] {
      var r := ReadAt(block, cursor, requests[0]);
      var rest := requests[1..];
      ReadAllIsPrefix(block, r.cursor, rest);
      var m := Clamp(|block|, r.cursor, Total(rest));
      assert r.bytes == block[cursor..r.cursor];
      assert r.cursor + m == cursor + Clamp(|block|, cursor, Total(requests));
      assert block[cursor..r.cursor] + block[r.cursor..r.cursor + m] == block[cursor..r.cursor + m];
    }
  }

  class MemoryBuffer {
    /** The wrapped block (m_data); the buffer reads it and never writes it. */
    const data: array<uint8>
    /** The number of bytes of the block that are readable (m_size). */
    const size: uint32
    /** The index of the next byte to hand out (m_cursor). */
    var cursor: uint32

    ghost predicate Valid()
      reads this
    {
      cursor <= size <= data.Length
    }

    /** The readable block, as a value. */
    ghost function Block(): (b: seq<uint8>)
      reads this, data
      requires Valid()
      ensures |b| == size
    {
      data[..size]
    }

    /** The bytes handed out so far. */
    ghost function Consumed(): (c: seq<uint8>)
      reads this, data
      requires Valid()
      ensures c <= Block() && |c| == cursor
    {
      data[..cursor]
    }

    /** Wraps `size` bytes at `data`; the caller keeps ownership of the memory. */
    constructor (data: array<uint8>, size: uint32)
      requires size <= data.Length
      ensures Valid()
      ensures this.data == data && this.size == size && cursor == 0
      ensures Consumed() == []
    {
      this.data := data;
      this.size := size;
      cursor := 0;
    }

    /**
     * Copies up to `requested` bytes into `out` and returns how many it copied
     * (the C++ passes that count in and out through `*length`).
     */
    method Get(out: array<uint8>, requested: uint32) returns (length: uint32)
      requires Valid()
      // memcpy forbids overlapping source and destination; this is stricter,
      // excluding also a disjoint copy into another part of the wrapped array,
      // which is what lets Get promise that the wrapped data is unchanged
      requires out != data
      requires Clamp(size, cursor, requested) <= out.Length
      modifies this`cursor, out
      ensures Valid()
      ensures length == Clamp(size, old(cursor), requested)
      ensures cursor == old(cursor) + length
      ensures out[..length] == Block()[old(cursor)..cursor]
      ensures out[length..] == old(out[length..])
      ensures data[..] == old(data[..])
      ensures ReadAt(Block(), old(cursor), requested) == Read(out[..length], cursor)
      ensures Consumed() == old(Consumed()) + out[..length]
    {
      length := Clamp(size, cursor, requested);
      var start := cursor;
      forall i | 0 <= i < length {
        out[i] := data[start + i];
      }
      cursor := start + length;
      assert Block()[start..cursor] == data[start..cursor];
      forall i | 0 <= i < length
        ensures out[..length][i] == data[start..cursor][i]
      {
        assert out[i] == data[start + i];
      }
      assert out[..length] == data[start..cursor];
      assert data[..cursor] == data[..start] + data[start..cursor];
    }
  }
}
