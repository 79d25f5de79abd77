/** internal/logging/ringbuf.go: the in-memory tail of a process's output. */
module RingBuffers {
  import opened Basics

  /** Upper bounds on the size of a buffer and of one read. */
  const MAX_SIZE := 0x10_0000
  const MAX_READ := 0x1_0000

  /** The last `n` elements, or all of them if there are fewer. */
  function Last<T>(s: seq<T>, n: nat): seq<T> {
    if |s| <= n then s else s[|s| - n..]
  }

  lemma LastSnoc<T>(s: seq<T>, x: T, n: nat)
    requires n > 0
    ensures |Last(s, n)| > 0 || |s| < n
    ensures Last(s + [x], n) == (if |s| < n then Last(s, n) else Last(s, n)[1..]) + [x]
  {}

  lemma LastOfLast<T>(s: seq<T>, m: nat, n: nat)
    requires m <= n
    ensures Last(Last(s, n), m) == Last(s, m)
  {}

  /** An index that has run past the end of the buffer by less than its length, brought back. */
  function Wrap(x: nat, size: nat): (r: nat)
    requires x < 2 * size
    ensures r == if x < size then x else x - size
  {
    SmallMod(x, size);
    x % size
  }

  lemma SmallMod(x: nat, m: nat)
    requires x < 2 * m
    ensures x % m == if x < m then x else x - m
  {
    if x >= m {
      assert x == m + (x - m);
    }
  }

  /** The bytes a buffer holds, oldest first. */
  function Held(buf: seq<byte>, pos: nat, full: bool): seq<byte>
    requires pos <= |buf|
  {
    if full then buf[pos..] + buf[..pos] else buf[..pos]
  }

  function NextPos(pos: nat, size: nat): nat {
    if pos + 1 == size then 0 else pos + 1
  }

  /** Storing one byte appends it, and drops the oldest once the buffer is full. */
  lemma HeldAfterPut(buf: seq<byte>, pos: nat, full: bool, b: byte)
    requires pos < |buf|
    ensures var pos' := NextPos(pos, |buf|);
      Held(buf[pos := b], pos', full || pos' == 0) ==
        if full then Held(buf, pos, full)[1..] + [b] else Held(buf, pos, full) + [b]
  {
    assert buf[pos := b] == buf[..pos] + [b] + buf[pos + 1..];
  }

  lemma HeldLength(buf: seq<byte>, pos: nat, full: bool)
    requires pos <= |buf|
    ensures |Held(buf, pos, full)| == if full then |buf| else pos
  {}

  /** The i-th of the last `count` bytes held, by its place in the buffer. */
  lemma HeldAt(buf: seq<byte>, pos: nat, full: bool, count: nat, i: nat)
    requires pos < |buf| && i < count <= |Held(buf, pos, full)|
    ensures var held := Held(buf, pos, full);
      var start := if pos < count then pos - count + |buf| else pos - count;
      held[|held| - count + i] == buf[if start + i < |buf| then start + i else start + i - |buf|]
  {}

  class RingBuffer {
    var buf: array<byte>
    var size: nat
    var pos: nat
    var full: bool
    /** Everything written since creation or the last reset. */
    ghost var written: seq<byte>

    ghost predicate Valid()
      reads this, buf
    {
      && 1 <= size <= MAX_SIZE && buf.Length == size && pos < size
      && (full <==> |written| >= size)
      && Held(buf[..], pos, full) == Last(written, size)
    }

    constructor (requested: int)
      ensures Valid() && fresh(buf) && written == []
      ensures size == if requested <= 0 then 1 else if requested > MAX_SIZE then MAX_SIZE else requested
    {
      var n := requested;
      if n <= 0 {
        n := 1;
      }
      if n > MAX_SIZE {
        n := MAX_SIZE;
      }
      buf := new byte[n](_ => 0);
      size, pos, full := n, 0, false;
      written := [];
    }

    /** One turn of the loop in Write. */
    method Put(b: byte)
      requires Valid()
      modifies this, buf
      ensures Valid() && buf == old(buf) && size == old(size)
      ensures written == old(written) + [b]
    {
      HeldAfterPut(buf[..], pos, full, b);
      LastSnoc(written, b, size);
      hide Wrap, Last, Held;
      ghost var stored := buf[..][pos := b];
      buf[pos] := b;
      assert buf[..] == stored;
      pos := Wrap(pos + 1, size);
      if pos == 0 {
        full := true;
      }
      written := written + [b];
    }

    method Write(p: seq<byte>)
      requires Valid()
      modifies this, buf
      ensures Valid() && buf == old(buf) && size == old(size)
      ensures written == old(written) + p
    {
      hide Last, Held;
      for i := 0 to |p|
        invariant Valid() && buf == old(buf) && size == old(size)
        invariant written == old(written) + p[..i]
      {
        Put(p[i]);
        assert p[..i + 1] == p[..i] + [p[i]];
      }
      assert p[..|p|] == p;
    }

    /** The copying loop of Read. */
    method CopyOut(count: nat) returns (result: seq<byte>)
      requires Valid() && 0 < count <= |Held(buf[..], pos, full)|
      ensures result == Last(Held(buf[..], pos, full), count)
    {
      hide Wrap, Held;
      HeldLength(buf[..], pos, full);
      ghost var held := Held(buf[..], pos, full);
      var out := new byte[count];
      var start := pos - count;
      if start < 0 {
        start := start + size;
      }
      for i := 0 to count
        invariant forall j :: 0 <= j < i ==> out[j] == held[|held| - count + j]
      {
        HeldAt(buf[..], pos, full, count, i);
        out[i] := buf[Wrap(start + i, size)];
      }
      result := out[..];
    }

    /** The last n bytes written, as many of them as are held; nothing for an n out of range. */
    method Read(n: int) returns (result: seq<byte>)
      requires Valid()
      ensures result == if 1 <= n <= MAX_READ then Last(written, if n < size then n else size) else []
    {
      if n <= 0 || n > MAX_READ {
        return [];
      }
      var count := n;
      if count > size {
        count := size;
      }
      LastOfLast(written, count, size);
      var available := pos;
      if full {
        available := size;
      }
      if count > available {
        count := available;
      }
      if count == 0 {
        return [];
      }
      result := CopyOut(count);
    }

    method Len() returns (n: nat)
      requires Valid()
      ensures n == if |written| < size then |written| else size
    {
      if full {
        return size;
      }
      return pos;
    }

    method Reset()
      requires Valid()
      modifies this
      ensures Valid() && buf == old(buf) && size == old(size) && written == []
    {
      pos := 0;
      full := false;
      written := [];
    }
  }
}
