/** kernel/memcpy.c and kernel/memset.c on a byte-addressed memory with little-endian words: the head, 32-byte, word
    and tail loops do what a byte loop does, and no word is read or written off its boundary. */
module BlockMemory {
  type Byte = b: nat | b < 0x100
  type Word = w: nat | w < 0x1_0000_0000

  /** The word that four bytes make, the first the least significant. */
  function Join(b0: Byte, b1: Byte, b2: Byte, b3: Byte): Word {
    b0 + 0x100 * b1 + 0x1_0000 * b2 + 0x100_0000 * b3
  }

  function Part(w: Word, i: nat): Byte
    requires i < 4
  {
    if i == 0 then w % 0x100
    else if i == 1 then w / 0x100 % 0x100
    else if i == 2 then w / 0x1_0000 % 0x100
    else w / 0x100_0000
  }

  /** Bytes to a word and back. */
  lemma PartsOfJoin(b0: Byte, b1: Byte, b2: Byte, b3: Byte)
    ensures var w := Join(b0, b1, b2, b3); Part(w, 0) == b0 && Part(w, 1) == b1 && Part(w, 2) == b2 && Part(w, 3) == b3
  {
    var w := Join(b0, b1, b2, b3);
    assert w / 0x100_0000 == b3;
    assert w / 0x1_0000 == b2 + 0x100 * b3;
    assert w / 0x100 == b1 + 0x100 * b2 + 0x1_0000 * b3;
  }

  /** A word to bytes and back. */
  lemma JoinOfParts(w: Word)
    ensures Join(Part(w, 0), Part(w, 1), Part(w, 2), Part(w, 3)) == w
  {
    assert w / 0x100 / 0x100 == w / 0x1_0000 && w / 0x1_0000 / 0x100 == w / 0x100_0000;
  }

  /** (UW)value * 0x01010101 is four copies of the byte, and does not wrap. */
  function Spread(v: Byte): Word {
    v * 0x0101_0101
  }

  lemma SpreadIsFourCopies(v: Byte)
    ensures forall i: nat :: i < 4 ==> Part(Spread(v), i) == v
  {
    PartsOfJoin(v, v, v, v);
    assert Spread(v) == Join(v, v, v, v);
  }

  /* ---- words in memory ---- */

  method LoadWord(m: array<Byte>, a: nat) returns (w: Word)
    requires a % 4 == 0 && a + 4 <= m.Length
    ensures w == Join(m[a], m[a + 1], m[a + 2], m[a + 3])
  {
    w := Join(m[a], m[a + 1], m[a + 2], m[a + 3]);
  }

  method StoreWord(m: array<Byte>, a: nat, w: Word)
    requires a % 4 == 0 && a + 4 <= m.Length
    modifies m
    ensures forall i :: 0 <= i < m.Length ==> m[i] == if a <= i < a + 4 then Part(w, i - a) else old(m[i])
  {
    m[a], m[a + 1], m[a + 2], m[a + 3] := Part(w, 0), Part(w, 1), Part(w, 2), Part(w, 3);
  }

  /* ---- memcpy ---- */

  /** The first k bytes from src are at dest, and every other byte is as it was. */
  ghost predicate Copied(was: seq<Byte>, now: seq<Byte>, dest: nat, src: nat, k: nat)
    requires src + k <= |was|
  {
    && |now| == |was|
    && forall i {:trigger now[i]} :: 0 <= i < |was| ==> now[i] == if dest <= i < dest + k then was[src + i - dest] else was[i]
  }

  /** That says all of the memory: any two ways to copy, by bytes or by words, leave the same. */
  lemma CopiesAgree(was: seq<Byte>, a: seq<Byte>, b: seq<Byte>, dest: nat, src: nat, n: nat)
    requires src + n <= |was| && Copied(was, a, dest, src, n) && Copied(was, b, dest, src, n)
    ensures a == b
  {
    assert forall i :: 0 <= i < |was| ==> a[i] == b[i];
  }

  /** Room for n bytes at both, apart from one another. */
  predicate Apart(dest: nat, src: nat, n: nat, size: nat) {
    dest + n <= size && src + n <= size && (dest + n <= src || src + n <= dest)
  }

  method CopyByte(m: array<Byte>, dest: nat, src: nat, k: nat, ghost n: nat, ghost was: seq<Byte>)
    requires Apart(dest, src, n, m.Length) && k < n && |was| == m.Length && Copied(was, m[..], dest, src, k)
    modifies m
    ensures Copied(was, m[..], dest, src, k + 1)
  {
    assert m[..][src + k] == was[src + k];
    m[dest + k] := m[src + k];
  }

  lemma FourBytes(was: seq<Byte>, now: seq<Byte>, dest: nat, src: nat, k: nat, n: nat, w: Word)
    requires Apart(dest, src, n, |was|) && k + 4 <= n && Copied(was, now, dest, src, k)
    requires w == Join(now[src + k], now[src + k + 1], now[src + k + 2], now[src + k + 3])
    ensures forall i :: src + k <= i < src + k + 4 ==> Part(w, i - src - k) == was[i]
  {
    PartsOfJoin(now[src + k], now[src + k + 1], now[src + k + 2], now[src + k + 3]);
  }

  method CopyWord(m: array<Byte>, dest: nat, src: nat, k: nat, ghost n: nat, ghost was: seq<Byte>)
    requires Apart(dest, src, n, m.Length) && k + 4 <= n && |was| == m.Length && Copied(was, m[..], dest, src, k) == true
    requires (dest + k) % 4 == 0 && (src + k) % 4 == 0
    modifies m
    ensures Copied(was, m[..], dest, src, k + 4) == true
  {
    var w := LoadWord(m, src + k);
    FourBytes(was, m[..], dest, src, k, n, w);
    StoreWord(m, dest + k, w);
  }

  /** Eight words. */
  method CopyBlock(m: array<Byte>, dest: nat, src: nat, k: nat, ghost n: nat, ghost was: seq<Byte>)
    requires Apart(dest, src, n, m.Length) && k + 32 <= n && |was| == m.Length && Copied(was, m[..], dest, src, k) == true
    requires (dest + k) % 4 == 0 && (src + k) % 4 == 0
    modifies m
    ensures Copied(was, m[..], dest, src, k + 32) == true
  {
    hide Copied, Apart;
    CopyWord(m, dest, src, k, n, was);
    CopyWord(m, dest, src, k + 4, n, was);
    CopyWord(m, dest, src, k + 8, n, was);
    CopyWord(m, dest, src, k + 12, n, was);
    CopyWord(m, dest, src, k + 16, n, was);
    CopyWord(m, dest, src, k + 20, n, was);
    CopyWord(m, dest, src, k + 24, n, was);
    CopyWord(m, dest, src, k + 28, n, was);
  }

  /** A byte loop: the bytes from k on. */
  method CopyBytes(m: array<Byte>, dest: nat, src: nat, k: nat, n: nat, ghost was: seq<Byte>)
    requires Apart(dest, src, n, m.Length) && k <= n && |was| == m.Length && Copied(was, m[..], dest, src, k)
    modifies m
    ensures Copied(was, m[..], dest, src, n)
  {
    for i := k to n
      invariant Copied(was, m[..], dest, src, i)
    {
      CopyByte(m, dest, src, i, n, was);
    }
  }

  /** The bytes up to the first word boundary. */
  function Head(a: nat): nat {
    (4 - a % 4) % 4
  }

  lemma HeadEnds(a: nat, k: nat)
    requires k <= Head(a) && (a + k) % 4 != 0
    ensures k < Head(a)
  {
  }

  lemma Onward(a: nat, k: nat, j: nat)
    requires (a + k) % 4 == 0 && j % 4 == 0
    ensures (a + (k + j)) % 4 == 0
  {
  }

  lemma SameAlignment(a: nat, b: nat, k: nat)
    requires a % 4 == b % 4 && (a + k) % 4 == 0
    ensures (b + k) % 4 == 0
  {
  }

  /** tkmc_memcpy, for every length and alignment. */
  method MemCpy(m: array<Byte>, dest: nat, src: nat, n: nat) returns (r: nat)
    requires Apart(dest, src, n, m.Length)
    modifies m
    ensures r == dest && Copied(old(m[..]), m[..], dest, src, n)
  {
    ghost var was := m[..];
    r := dest;
    if n < 32 || dest % 4 != src % 4 {
      CopyBytes(m, dest, src, 0, n, was);
      return;
    }
    var k := 0;
    while (dest + k) % 4 != 0 && k < n
      invariant k <= Head(dest) && Copied(was, m[..], dest, src, k)
      decreases n - k
    {
      HeadEnds(dest, k);
      CopyByte(m, dest, src, k, n, was);
      k := k + 1;
    }
    SameAlignment(dest, src, k);
    k := CopyWords(m, dest, src, k, n, was);
    CopyBytes(m, dest, src, k, n, was);
  }

  /** The 32-byte blocks, then the words. */
  method CopyWords(m: array<Byte>, dest: nat, src: nat, from: nat, n: nat, ghost was: seq<Byte>) returns (k: nat)
    requires Apart(dest, src, n, m.Length) && from <= n && |was| == m.Length && Copied(was, m[..], dest, src, from)
    requires (dest + from) % 4 == 0 && (src + from) % 4 == 0
    modifies m
    ensures k <= n < k + 4 && Copied(was, m[..], dest, src, k)
  {
    k := from;
    while n - k >= 32
      invariant k <= n && (dest + k) % 4 == 0 && (src + k) % 4 == 0 && Copied(was, m[..], dest, src, k) == true
    {
      CopyBlock(m, dest, src, k, n, was);
      Onward(dest, k, 32);
      Onward(src, k, 32);
      k := k + 32;
    }
    while n - k >= 4
      invariant k <= n && (dest + k) % 4 == 0 && (src + k) % 4 == 0 && Copied(was, m[..], dest, src, k) == true
    {
      CopyWord(m, dest, src, k, n, was);
      Onward(dest, k, 4);
      Onward(src, k, 4);
      k := k + 4;
    }
  }

  /* ---- memset ---- */

  /** The first k bytes at dest are v, and every other byte is as it was. */
  ghost predicate Filled(was: seq<Byte>, now: seq<Byte>, dest: nat, v: Byte, k: nat) {
    && |now| == |was|
    && forall i {:trigger now[i]} :: 0 <= i < |was| ==> now[i] == if dest <= i < dest + k then v else was[i]
  }

  method FillByte(m: array<Byte>, dest: nat, v: Byte, k: nat, ghost was: seq<Byte>)
    requires dest + k < m.Length && Filled(was, m[..], dest, v, k)
    modifies m
    ensures Filled(was, m[..], dest, v, k + 1)
  {
    m[dest + k] := v;
  }

  method FillWord(m: array<Byte>, dest: nat, v: Byte, w: Word, k: nat, ghost was: seq<Byte>)
    requires dest + k + 4 <= m.Length && Filled(was, m[..], dest, v, k) && w == Spread(v) && (dest + k) % 4 == 0
    modifies m
    ensures Filled(was, m[..], dest, v, k + 4)
  {
    SpreadIsFourCopies(v);
    StoreWord(m, dest + k, w);
  }

  /** Eight words. */
  method FillBlock(m: array<Byte>, dest: nat, v: Byte, w: Word, k: nat, ghost was: seq<Byte>)
    requires dest + k + 32 <= m.Length && Filled(was, m[..], dest, v, k) && w == Spread(v) && (dest + k) % 4 == 0
    modifies m
    ensures Filled(was, m[..], dest, v, k + 32)
  {
    FillWord(m, dest, v, w, k, was);
    FillWord(m, dest, v, w, k + 4, was);
    FillWord(m, dest, v, w, k + 8, was);
    FillWord(m, dest, v, w, k + 12, was);
    FillWord(m, dest, v, w, k + 16, was);
    FillWord(m, dest, v, w, k + 20, was);
    FillWord(m, dest, v, w, k + 24, was);
    FillWord(m, dest, v, w, k + 28, was);
  }

  method FillBytes(m: array<Byte>, dest: nat, v: Byte, k: nat, n: nat, ghost was: seq<Byte>)
    requires dest + n <= m.Length && k <= n && Filled(was, m[..], dest, v, k)
    modifies m
    ensures Filled(was, m[..], dest, v, n)
  {
    for i := k to n
      invariant Filled(was, m[..], dest, v, i)
    {
      FillByte(m, dest, v, i, was);
    }
  }

  /** tkmc_memset, for every length, alignment and fill value: the value is converted to a byte. */
  method MemSet(m: array<Byte>, dest: nat, c: int, n: nat) returns (r: nat)
    requires dest + n <= m.Length
    modifies m
    ensures r == dest && Filled(old(m[..]), m[..], dest, c % 0x100, n)
  {
    ghost var was := m[..];
    var value: Byte := c % 0x100;
    r := dest;
    if n < 32 {
      FillBytes(m, dest, value, 0, n, was);
      return;
    }
    var k := 0;
    while (dest + k) % 4 != 0 && k < n
      invariant k <= Head(dest) && Filled(was, m[..], dest, value, k)
      decreases n - k
    {
      HeadEnds(dest, k);
      FillByte(m, dest, value, k, was);
      k := k + 1;
    }
    if n - k >= 4 {
      var w := Spread(value);
      while n - k >= 32
        invariant k <= n && (dest + k) % 4 == 0 && Filled(was, m[..], dest, value, k)
      {
        FillBlock(m, dest, value, w, k, was);
        Onward(dest, k, 32);
        k := k + 32;
      }
      while n - k >= 4
        invariant k <= n && (dest + k) % 4 == 0 && Filled(was, m[..], dest, value, k)
      {
        FillWord(m, dest, value, w, k, was);
        Onward(dest, k, 4);
        k := k + 4;
      }
    }
    FillBytes(m, dest, value, k, n, was);
  }
}
