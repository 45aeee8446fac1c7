/** Byte strings and the little-endian integers every wire format of the bridge uses. */
module Bytes {

  type byte = x: int | 0 <= x < 0x100
  type u16 = x: int | 0 <= x < 0x1_0000
  type u32 = x: int | 0 <= x < 0x1_0000_0000
  type u64 = x: int | 0 <= x < 0x1_0000_0000_0000_0000
  type i64 = x: int | -0x8000_0000_0000_0000 <= x < 0x8000_0000_0000_0000

  type bytes = seq<byte>

  datatype Option<+T> = None | Some(value: T) {
    predicate IsFailure() { None? }

    function PropagateFailure<U>(): Option<U>
      requires None?
    {
      None
    }

    function Extract(): T
      requires Some?
    {
      value
    }
  }

  /** 256^n */
  function Pow256(n: nat): (p: nat)
    ensures p > 0
  {
    if n == 0 then 1 else 256 * Pow256(n - 1)
  }

  lemma Pow256Widths()
    ensures Pow256(1) == 0x100
    ensures Pow256(2) == 0x1_0000
    ensures Pow256(4) == 0x1_0000_0000
    ensures Pow256(8) == 0x1_0000_0000_0000_0000
  {
    assert Pow256(2) == 256 * Pow256(1);
    assert Pow256(3) == 256 * Pow256(2);
    assert Pow256(4) == 256 * Pow256(3);
    assert Pow256(5) == 256 * Pow256(4);
    assert Pow256(6) == 256 * Pow256(5);
    assert Pow256(7) == 256 * Pow256(6);
  }

  /** The low `n` bytes of `x`, least significant first. */
  function Le(n: nat, x: nat): (b: bytes)
    ensures |b| == n
  {
    if n == 0 then [] else [x % 256] + Le(n - 1, x / 256)
  }

  /** The number a little-endian byte string stands for. */
  function FromLe(b: bytes): nat {
    if b == [] then 0 else b[0] + 256 * FromLe(b[1..])
  }

  lemma {:induction false} FromLeBound(b: bytes)
    ensures FromLe(b) < Pow256(|b|)
  {
    if b != [] {
      FromLeBound(b[1..]);
    }
  }

  lemma {:induction false} FromLeOfLe(n: nat, x: nat)
    requires x < Pow256(n)
    ensures FromLe(Le(n, x)) == x
  {
    if n > 0 {
      assert Le(n, x)[1..] == Le(n - 1, x / 256);
      FromLeOfLe(n - 1, x / 256);
    }
  }

  lemma {:induction false} LeOfFromLe(b: bytes)
    ensures Le(|b|, FromLe(b)) == b
  {
    if b != [] {
      LeOfFromLe(b[1..]);
      assert FromLe(b) % 256 == b[0];
      assert FromLe(b) / 256 == FromLe(b[1..]);
      assert b == [b[0]] + b[1..];
    }
  }

  function U16(b: bytes): (x: u16)
    requires |b| == 2
  {
    FromLeBound(b);
    Pow256Widths();
    FromLe(b)
  }

  function U32(b: bytes): (x: u32)
    requires |b| == 4
  {
    FromLeBound(b);
    Pow256Widths();
    FromLe(b)
  }

  function U64(b: bytes): (x: u64)
    requires |b| == 8
  {
    FromLeBound(b);
    Pow256Widths();
    FromLe(b)
  }

  /** Two's complement: the upper half of the unsigned range stands for the negative numbers. */
  function Signed(x: nat, half: nat): int
    requires x < 2 * half
  {
    if x < half then x else x - 2 * half
  }

  function Unsigned(x: int, half: nat): (u: nat)
    requires 0 <= x + half < 2 * half
    ensures u < 2 * half
    ensures Signed(u, half) == x
  {
    if x < 0 then x + 2 * half else x
  }

  function I64(b: bytes): (x: i64)
    requires |b| == 8
  {
    Signed(U64(b), 0x8000_0000_0000_0000)
  }

  function Le16(x: u16): (b: bytes)
    ensures |b| == 2 && U16(b) == x
  {
    Pow256Widths();
    FromLeOfLe(2, x);
    Le(2, x)
  }

  function Le32(x: u32): (b: bytes)
    ensures |b| == 4 && U32(b) == x
  {
    Pow256Widths();
    FromLeOfLe(4, x);
    Le(4, x)
  }

  function Le64(x: u64): (b: bytes)
    ensures |b| == 8 && U64(b) == x
  {
    Pow256Widths();
    FromLeOfLe(8, x);
    Le(8, x)
  }

  function LeI64(x: i64): (b: bytes)
    ensures |b| == 8 && I64(b) == x
  {
    Le64(Unsigned(x, 0x8000_0000_0000_0000))
  }

  lemma Cat3(a: bytes, b: bytes, c: bytes)
    ensures var s := a + b + c;
            && s[0..|a|] == a && s[|a|..|a| + |b|] == b
            && s[|a| + |b|..] == c && s[|a| + |b|..|a| + |b| + |c|] == c
  {
  }

  function Repeated<T>(x: T, n: nat): (s: seq<T>)
    ensures |s| == n && forall i | 0 <= i < n :: s[i] == x
  {
    seq(n, _ => x)
  }

  function Zeros(n: nat): bytes {
    Repeated(0, n)
  }

  /** `fetch_add(1)` on an `AtomicU32`. */
  function Bump(c: u32): u32 {
    if c == 0xFFFF_FFFF then 0 else c + 1
  }

  /** Decimal notation in ASCII, without leading zeros. */
  function DecimalBytes(n: nat): (s: bytes)
    ensures s != [] && forall i | 0 <= i < |s| :: 0x30 <= s[i] <= 0x39
  {
    if n < 10 then [0x30 + n] else DecimalBytes(n / 10) + [0x30 + n % 10]
  }
}
