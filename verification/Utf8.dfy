/** Strict and lossy UTF-8 decoding. A Rust `String` is modelled by its (well-formed) bytes. */
module Utf8 {
  import opened Bytes

  /** Byte `i` of `b`, or 0 past the end. */
  function Get(b: bytes, i: nat): byte {
    if i < |b| then b[i] else 0
  }

  predicate Continuation(x: byte) {
    0x80 <= x <= 0xBF
  }

  /** Which second byte may follow the lead byte of a three-byte character. */
  predicate Second3(lead: byte, x: byte) {
    || (lead == 0xE0 && 0xA0 <= x <= 0xBF)
    || (0xE1 <= lead <= 0xEC && Continuation(x))
    || (lead == 0xED && 0x80 <= x <= 0x9F)
    || (0xEE <= lead <= 0xEF && Continuation(x))
  }

  /** Which second byte may follow the lead byte of a four-byte character. */
  predicate Second4(lead: byte, x: byte) {
    || (lead == 0xF0 && 0x90 <= x <= 0xBF)
    || (0xF1 <= lead <= 0xF3 && Continuation(x))
    || (lead == 0xF4 && 0x80 <= x <= 0x8F)
  }

  datatype Char = Good(width: nat) | Bad(width: nat)

  /** The character at the front of `b`, or the longest broken piece of one. */
  function Front(b: bytes): (c: Char)
    requires b != []
    ensures 1 <= c.width <= |b|
  {
    var x := b[0];
    if x < 0x80 then Good(1)
    else if 0xC2 <= x <= 0xDF then
      if Continuation(Get(b, 1)) then Good(2) else Bad(1)
    else if 0xE0 <= x <= 0xEF then
      if !Second3(x, Get(b, 1)) then Bad(1)
      else if Continuation(Get(b, 2)) then Good(3) else Bad(2)
    else if 0xF0 <= x <= 0xF4 then
      if !Second4(x, Get(b, 1)) then Bad(1)
      else if !Continuation(Get(b, 2)) then Bad(2)
      else if Continuation(Get(b, 3)) then Good(4) else Bad(3)
    else Bad(1)
  }

  predicate Valid(b: bytes) {
    b != [] ==> Front(b).Good? && Valid(b[Front(b).width..])
  }

  /** U+FFFD, which stands in for every broken piece. */
  const REPLACEMENT: bytes := [0xEF, 0xBF, 0xBD]

  function Lossy(b: bytes): bytes {
    if b == [] then []
    else
      var c := Front(b);
      (if c.Good? then b[..c.width] else REPLACEMENT) + Lossy(b[c.width..])
  }

  /** `String::from_utf8` */
  function Strict(b: bytes): Option<bytes> {
    if Valid(b) then Some(b) else None
  }

  /** Lossy decoding leaves well-formed text alone. */
  lemma {:induction false} LossyOfValid(b: bytes)
    requires Valid(b)
    ensures Lossy(b) == b
  {
    if b != [] {
      LossyOfValid(b[Front(b).width..]);
      assert b == b[..Front(b).width] + b[Front(b).width..];
    }
  }

  lemma FrontExtends(a: bytes, b: bytes)
    requires a != [] && Front(a) == Good(|a|)
    ensures Front(a + b) == Good(|a|)
  {
    assert forall i: nat | i < |a| :: Get(a + b, i) == a[i];
  }

  /** Whatever the PLC sent, the result of lossy decoding is well-formed. */
  lemma {:induction false} LossyIsValid(b: bytes)
    ensures Valid(Lossy(b))
  {
    if b != [] {
      var c := Front(b);
      var head := if c.Good? then b[..c.width] else REPLACEMENT;
      var rest := Lossy(b[c.width..]);
      LossyIsValid(b[c.width..]);
      assert Front(head) == Good(|head|) by {
        if c.Good? {
          assert forall i: nat | i < c.width :: Get(head, i) == Get(b, i);
        }
      }
      FrontExtends(head, rest);
      assert (head + rest)[|head|..] == rest;
    }
  }

  /** Text is well-formed exactly when lossy decoding does not touch it. */
  lemma ValidIffUntouched(b: bytes)
    ensures Valid(b) <==> Lossy(b) == b
  {
    if Valid(b) {
      LossyOfValid(b);
    } else {
      LossyIsValid(b);
    }
  }

  // Text by its characters

  /** A Unicode scalar value: a code point that is not a surrogate. */
  type Scalar = c: nat | c < 0xD800 || 0xE000 <= c < 0x11_0000

  /** UTF-8 as section 3 of RFC 3629 defines it. */
  function Encode(c: Scalar): (b: bytes)
    ensures 1 <= |b| <= 4
  {
    if c < 0x80 then [c]
    else if c < 0x800 then [0xC0 + c / 64, 0x80 + c % 64]
    else if c < 0x1_0000 then [0xE0 + c / 4096, 0x80 + c / 64 % 64, 0x80 + c % 64]
    else [0xF0 + c / 262144, 0x80 + c / 4096 % 64, 0x80 + c / 64 % 64, 0x80 + c % 64]
  }

  function EncodeAll(cs: seq<Scalar>): bytes {
    if cs == [] then [] else Encode(cs[0]) + EncodeAll(cs[1..])
  }

  /** How the bytes of one character look. */
  predicate Shaped(b: bytes) {
    || (|b| == 1 && b[0] < 0x80)
    || (|b| == 2 && 0xC2 <= b[0] <= 0xDF && Continuation(b[1]))
    || (|b| == 3 && 0xE0 <= b[0] <= 0xEF && Second3(b[0], b[1]) && Continuation(b[2]))
    || (|b| == 4 && 0xF0 <= b[0] <= 0xF4 && Second4(b[0], b[1]) && Continuation(b[2]) && Continuation(b[3]))
  }

  lemma EncodedIsShaped(c: Scalar)
    ensures Shaped(Encode(c))
  {
    if 0x800 <= c < 0x1_0000 {
      Shaped3(c);
    } else if c >= 0x1_0000 {
      Shaped4(c);
    }
  }

  lemma Shaped3(c: Scalar)
    requires 0x800 <= c < 0x1_0000
    ensures Shaped(Encode(c))
  {
    var x, y := c / 4096, c / 64 % 64;
    assert c / 64 == 64 * x + y;
    assert x == 0 ==> y >= 32;
    assert x == 13 ==> y < 32;
  }

  lemma Shaped4(c: Scalar)
    requires c >= 0x1_0000
    ensures Shaped(Encode(c))
  {
    var x, y := c / 262144, c / 4096 % 64;
    assert c / 4096 == 64 * x + y;
    assert x <= 4;
    assert x == 0 ==> y >= 16;
    assert x == 4 ==> y < 16;
  }

  lemma ShapedIsEncoded(b: bytes) returns (c: Scalar)
    requires Shaped(b)
    ensures Encode(c) == b
  {
    if |b| == 1 {
      c := b[0];
    } else if |b| == 2 {
      c := Decoded2(b[0], b[1]);
    } else if |b| == 3 {
      c := Decoded3(b[0], b[1], b[2]);
    } else {
      c := Decoded4(b[0], b[1], b[2], b[3]);
    }
  }

  lemma Decoded2(x: byte, y: byte) returns (c: Scalar)
    requires Shaped([x, y])
    ensures Encode(c) == [x, y]
  {
    c := (x - 0xC0) * 64 + (y - 0x80);
    assert c / 64 == x - 0xC0;
  }

  lemma Decoded3(x: byte, y: byte, z: byte) returns (c: Scalar)
    requires Shaped([x, y, z])
    ensures Encode(c) == [x, y, z]
  {
    var n := (x - 0xE0) * 4096 + (y - 0x80) * 64 + (z - 0x80);
    c := n;
    assert n / 64 == (x - 0xE0) * 64 + (y - 0x80);
    assert n / 4096 == x - 0xE0;
  }

  lemma Decoded4(x: byte, y: byte, z: byte, w: byte) returns (c: Scalar)
    requires Shaped([x, y, z, w])
    ensures Encode(c) == [x, y, z, w]
  {
    var n := (x - 0xF0) * 262144 + (y - 0x80) * 4096 + (z - 0x80) * 64 + (w - 0x80);
    c := n;
    assert n / 64 == (x - 0xF0) * 4096 + (y - 0x80) * 64 + (z - 0x80);
    assert n / 4096 == (x - 0xF0) * 64 + (y - 0x80);
    assert n / 262144 == x - 0xF0;
  }

  lemma FrontIsShaped(b: bytes)
    requires b != []
    ensures Front(b).Good? ==> Shaped(b[..Front(b).width])
  {
  }

  lemma FrontOfShaped(p: bytes, rest: bytes)
    requires Shaped(p)
    ensures p + rest != [] && Front(p + rest) == Good(|p|)
  {
    assert forall i | 0 <= i < |p| :: Get(p + rest, i) == p[i];
  }

  lemma {:induction false} EncodedIsValid(cs: seq<Scalar>)
    ensures Valid(EncodeAll(cs))
  {
    hide Encode, Front, Shaped;
    if cs != [] {
      var p, rest := Encode(cs[0]), EncodeAll(cs[1..]);
      EncodedIsShaped(cs[0]);
      FrontOfShaped(p, rest);
      EncodedIsValid(cs[1..]);
      assert (p + rest)[|p|..] == rest;
    }
  }

  lemma {:induction false} ValidIsEncoded(b: bytes) returns (cs: seq<Scalar>)
    requires Valid(b)
    ensures EncodeAll(cs) == b
  {
    hide Encode, Front, Shaped;
    cs := [];
    if b != [] {
      var n := Front(b).width;
      FrontIsShaped(b);
      var c := ShapedIsEncoded(b[..n]);
      var more := ValidIsEncoded(b[n..]);
      cs := [c] + more;
      assert cs[1..] == more && b == b[..n] + b[n..];
    }
  }

  /** Well-formed bytes are exactly the encodings of sequences of characters. */
  lemma ValidIff(b: bytes)
    ensures Valid(b) <==> exists cs: seq<Scalar> :: EncodeAll(cs) == b
  {
    hide Valid, EncodeAll;
    if Valid(b) {
      var cs := ValidIsEncoded(b);
      assert EncodeAll(cs) == b;
    }
    if exists cs: seq<Scalar> :: EncodeAll(cs) == b {
      var cs: seq<Scalar> :| EncodeAll(cs) == b;
      EncodedIsValid(cs);
    }
  }

  /** Some character begins with these bytes. */
  ghost predicate Begins(p: bytes) {
    exists c: Scalar :: p <= Encode(c)
  }

  lemma ShapedBegins(p: bytes, b: bytes)
    requires Shaped(b) && p <= b
    ensures Begins(p)
  {
    var c := ShapedIsEncoded(b);
    assert p <= Encode(c);
  }

  lemma BeginsIsShaped(p: bytes) returns (b: bytes)
    requires Begins(p)
    ensures Shaped(b) && p <= b
  {
    var c: Scalar :| p <= Encode(c);
    EncodedIsShaped(c);
    b := Encode(c);
  }

  lemma BrokenBeforeEnd(b: bytes, whole: bytes, n: nat)
    requires b != [] && Front(b).Bad? && n <= |b| && Shaped(whole) && b[..n] <= whole
    ensures n <= Front(b).width
  {
    assert forall i | 0 <= i < n :: b[i] == b[..n][i] == whole[i];
  }

  /** What one replacement character stands for: as many bytes as can begin a character, but at least one. */
  lemma BrokenIsLongest(b: bytes)
    requires b != [] && Front(b).Bad?
    ensures var n := Front(b).width;
            && (n == 1 || Begins(b[..n]))
            && (n < |b| ==> !Begins(b[..n + 1]))
  {
    hide Encode, Begins;
    var n := Front(b).width;
    if n == 2 {
      if b[0] <= 0xEF {
        ShapedBegins(b[..2], [b[0], b[1], 0x80]);
      } else {
        ShapedBegins(b[..2], [b[0], b[1], 0x80, 0x80]);
      }
    } else if n == 3 {
      ShapedBegins(b[..3], [b[0], b[1], b[2], 0x80]);
    }
    if n < |b| && Begins(b[..n + 1]) {
      var whole := BeginsIsShaped(b[..n + 1]);
      BrokenBeforeEnd(b, whole, n + 1);
      assert false;
    }
  }
}
