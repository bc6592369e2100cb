/**
  Byte strings as numbers, in both byte orders, and exclusive or on numbers.
  */
module Numbers {
  import opened Common

  function Pow2(k: nat): nat { if k == 0 then 1 else 2 * Pow2(k - 1) }

  /** `int.from_bytes(data, 'little')`. */
  function LE(data: Bytes): nat {
    if data == [] then 0 else data[0] as nat + 256 * LE(data[1..])
  }

  /** `n.to_bytes(length, 'little')` for an `n` that fits. */
  function ToLE(n: nat, length: nat): (data: Bytes)
    ensures |data| == length
  {
    if length == 0 then [] else [n % 256] + ToLE(n / 256, length - 1)
  }

  /** `int.from_bytes(data, 'big')`. */
  function BE(data: Bytes): nat {
    if data == [] then 0 else 256 * BE(data[..|data| - 1]) + data[|data| - 1] as nat
  }

  /** `n.to_bytes(length, 'big')` for an `n` that fits. */
  function ToBE(n: nat, length: nat): (data: Bytes)
    ensures |data| == length
  {
    if length == 0 then [] else ToBE(n / 256, length - 1) + [n % 256]
  }

  function Range(length: nat): nat { if length == 0 then 1 else 256 * Range(length - 1) }

  lemma {:induction false} LEOfToLE(n: nat, length: nat)
    requires n < Range(length)
    ensures LE(ToLE(n, length)) == n
  {
    if length > 0 {
      LEOfToLE(n / 256, length - 1);
      assert ToLE(n, length)[1..] == ToLE(n / 256, length - 1);
    }
  }

  lemma {:induction false} ToLEOfLE(data: Bytes)
    ensures LE(data) < Range(|data|)
    ensures ToLE(LE(data), |data|) == data
  {
    if data != [] {
      ToLEOfLE(data[1..]);
      assert data == [data[0]] + data[1..];
    }
  }

  lemma LEOfFour(data: Bytes)
    requires |data| == 4
    ensures LE(data) == data[0] as nat + 256 * data[1] as nat + 65536 * data[2] as nat + 16777216 * data[3] as nat
  {
    assert LE(data[3..]) == data[3] as nat + 256 * LE(data[4..]);
    assert LE(data[2..]) == data[2] as nat + 256 * LE(data[3..]) by {
      assert data[2..][1..] == data[3..];
    }
    assert LE(data[1..]) == data[1] as nat + 256 * LE(data[2..]) by {
      assert data[1..][1..] == data[2..];
    }
  }

  /** The octets of a number, least significant first. */
  lemma ToLEOctets(n: nat)
    ensures n < 0x100_0000 ==> ToLE(n, 3) == [n % 256, n / 256 % 256, n / 65536]
    ensures n < 0x1_0000_0000 ==> ToLE(n, 4) == [n % 256, n / 256 % 256, n / 65536 % 256, n / 16777216]
  {
    assert n / 256 / 256 == n / 65536 && n / 65536 / 256 == n / 16777216;
    assert ToLE(n / 16777216, 1) == [n / 16777216 % 256] + ToLE(n / 16777216 / 256, 0);
    assert ToLE(n / 65536, 1) == [n / 65536 % 256] + ToLE(n / 65536 / 256, 0);
    assert ToLE(n / 65536, 2) == [n / 65536 % 256] + ToLE(n / 16777216, 1);
    assert ToLE(n / 256, 2) == [n / 256 % 256] + ToLE(n / 65536, 1);
    assert ToLE(n / 256, 3) == [n / 256 % 256] + ToLE(n / 65536, 2);
    assert ToLE(n, 3) == [n % 256] + ToLE(n / 256, 2);
    assert ToLE(n, 4) == [n % 256] + ToLE(n / 256, 3);
  }

  lemma {:induction false} BEOfToBE(n: nat, length: nat)
    requires n < Range(length)
    ensures BE(ToBE(n, length)) == n
  {
    if length > 0 {
      BEOfToBE(n / 256, length - 1);
      assert ToBE(n, length)[..length - 1] == ToBE(n / 256, length - 1);
    }
  }

  lemma BEOfTwo(data: Bytes)
    requires |data| == 2
    ensures BE(data) == 256 * data[0] as nat + data[1] as nat
  {
    assert BE(data[..1]) == 256 * BE(data[..1][..0]) + data[0] as nat;
  }

  lemma BEOfFour(data: Bytes)
    requires |data| == 4
    ensures BE(data) == 256 * (256 * (256 * data[0] as nat + data[1] as nat) + data[2] as nat) + data[3] as nat
  {
    BEOfTwo(data[..2]);
    assert data[..3][..2] == data[..2];
    assert BE(data[..3]) == 256 * BE(data[..2]) + data[2] as nat;
  }

  lemma BEOfEight(data: Bytes)
    requires |data| == 8
    ensures BE(data) == 0x1_0000_0000 * BE(data[..4]) + BE(data[4..])
  {
    BEOfFour(data[4..]);
    assert data[..5][..4] == data[..4] && data[..6][..5] == data[..5] && data[..7][..6] == data[..6];
    assert BE(data[..5]) == 256 * BE(data[..4]) + data[4] as nat;
    assert BE(data[..6]) == 256 * BE(data[..5]) + data[5] as nat;
    assert BE(data[..7]) == 256 * BE(data[..6]) + data[6] as nat;
  }

  lemma {:induction false} ToBEOfBE(data: Bytes)
    ensures BE(data) < Range(|data|)
    ensures ToBE(BE(data), |data|) == data
  {
    if data != [] {
      var last := |data| - 1;
      ToBEOfBE(data[..last]);
      assert data == data[..last] + [data[last]];
    }
  }

  lemma Ranges()
    ensures Range(1) == 256 && Range(2) == 65536 && Range(3) == 16777216 && Range(4) == 0x1_0000_0000
    ensures Range(8) == 0x1_0000_0000_0000_0000
  {
    assert Range(1) == 256 * Range(0);
    assert Range(2) == 256 * Range(1);
    assert Range(3) == 256 * Range(2);
    assert Range(4) == 256 * Range(3);
    assert Range(5) == 256 * Range(4);
    assert Range(6) == 256 * Range(5);
    assert Range(7) == 256 * Range(6);
  }

  // ------------------------------------------------------------- exclusive or

  /** Exclusive or of two numbers, bit by bit from the lowest. */
  function Xor(a: nat, b: nat): nat
    decreases a + b
  {
    if a == 0 && b == 0 then 0 else (if a % 2 == b % 2 then 0 else 1) + 2 * Xor(a / 2, b / 2)
  }

  /** Bit `k` of a number, counted from the lowest. */
  predicate Bit(n: nat, k: nat) { if k == 0 then n % 2 == 1 else Bit(n / 2, k - 1) }

  /** Every bit of the result is set exactly when the two bits differ. */
  lemma {:induction false} XorIsBitwise(a: nat, b: nat, k: nat)
    ensures Bit(Xor(a, b), k) <==> Bit(a, k) != Bit(b, k)
    decreases k
  {
    XorHalves(a, b);
    if k > 0 {
      XorIsBitwise(a / 2, b / 2, k - 1);
    }
  }

  lemma {:induction false} XorUndoesItself(a: nat, b: nat)
    ensures Xor(Xor(a, b), b) == a
    decreases a + b
  {
    if a != 0 || b != 0 {
      XorUndoesItself(a / 2, b / 2);
      XorHalves(Xor(a, b), b);
    }
  }

  lemma {:induction false} XorCommutes(a: nat, b: nat)
    ensures Xor(a, b) == Xor(b, a)
    decreases a + b
  {
    if a != 0 || b != 0 {
      XorCommutes(a / 2, b / 2);
    }
  }

  lemma {:induction false} XorBelow(a: nat, b: nat, k: nat)
    requires a < Pow2(k) && b < Pow2(k)
    ensures Xor(a, b) < Pow2(k)
    decreases k
  {
    if a != 0 || b != 0 {
      XorBelow(a / 2, b / 2, k - 1);
    }
  }

  /** Exclusive or works on the high and the low part of a number separately. */
  lemma {:induction false} XorSplits(a: nat, x: nat, b: nat, y: nat, k: nat)
    requires x < Pow2(k) && y < Pow2(k)
    ensures Xor(a * Pow2(k) + x, b * Pow2(k) + y) == Xor(a, b) * Pow2(k) + Xor(x, y)
    decreases k
  {
    hide Xor;
    XorOfNothing();
    if k == 0 {
      assert x == 0 && y == 0;
    } else {
      var m, n, half := a * Pow2(k) + x, b * Pow2(k) + y, Pow2(k - 1);
      PowerStep(k);
      DoubledPlus(a, x, k);
      DoubledPlus(b, y, k);
      XorSplits(a, x / 2, b, y / 2, k - 1);
      Regroup(Xor(a, b), half, Xor(x / 2, y / 2));
      calc {
        Xor(m, n);
        { XorHalves(m, n); }
        (if x % 2 == y % 2 then 0 else 1) + 2 * Xor(m / 2, n / 2);
        (if x % 2 == y % 2 then 0 else 1) + 2 * (Xor(a, b) * half + Xor(x / 2, y / 2));
        Xor(a, b) * Pow2(k) + ((if x % 2 == y % 2 then 0 else 1) + 2 * Xor(x / 2, y / 2));
        { XorHalves(x, y); }
        Xor(a, b) * Pow2(k) + Xor(x, y);
      }
    }
  }

  lemma Regroup(q: nat, half: nat, w: nat)
    ensures 2 * (q * half + w) == q * (2 * half) + 2 * w
  {
  }

  lemma PowerStep(k: nat)
    requires k > 0
    ensures Pow2(k) == 2 * Pow2(k - 1)
  {
  }

  lemma XorOfNothing()
    ensures Xor(0, 0) == 0
  {
  }

  lemma DoubledPlus(a: nat, x: nat, k: nat)
    requires k > 0
    ensures (a * Pow2(k) + x) / 2 == a * Pow2(k - 1) + x / 2
    ensures (a * Pow2(k) + x) % 2 == x % 2
  {
    assert a * Pow2(k) == 2 * (a * Pow2(k - 1));
  }

  lemma XorHalves(a: nat, b: nat)
    ensures Xor(a, b) == (if a % 2 == b % 2 then 0 else 1) + 2 * Xor(a / 2, b / 2)
  {
  }

  lemma ByteRange()
    ensures Pow2(8) == 256
  {
    assert Pow2(4) == 16;
    assert Pow2(5) == 2 * Pow2(4);
    assert Pow2(6) == 2 * Pow2(5);
    assert Pow2(7) == 2 * Pow2(6);
  }

  function XorByte(a: byte, b: byte): byte {
    ByteXor(a, b);
    Xor(a, b)
  }

  lemma ByteXor(a: byte, b: byte)
    ensures Xor(a, b) < 256 && Xor(Xor(a, b), b) == a
  {
    ByteRange();
    XorBelow(a, b, 8);
    XorUndoesItself(a, b);
  }

  lemma XorByteTwice(a: byte, b: byte)
    ensures XorByte(XorByte(a, b), b) == a
    ensures XorByte(XorByte(a, b), a) == b
  {
    ByteXor(a, b);
    XorCommutes(a, b);
    XorUndoesItself(b, a);
  }
}
