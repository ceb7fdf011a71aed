/** The byte form of running cooldowns and effects, version 1. */
module Blobs {
  import opened Seqs

  type Byte = b: int | 0 <= b < 256
  type Int32 = x: int | -0x8000_0000 <= x < 0x8000_0000
  type Int64 = x: int | -0x8000_0000_0000_0000 <= x < 0x8000_0000_0000_0000

  const TWO_32: nat := 0x1_0000_0000
  const TWO_64: nat := 0x1_0000_0000_0000_0000

  const VERSION: Byte := 1
  const HEADER: nat := 2
  const COOLDOWN_BYTES: nat := 9
  const BUFF_BYTES: nat := 13

  datatype Cooldown = Cooldown(skillId: Byte, readyAtMs: Int64)

  datatype Buff = Buff(kind: Byte, value: Int32, expireAtMs: Int64)

  datatype Unpacked<E> = Empty | Items(items: seq<E>) | Bad

  // ----- integers, lowest byte first

  function Pow256(n: nat): nat {
    if n == 0 then 1 else 256 * Pow256(n - 1)
  }

  function LE(v: nat, n: nat): (r: seq<Byte>)
    ensures |r| == n
  {
    if n == 0 then [] else [v % 256] + LE(v / 256, n - 1)
  }

  function FromLE(bs: seq<Byte>): nat {
    if bs == [] then 0 else bs[0] + 256 * FromLE(bs[1..])
  }

  lemma {:induction false} LEInverse(v: nat, n: nat)
    requires v < Pow256(n)
    ensures FromLE(LE(v, n)) == v
  {
    if n > 0 {
      LEInverse(v / 256, n - 1);
    }
  }

  lemma {:induction false} FromLEInverse(bs: seq<Byte>)
    ensures FromLE(bs) < Pow256(|bs|) && LE(FromLE(bs), |bs|) == bs
  {
    if bs != [] {
      FromLEInverse(bs[1..]);
    }
  }

  lemma Widths()
    ensures Pow256(4) == TWO_32 && Pow256(8) == TWO_64
  {
    assert Pow256(1) == 256 && Pow256(2) == 0x1_0000 && Pow256(3) == 0x100_0000;
    assert Pow256(5) == 256 * Pow256(4) && Pow256(6) == 256 * Pow256(5) && Pow256(7) == 256 * Pow256(6);
  }

  /** The casts between signed and unsigned of the same width. */
  function Unsigned(x: int, range: nat): nat
    requires x >= -(range as int)
  {
    if x < 0 then x + range else x
  }

  function Signed(u: nat, range: nat): int {
    if u >= range / 2 then u - range else u
  }

  function CooldownBytes(e: Cooldown): seq<Byte> {
    [e.skillId] + LE(Unsigned(e.readyAtMs, TWO_64), 8)
  }

  function CooldownOf(bs: seq<Byte>): Cooldown {
    if |bs| != COOLDOWN_BYTES then Cooldown(0, 0)
    else
      Widths(); FromLEInverse(bs[1..]);
      Cooldown(bs[0], Signed(FromLE(bs[1..]), TWO_64))
  }

  function BuffBytes(e: Buff): seq<Byte> {
    [e.kind] + LE(Unsigned(e.value, TWO_32), 4) + LE(Unsigned(e.expireAtMs, TWO_64), 8)
  }

  function BuffOf(bs: seq<Byte>): Buff {
    if |bs| != BUFF_BYTES then Buff(0, 0, 0)
    else
      Widths(); FromLEInverse(bs[1..5]); FromLEInverse(bs[5..]);
      Buff(bs[0], Signed(FromLE(bs[1..5]), TWO_32), Signed(FromLE(bs[5..]), TWO_64))
  }

  // ----- lists

  /** `enc` writes `w` bytes and `dec` reads exactly what `enc` writes. */
  ghost predicate Inverse<E(!new)>(enc: E -> seq<Byte>, dec: seq<Byte> -> E, w: nat) {
    && w > 0
    && (forall e :: |enc(e)| == w && dec(enc(e)) == e)
    && (forall b :: |b| == w ==> enc(dec(b)) == b)
  }

  lemma SignedUnsigned(x: int, half: int)
    requires half > 0 && -half <= x < half
    ensures Unsigned(x, 2 * half) < 2 * half && Signed(Unsigned(x, 2 * half), 2 * half) == x
  {
  }

  lemma UnsignedSigned(u: nat, half: int)
    requires u < 2 * half
    ensures -half <= Signed(u, 2 * half) < half && Unsigned(Signed(u, 2 * half), 2 * half) == u
  {
  }

  lemma CooldownRound(e: Cooldown)
    ensures |CooldownBytes(e)| == COOLDOWN_BYTES && CooldownOf(CooldownBytes(e)) == e
  {
    hide LE, FromLE, Pow256, Signed, Unsigned;
    Widths();
    SignedUnsigned(e.readyAtMs, TWO_64 / 2);
    LEInverse(Unsigned(e.readyAtMs, TWO_64), 8);
    assert CooldownBytes(e)[1..] == LE(Unsigned(e.readyAtMs, TWO_64), 8);
  }

  lemma CooldownBack(b: seq<Byte>)
    requires |b| == COOLDOWN_BYTES
    ensures CooldownBytes(CooldownOf(b)) == b
  {
    hide LE, FromLE, Pow256, Signed, Unsigned;
    Widths();
    FromLEInverse(b[1..]);
    UnsignedSigned(FromLE(b[1..]), TWO_64 / 2);
    assert b == [b[0]] + b[1..];
  }

  lemma CooldownsInvert()
    ensures Inverse(CooldownBytes, CooldownOf, COOLDOWN_BYTES)
  {
    hide CooldownBytes, CooldownOf;
    forall e {
      CooldownRound(e);
    }
    forall b: seq<Byte> | |b| == COOLDOWN_BYTES {
      CooldownBack(b);
    }
  }

  lemma BuffRound(e: Buff)
    ensures |BuffBytes(e)| == BUFF_BYTES && BuffOf(BuffBytes(e)) == e
  {
    hide LE, FromLE, Pow256, Signed, Unsigned;
    Widths();
    SignedUnsigned(e.value, TWO_32 / 2);
    SignedUnsigned(e.expireAtMs, TWO_64 / 2);
    LEInverse(Unsigned(e.value, TWO_32), 4);
    LEInverse(Unsigned(e.expireAtMs, TWO_64), 8);
    assert BuffBytes(e)[1..5] == LE(Unsigned(e.value, TWO_32), 4);
    assert BuffBytes(e)[5..] == LE(Unsigned(e.expireAtMs, TWO_64), 8);
  }

  lemma BuffBack(b: seq<Byte>)
    requires |b| == BUFF_BYTES
    ensures BuffBytes(BuffOf(b)) == b
  {
    hide LE, FromLE, Pow256, Signed, Unsigned;
    Widths();
    FromLEInverse(b[1..5]);
    FromLEInverse(b[5..]);
    UnsignedSigned(FromLE(b[1..5]), TWO_32 / 2);
    UnsignedSigned(FromLE(b[5..]), TWO_64 / 2);
    assert b == [b[0]] + b[1..5] + b[5..];
  }

  lemma BuffsInvert()
    ensures Inverse(BuffBytes, BuffOf, BUFF_BYTES)
  {
    hide BuffBytes, BuffOf;
    forall e {
      BuffRound(e);
    }
    forall b: seq<Byte> | |b| == BUFF_BYTES {
      BuffBack(b);
    }
  }

  /** The list that `w`-byte entries spell. */
  function Split<E>(dec: seq<Byte> -> E, w: nat, bs: seq<Byte>): seq<E>
    requires w > 0
  {
    if |bs| < w then [] else [dec(bs[..w])] + Split(dec, w, bs[w..])
  }

  /** `n * w`, one entry at a time. */
  function Size(n: nat, w: nat): nat {
    if n == 0 then 0 else w + Size(n - 1, w)
  }

  lemma {:induction false} SizeIs(n: nat, w: nat)
    ensures Size(n, w) == n * w
  {
    if n > 0 {
      SizeIs(n - 1, w);
    }
  }

  lemma Reads<E(!new)>(enc: E -> seq<Byte>, dec: seq<Byte> -> E, w: nat, e: E)
    requires Inverse(enc, dec, w)
    ensures w > 0 && |enc(e)| == w && dec(enc(e)) == e
  {
  }

  lemma Writes<E(!new)>(enc: E -> seq<Byte>, dec: seq<Byte> -> E, w: nat, b: seq<Byte>)
    requires Inverse(enc, dec, w) && |b| == w
    ensures enc(dec(b)) == b
  {
  }

  lemma {:induction false} SplitGather<E(!new)>(enc: E -> seq<Byte>, dec: seq<Byte> -> E, w: nat, items: seq<E>)
    requires Inverse(enc, dec, w) && w > 0
    ensures |Gather(enc, items)| == Size(|items|, w) && Split(dec, w, Gather(enc, items)) == items
  {
    hide Inverse;
    if items != [] {
      SplitGather(enc, dec, w, items[1..]);
      Reads(enc, dec, w, items[0]);
      var bs := Gather(enc, items);
      assert bs[..w] == enc(items[0]) && bs[w..] == Gather(enc, items[1..]);
      assert items == [items[0]] + items[1..];
    }
  }

  lemma {:induction false} GatherSplit<E(!new)>(enc: E -> seq<Byte>, dec: seq<Byte> -> E, w: nat, bs: seq<Byte>, n: nat)
    requires Inverse(enc, dec, w) && w > 0 && |bs| == Size(n, w)
    ensures |Split(dec, w, bs)| == n && Gather(enc, Split(dec, w, bs)) == bs
  {
    hide Inverse;
    if n > 0 {
      GatherSplit(enc, dec, w, bs[w..], n - 1);
      Writes(enc, dec, w, bs[..w]);
      assert Split(dec, w, bs)[0] == dec(bs[..w]) && Split(dec, w, bs)[1..] == Split(dec, w, bs[w..]);
      assert bs == bs[..w] + bs[w..];
    }
  }

  /** Nothing at all for an empty list, one too long for the count byte, or one too long for the room. */
  function Packed<E>(enc: E -> seq<Byte>, w: nat, items: seq<E>, room: nat): seq<Byte> {
    if |items| == 0 || |items| > 255 || HEADER + |items| * w > room then []
    else [VERSION, |items|] + Gather(enc, items)
  }

  function UnpackOf<E>(dec: seq<Byte> -> E, w: nat, bs: seq<Byte>, most: nat): Unpacked<E>
    requires w > 0
  {
    if bs == [] then Empty
    else if |bs| < HEADER || bs[0] != VERSION || bs[1] == 0 || bs[1] > most || |bs| != HEADER + bs[1] * w then Bad
    else Items(Split(dec, w, bs[HEADER..]))
  }

  /** A list comes back as it was packed. */
  lemma UnpackInvertsPack<E(!new)>(enc: E -> seq<Byte>, dec: seq<Byte> -> E, w: nat, items: seq<E>, room: nat,
                                   most: nat)
    requires w > 0 && Inverse(enc, dec, w) && |items| <= 255 && |items| <= most && HEADER + |items| * w <= room
    ensures UnpackOf(dec, w, Packed(enc, w, items, room), most) == if items == [] then Empty else Items(items)
  {
    hide Inverse;
    SizeIs(|items|, w);
    SplitGather(enc, dec, w, items);
    if items != [] {
      assert Packed(enc, w, items, room)[HEADER..] == Gather(enc, items);
    }
  }

  /** Bytes are accepted exactly when some list packs to them, and then they give that list. */
  lemma AcceptsWhatPackWrites<E(!new)>(enc: E -> seq<Byte>, dec: seq<Byte> -> E, w: nat, bs: seq<Byte>, items: seq<E>,
                                       most: nat)
    requires w > 0 && Inverse(enc, dec, w) && bs != []
    ensures UnpackOf(dec, w, bs, most) == Items(items) <==> |items| <= most && Packed(enc, w, items, |bs|) == bs
  {
    hide Inverse;
    if UnpackOf(dec, w, bs, most) == Items(items) {
      SizeIs(bs[1], w);
      GatherSplit(enc, dec, w, bs[HEADER..], bs[1]);
      assert bs == [bs[0], bs[1]] + bs[HEADER..];
    }
    if |items| <= most && Packed(enc, w, items, |bs|) == bs {
      UnpackInvertsPack(enc, dec, w, items, |bs|, most);
    }
  }

  // ----- the bytes themselves

  /** Four bytes as a number, the lowest first. */
  function Word(b0: Byte, b1: Byte, b2: Byte, b3: Byte): nat {
    b0 + 0x100 * b1 + 0x1_0000 * b2 + 0x100_0000 * b3
  }

  lemma FourBytes(bs: seq<Byte>)
    requires |bs| >= 4
    ensures FromLE(bs) == Word(bs[0], bs[1], bs[2], bs[3]) + TWO_32 * FromLE(bs[4..])
  {
    assert bs[1..][1..] == bs[2..] && bs[2..][1..] == bs[3..] && bs[3..][1..] == bs[4..];
    assert FromLE(bs) == bs[0] + 256 * FromLE(bs[1..]) && FromLE(bs[1..]) == bs[1] + 256 * FromLE(bs[2..]);
    assert FromLE(bs[2..]) == bs[2] + 256 * FromLE(bs[3..]) && FromLE(bs[3..]) == bs[3] + 256 * FromLE(bs[4..]);
  }

  /** A signed number as its bytes say: the lowest first, in two's complement. */
  predicate Spells32(bs: seq<Byte>, at: nat, x: int) {
    && at + 4 <= |bs|
    && x == Word(bs[at], bs[at + 1], bs[at + 2], bs[at + 3]) - (if bs[at + 3] >= 128 then 0x1_0000_0000 else 0)
  }

  predicate Spells64(bs: seq<Byte>, at: nat, x: int) {
    && at + 8 <= |bs|
    && x == Word(bs[at], bs[at + 1], bs[at + 2], bs[at + 3])
            + 0x1_0000_0000 * Word(bs[at + 4], bs[at + 5], bs[at + 6], bs[at + 7])
            - (if bs[at + 7] >= 128 then 0x1_0000_0000_0000_0000 else 0)
  }

  lemma SpelledFour(x: Int32, bs: seq<Byte>)
    requires bs == LE(Unsigned(x, TWO_32), 4)
    ensures Spells32(bs, 0, x)
  {
    hide LE, FromLE, Pow256;
    Widths();
    LEInverse(Unsigned(x, TWO_32), 4);
    FourBytes(bs);
    assert FromLE(bs[4..]) == 0 by { NoBytes(bs[4..]); }
  }

  lemma SpelledEight(x: Int64, bs: seq<Byte>)
    requires bs == LE(Unsigned(x, TWO_64), 8)
    ensures Spells64(bs, 0, x)
  {
    hide LE, FromLE, Pow256;
    Widths();
    LEInverse(Unsigned(x, TWO_64), 8);
    FourBytes(bs);
    FourBytes(bs[4..]);
    assert bs[4..][0] == bs[4] && bs[4..][1] == bs[5] && bs[4..][2] == bs[6] && bs[4..][3] == bs[7];
    assert FromLE(bs[4..][4..]) == 0 by { NoBytes(bs[4..][4..]); }
  }

  lemma NoBytes(bs: seq<Byte>)
    requires bs == []
    ensures FromLE(bs) == 0
  {
  }

  lemma {:induction false} GatherAt<E>(enc: E -> seq<Byte>, w: nat, items: seq<E>, i: nat)
    requires i < |items| && forall e :: e in items ==> |enc(e)| == w
    ensures |Gather(enc, items)| == Size(|items|, w) && Size(i, w) + w <= Size(|items|, w)
    ensures Gather(enc, items)[Size(i, w)..Size(i, w) + w] == enc(items[i])
  {
    if |items| == 1 {
      assert items[1..] == [];
    } else {
      GatherAt(enc, w, items[1..], if i == 0 then 0 else i - 1);
    }
  }

  lemma Shifted(bs: seq<Byte>, p: nat, n: nat, at: nat, x: int)
    requires p + n <= |bs|
    ensures Spells32(bs[p..p + n], at, x) ==> Spells32(bs, p + at, x)
    ensures Spells64(bs[p..p + n], at, x) ==> Spells64(bs, p + at, x)
  {
  }

  /** The bytes of a packed list of cooldowns: version 1, the number of entries, and in each its skill and, lowest byte
      first, the time. */
  lemma CooldownLayout(items: seq<Cooldown>, room: nat, i: nat)
    requires i < |items| <= 255 && HEADER + |items| * COOLDOWN_BYTES <= room
    ensures var bs := Packed(CooldownBytes, COOLDOWN_BYTES, items, room);
            && |bs| == 2 + 9 * |items| && bs[0] == 1 && bs[1] == |items|
            && bs[2 + 9 * i] == items[i].skillId && Spells64(bs, 3 + 9 * i, items[i].readyAtMs)
  {
    hide LE, CooldownBytes, Gather;
    var bs, e := Packed(CooldownBytes, COOLDOWN_BYTES, items, room), items[i];
    forall x | x in items ensures |CooldownBytes(x)| == COOLDOWN_BYTES { CooldownRound(x); }
    GatherAt(CooldownBytes, COOLDOWN_BYTES, items, i);
    SizeIs(i, COOLDOWN_BYTES);
    SizeIs(|items|, COOLDOWN_BYTES);
    var p := 2 + 9 * i;
    assert bs[p..p + 9] == CooldownBytes(e);
    CooldownSpells(e);
    Shifted(bs, p, 9, 1, e.readyAtMs);
  }

  lemma CooldownSpells(e: Cooldown)
    ensures var b := CooldownBytes(e); |b| == 9 && b[0] == e.skillId && Spells64(b, 1, e.readyAtMs)
  {
    hide LE;
    var t := LE(Unsigned(e.readyAtMs, TWO_64), 8);
    SpelledEight(e.readyAtMs, t);
    assert forall k :: 0 <= k < 8 ==> CooldownBytes(e)[1 + k] == t[k];
  }

  /** The bytes of a packed list of effects: in each entry its kind, and, lowest byte first, its value and its time. */
  lemma BuffLayout(items: seq<Buff>, room: nat, i: nat)
    requires i < |items| <= 255 && HEADER + |items| * BUFF_BYTES <= room
    ensures var bs := Packed(BuffBytes, BUFF_BYTES, items, room);
            && |bs| == 2 + 13 * |items| && bs[0] == 1 && bs[1] == |items|
            && bs[2 + 13 * i] == items[i].kind && Spells32(bs, 3 + 13 * i, items[i].value)
            && Spells64(bs, 7 + 13 * i, items[i].expireAtMs)
  {
    hide LE, BuffBytes, Gather;
    var bs, e := Packed(BuffBytes, BUFF_BYTES, items, room), items[i];
    forall x | x in items ensures |BuffBytes(x)| == BUFF_BYTES { BuffRound(x); }
    GatherAt(BuffBytes, BUFF_BYTES, items, i);
    SizeIs(i, BUFF_BYTES);
    SizeIs(|items|, BUFF_BYTES);
    var p := 2 + 13 * i;
    assert bs[p..p + 13] == BuffBytes(e);
    BuffSpells(e);
    Shifted(bs, p, 13, 1, e.value);
    Shifted(bs, p, 13, 5, e.expireAtMs);
  }

  lemma BuffSpells(e: Buff)
    ensures var b := BuffBytes(e);
            |b| == 13 && b[0] == e.kind && Spells32(b, 1, e.value) && Spells64(b, 5, e.expireAtMs)
  {
    hide LE;
    var v, t := LE(Unsigned(e.value, TWO_32), 4), LE(Unsigned(e.expireAtMs, TWO_64), 8);
    SpelledFour(e.value, v);
    SpelledEight(e.expireAtMs, t);
    assert forall k :: 0 <= k < 4 ==> BuffBytes(e)[1 + k] == v[k];
    assert forall k :: 0 <= k < 8 ==> BuffBytes(e)[5 + k] == t[k];
  }
}
