/** Writing and reading the byte form in place. */
module BlobCodec {
  import opened Seqs
  import opened Blobs

  datatype Status = EmptyValue | Ok | BadValue

  method PutLE(out: array<Byte>, at: nat, v: nat, n: nat)
    requires at + n <= out.Length
    modifies out
    ensures out[..] == old(out[..at]) + LE(v, n) + old(out[at + n..])
  {
    var rest, i := v, 0;
    while i < n
      invariant i <= n
      invariant out[..at] == old(out[..at]) && out[at + n..] == old(out[at + n..])
      invariant out[at..at + i] + LE(rest, n - i) == LE(v, n)
    {
      out[at + i] := rest % 256;
      assert out[at..at + i + 1] == out[at..at + i] + [rest % 256];
      rest, i := rest / 256, i + 1;
    }
    assert out[..] == out[..at] + out[at..at + n] + out[at + n..];
  }

  function Times(x: nat, y: nat): nat {
    x * y
  }

  lemma Distribute(p: nat, b: nat, r: nat)
    ensures Times(p, b + 256 * r) == Times(p, b) + Times(256 * p, r) && Times(p, 0) == 0
  {
  }

  method GetLE(data: array<Byte>, at: nat, n: nat) returns (v: nat)
    requires at + n <= data.Length
    ensures v == FromLE(data[at..at + n])
  {
    assert Times(1, FromLE(data[at..at + n])) == FromLE(data[at..at + n]);
    hide Times;
    v := 0;
    var power: nat, i: nat := 1, 0;
    while i < n
      invariant i <= n
      invariant v + Times(power, FromLE(data[at + i..at + n])) == FromLE(data[at..at + n])
    {
      var b := data[at + i];
      assert data[at + i..at + n][0] == b && data[at + i..at + n][1..] == data[at + i + 1..at + n];
      Distribute(power, b, FromLE(data[at + i + 1..at + n]));
      v, power, i := v + Times(power, b), 256 * power, i + 1;
    }
    Distribute(power, 0, 0);
  }

  method PutCooldown(out: array<Byte>, p: nat, e: Cooldown)
    requires p + COOLDOWN_BYTES <= out.Length
    modifies out
    ensures out[..] == old(out[..p]) + CooldownBytes(e) + old(out[p + COOLDOWN_BYTES..])
  {
    hide LE;
    out[p] := e.skillId;
    assert out[..p + 1] == old(out[..p]) + [e.skillId];
    PutLE(out, p + 1, Unsigned(e.readyAtMs, TWO_64), 8);
  }

  lemma CooldownSize(e: Cooldown)
    ensures |CooldownBytes(e)| == COOLDOWN_BYTES
  {
  }

  lemma GrowMiddle<T>(x: seq<T>, y: seq<T>, e: seq<T>, rest: seq<T>, p: nat)
    requires p == |x| + |y| && |e| <= |rest|
    ensures (x + y + rest)[..p] + e + (x + y + rest)[p + |e|..] == x + (y + e) + rest[|e|..]
  {
  }

  lemma OneMore(items: seq<Cooldown>, i: nat, head: seq<Byte>, was: seq<Byte>, now: seq<Byte>, p: nat)
    requires i < |items| && |head| == HEADER && p + COOLDOWN_BYTES <= |was|
    requires p == HEADER + |Gather(CooldownBytes, items[..i])|
    requires now == head + Gather(CooldownBytes, items[..i]) + was[p..]
    ensures |now| == |was| && p + COOLDOWN_BYTES == HEADER + |Gather(CooldownBytes, items[..i + 1])|
    ensures now[..p] + CooldownBytes(items[i]) + now[p + COOLDOWN_BYTES..]
            == head + Gather(CooldownBytes, items[..i + 1]) + was[p + COOLDOWN_BYTES..]
  {
    hide Gather, CooldownBytes;
    assert items[..i + 1] == items[..i] + [items[i]];
    GatherSnoc(CooldownBytes, items[..i], items[i]);
    CooldownSize(items[i]);
    GrowMiddle(head, Gather(CooldownBytes, items[..i]), CooldownBytes(items[i]), was[p..], p);
    assert was[p..][COOLDOWN_BYTES..] == was[p + COOLDOWN_BYTES..];
  }

  /** Writes the list, or nothing when it is empty or does not fit; what lies behind it stays. */
  method PackCooldowns(items: seq<Cooldown>, out: array<Byte>) returns (len: nat)
    modifies out
    ensures len <= out.Length && out[..] == Packed(CooldownBytes, COOLDOWN_BYTES, items, out.Length) + old(out[len..])
  {
    assert Gather(CooldownBytes, items[..0]) == [];
    hide Gather, LE, CooldownBytes;
    ghost var was := out[..];
    var n := |items|;
    if n == 0 || n > 255 {
      return 0;
    }
    len := HEADER + n * COOLDOWN_BYTES;
    if len > out.Length {
      return 0;
    }
    out[0], out[1] := VERSION, n;
    ghost var head: seq<Byte> := [VERSION, n];
    var i, p := 0, HEADER;
    while i < n
      invariant i <= n && p == HEADER + i * COOLDOWN_BYTES
      invariant p == HEADER + |Gather(CooldownBytes, items[..i])|
      invariant out[..] == head + Gather(CooldownBytes, items[..i]) + was[p..]
    {
      OneMore(items, i, head, was, out[..], p);
      PutCooldown(out, p, items[i]);
      i, p := i + 1, p + COOLDOWN_BYTES;
    }
    assert items[..n] == items;
  }

  method CheckHeader(data: array<Byte>, len: nat, w: nat, most: nat) returns (r: Status, n: nat)
    requires len <= data.Length
    ensures r == EmptyValue <==> len == 0
    ensures r == Ok <==> len >= HEADER && data[0] == VERSION && 0 < data[1] <= most && len == HEADER + data[1] * w
    ensures n == if r == Ok then data[1] else 0
  {
    if len == 0 {
      return EmptyValue, 0;
    }
    if len < HEADER || data[0] != VERSION {
      return BadValue, 0;
    }
    var count := data[1];
    if count == 0 || count > most || len != HEADER + count * w {
      return BadValue, 0;
    }
    return Ok, count;
  }

  lemma {:induction false} SplitEntry<E>(dec: seq<Byte> -> E, w: nat, bs: seq<Byte>, n: nat, k: nat)
    requires w > 0 && |bs| == Size(n, w) && k < n
    ensures Size(k, w) + w <= |bs| && |Split(dec, w, bs)| == n
            && Split(dec, w, bs)[k] == dec(bs[Size(k, w)..Size(k, w) + w])
  {
    if k > 0 {
      SplitEntry(dec, w, bs[w..], n - 1, k - 1);
      var at := Size(k - 1, w);
      assert Size(k, w) == w + at;
      assert bs[w..][at..at + w] == bs[w + at..w + at + w];
    } else if n > 1 {
      SplitEntry(dec, w, bs[w..], n - 1, 0);
    }
  }

  lemma CooldownAt(bytes: seq<Byte>, n: nat, k: nat)
    requires |bytes| == HEADER + n * COOLDOWN_BYTES && k < n
    ensures var p := HEADER + k * COOLDOWN_BYTES; var list := Split(CooldownOf, COOLDOWN_BYTES, bytes[HEADER..]);
            && p + COOLDOWN_BYTES <= |bytes| && FromLE(bytes[p + 1..p + COOLDOWN_BYTES]) < TWO_64 && |list| == n
            && -0x8000_0000_0000_0000 <= Signed(FromLE(bytes[p + 1..p + COOLDOWN_BYTES]), TWO_64)
                 < 0x8000_0000_0000_0000
            && list[k] == Cooldown(bytes[p], Signed(FromLE(bytes[p + 1..p + COOLDOWN_BYTES]), TWO_64))
  {
    hide FromLE, LE, Signed;
    var p := HEADER + k * COOLDOWN_BYTES;
    SizeIs(n, COOLDOWN_BYTES);
    SizeIs(k, COOLDOWN_BYTES);
    SplitEntry(CooldownOf, COOLDOWN_BYTES, bytes[HEADER..], n, k);
    var e := bytes[HEADER..][k * COOLDOWN_BYTES..k * COOLDOWN_BYTES + COOLDOWN_BYTES];
    assert e == bytes[p..p + COOLDOWN_BYTES] && e[1..] == bytes[p + 1..p + COOLDOWN_BYTES];
    Widths();
    FromLEInverse(e[1..]);
    UnsignedSigned(FromLE(e[1..]), TWO_64 / 2);
  }

  /** The list the bytes spell, or the reason why there is none. */
  method UnpackCooldowns(data: array<Byte>, len: nat, out: array<Cooldown>, most: nat) returns (r: Status, n: nat)
    requires len <= data.Length && most <= out.Length
    modifies out
    ensures n <= out.Length && UnpackOf(CooldownOf, COOLDOWN_BYTES, data[..len], most) ==
              match r { case EmptyValue => Empty case Ok => Items(out[..n]) case BadValue => Bad }
  {
    hide Split, CooldownOf, FromLE, LE, Signed;
    ghost var bytes := data[..len];
    ghost var list := if len < HEADER then [] else Split(CooldownOf, COOLDOWN_BYTES, bytes[HEADER..]);
    assert UnpackOf(CooldownOf, COOLDOWN_BYTES, bytes, most) ==
      if len == 0 then Empty
      else if len >= HEADER && data[0] == VERSION && 0 < data[1] <= most && len == HEADER + data[1] * COOLDOWN_BYTES
          then Items(list)
      else Bad;
    hide UnpackOf;
    r, n := CheckHeader(data, len, COOLDOWN_BYTES, most);
    if r != Ok {
      return;
    }
    CooldownAt(bytes, n, 0);
    var i, p := 0, HEADER;
    while i < n
      invariant i <= n && p == HEADER + i * COOLDOWN_BYTES
      invariant forall k :: 0 <= k < i ==> out[k] == list[k]
    {
      var at := GetLE(data, p + 1, 8);
      CooldownAt(bytes, n, i);
      assert bytes[p + 1..p + COOLDOWN_BYTES] == data[p + 1..p + 1 + 8];
      out[i] := Cooldown(data[p], Signed(at, TWO_64));
      i, p := i + 1, p + COOLDOWN_BYTES;
    }
  }
}
