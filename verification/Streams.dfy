/** Packets out of a byte stream that arrives in pieces. */
module Streams {

  type Byte = b: int | 0 <= b < 256

  const HEADER: nat := 4
  const WEB_MAX: nat := 4096         // largest packet the web client takes
  const RECV_BUFFER_SIZE: nat := 8192

  function SizeOf(b: seq<Byte>): nat
    requires |b| >= 2
  {
    var low: int, high: int := b[0], b[1];
    low + 256 * high
  }

  /** What a stream holds: its whole packets, what is left over, and whether the left-over starts with a size no packet
      can have. */
  datatype Parsed = Parsed(packets: seq<seq<Byte>>, rest: seq<Byte>, bad: bool)

  function Parse(s: seq<Byte>, max: nat): (r: Parsed)
    ensures |r.rest| <= |s|
  {
    if |s| < HEADER then Parsed([], s, false)
    else if SizeOf(s) < HEADER || SizeOf(s) > max then Parsed([], s, true)
    else if |s| < SizeOf(s) then Parsed([], s, false)
    else
      var tail := Parse(s[SizeOf(s)..], max);
      Parsed([s[..SizeOf(s)]] + tail.packets, tail.rest, tail.bad)
  }

  function Join(xs: seq<seq<Byte>>): seq<Byte> {
    if xs == [] then [] else xs[0] + Join(xs[1..])
  }

  /** A packet: its size stands at its front, the low byte first. */
  predicate WellFormed(p: seq<Byte>, max: nat) {
    HEADER <= |p| <= max && p[0] == |p| % 256 && p[1] == |p| / 256
  }

  /** The first two bytes spell the number `n` exactly when they are its low and its high byte. */
  lemma SpelledIs(p: seq<Byte>, n: nat)
    requires |p| >= 2
    ensures SizeOf(p) == n <==> p[0] == n % 256 && p[1] == n / 256
  {
    if SizeOf(p) == n {
      var low: int, high: int := p[0], p[1];
      assert n == 256 * high + low && 0 <= low < 256;
    }
  }

  /** Reading packets put one behind the other gives them back. */
  lemma {:induction false} ParseJoin(ps: seq<seq<Byte>>, max: nat)
    requires forall i :: 0 <= i < |ps| ==> WellFormed(ps[i], max)
    ensures Parse(Join(ps), max) == Parsed(ps, [], false)
  {
    if ps != [] {
      ParseJoin(ps[1..], max);
      var s := Join(ps);
      assert s[..|ps[0]|] == ps[0] && s[|ps[0]|..] == Join(ps[1..]);
      assert SizeOf(s) == SizeOf(ps[0]);
      assert ps == [ps[0]] + ps[1..];
    }
  }

  predicate Whole(s: seq<Byte>, max: nat) {
    |s| >= HEADER && HEADER <= SizeOf(s) <= max && |s| >= SizeOf(s)
  }

  predicate BadStart(s: seq<Byte>, max: nat) {
    |s| >= HEADER && !(HEADER <= SizeOf(s) <= max)
  }

  lemma ParseStep(s: seq<Byte>, max: nat)
    ensures Whole(s, max) ==>
              var tail := Parse(s[SizeOf(s)..], max);
              Parse(s, max) == Parsed([s[..SizeOf(s)]] + tail.packets, tail.rest, tail.bad)
    ensures !Whole(s, max) ==> Parse(s, max) == Parsed([], s, BadStart(s, max))
  {
  }

  lemma SameSize(s: seq<Byte>, t: seq<Byte>)
    requires |s| >= 2 && |t| >= 2 && s[0] == t[0] && s[1] == t[1]
    ensures SizeOf(s) == SizeOf(t)
  {
  }

  /** The packets found are well formed, and with the rest they are the whole stream. */
  lemma {:induction false} ParseIsComplete(s: seq<Byte>, max: nat)
    ensures Join(Parse(s, max).packets) + Parse(s, max).rest == s
    ensures forall i :: 0 <= i < |Parse(s, max).packets| ==> WellFormed(Parse(s, max).packets[i], max)
  {
    hide Parse, SizeOf;
    ParseStep(s, max);
    if Whole(s, max) {
      var n := SizeOf(s);
      ParseIsComplete(s[n..], max);
      SameSize(s[..n], s);
      SpelledIs(s[..n], n);
      assert Parse(s, max).packets[1..] == Parse(s[n..], max).packets;
      JoinOne(s[..n], Parse(s[n..], max).packets, Parse(s[n..], max).rest);
      assert s == s[..n] + s[n..];
    }
  }

  lemma JoinOne(p: seq<Byte>, ps: seq<seq<Byte>>, rest: seq<Byte>)
    ensures Join([p] + ps) + rest == p + (Join(ps) + rest)
  {
    assert ([p] + ps)[1..] == ps;
  }

  /** Reading on where a first reading stopped is reading it all at once. */
  lemma {:induction false} ParseOn(s: seq<Byte>, more: seq<Byte>, max: nat)
    ensures var r := Parse(s, max); var on := Parse(r.rest + more, max);
            Parse(s + more, max) == Parsed(r.packets + on.packets, on.rest, on.bad)
  {
    hide Parse, SizeOf;
    ParseStep(s, max);
    if Whole(s, max) {
      var n := SizeOf(s);
      ParseOn(s[n..], more, max);
      ParseStep(s + more, max);
      SameSize(s + more, s);
      assert (s + more)[..n] == s[..n] && (s + more)[n..] == s[n..] + more;
    } else {
      var on := Parse(s + more, max);
      assert [] + on.packets == on.packets;
    }
  }

  lemma Regroup<T>(xs: seq<T>, x: T, ys: seq<T>)
    ensures xs + ([x] + ys) == (xs + [x]) + ys
  {
  }

  // ----- the web client's reassembler

  /** `buf` between two calls; a size no packet can have throws away what has come so far. */
  class Reassembler {
    var buf: seq<Byte>
    var packets: seq<seq<Byte>>   // handed on

    constructor ()
      ensures buf == [] && packets == []
    {
      buf, packets := [], [];
    }

    method Push(chunk: seq<Byte>)
      modifies this
      ensures var r := Parse(old(buf) + chunk, WEB_MAX);
              packets == old(packets) + r.packets && buf == if r.bad then [] else r.rest
    {
      hide Parse, SizeOf;
      var merged := buf + chunk;
      var off := 0;
      assert merged[0..] == merged;
      while |merged| - off >= HEADER
        invariant off <= |merged|
        invariant var on := Parse(merged[off..], WEB_MAX); var all := Parse(merged, WEB_MAX);
                  packets + on.packets == old(packets) + all.packets && on.rest == all.rest && on.bad == all.bad
        decreases |merged| - off
      {
        ParseStep(merged[off..], WEB_MAX);
        var size := SizeOf(merged[off..]);
        if size < HEADER || size > WEB_MAX {
          buf := [];
          return;
        }
        if |merged| - off < size {
          break;
        }
        assert merged[off..][size..] == merged[off + size..] && merged[off..][..size] == merged[off..off + size];
        Regroup(packets, merged[off..off + size], Parse(merged[off + size..], WEB_MAX).packets);
        packets := packets + [merged[off..off + size]];
        off := off + size;
      }
      ParseStep(merged[off..], WEB_MAX);
      buf := merged[off..];
    }
  }

  // ----- the game client's receive thread

  datatype End = Running | BadSize

  class Receiver {
    const buffer: array<Byte>
    var used: nat
    var packets: seq<seq<Byte>>
    var end: End

    ghost predicate Valid()
      reads this, buffer
    {
      buffer.Length == RECV_BUFFER_SIZE && used <= RECV_BUFFER_SIZE && (end == Running ==> used < RECV_BUFFER_SIZE)
    }

    constructor ()
      ensures Valid() && fresh(buffer) && used == 0 && packets == [] && end == Running
    {
      buffer := new Byte[RECV_BUFFER_SIZE](_ => 0);
      used, packets, end := 0, [], Running;
    }

    /** One turn of the loop: `recv` gives some bytes, as many as there is room for at most. There always is room. */
    method Turn(bytes: seq<Byte>)
      requires Valid() && end == Running && 0 < |bytes| <= RECV_BUFFER_SIZE - used
      modifies this, buffer
      ensures Valid()
      ensures var r := Parse(old(buffer[..used]) + bytes, RECV_BUFFER_SIZE);
              packets == old(packets) + r.packets && buffer[..used] == r.rest && (end == BadSize <==> r.bad)
    {
      hide Parse, SizeOf;
      var space := RECV_BUFFER_SIZE - used;
      if space <= 0 {
        assert false;    // the branch that reports an overflow is never taken
      }
      Append(bytes);
      ghost var all := Parse(buffer[..used], RECV_BUFFER_SIZE);
      while used >= HEADER
        invariant buffer.Length == RECV_BUFFER_SIZE && used <= RECV_BUFFER_SIZE && end == Running
        invariant var on := Parse(buffer[..used], RECV_BUFFER_SIZE);
                  packets + on.packets == old(packets) + all.packets && on.rest == all.rest && on.bad == all.bad
        decreases used
      {
        ghost var now := buffer[..used];
        ParseStep(now, RECV_BUFFER_SIZE);
        var size := SizeOf(buffer[..used]);
        if size < HEADER || size > RECV_BUFFER_SIZE {
          end := BadSize;
          return;
        }
        if used < size {
          break;
        }
        assert now[..size] == buffer[..size];
        Regroup(packets, buffer[..size], Parse(now[size..], RECV_BUFFER_SIZE).packets);
        packets := packets + [buffer[..size]];
        MoveDown(size);
        assert buffer[..used] == now[size..];
      }
      ParseStep(buffer[..used], RECV_BUFFER_SIZE);
    }

    method Append(bytes: seq<Byte>)
      requires buffer.Length == RECV_BUFFER_SIZE && used + |bytes| <= RECV_BUFFER_SIZE
      modifies `used, buffer
      ensures used == old(used) + |bytes| && buffer[..used] == old(buffer[..used]) + bytes
    {
      var i := 0;
      while i < |bytes|
        invariant i <= |bytes| && used == old(used) && buffer[..used] == old(buffer[..used])
                  && buffer[used..used + i] == bytes[..i]
      {
        buffer[used + i] := bytes[i];
        i := i + 1;
      }
      used := used + |bytes|;
    }

    /** Takes a packet of `size` bytes out of the front. */
    method MoveDown(size: nat)
      requires buffer.Length == RECV_BUFFER_SIZE && size <= used <= RECV_BUFFER_SIZE
      modifies `used, buffer
      ensures used == old(used) - size && buffer[..used] == old(buffer[size..used])
    {
      var remaining := used - size;
      var i := 0;
      while i < remaining
        invariant i <= remaining && used == old(used) && forall k :: 0 <= k < i ==> buffer[k] == old(buffer[size + k])
        invariant forall k :: i <= k < used ==> buffer[k] == old(buffer[k])
      {
        buffer[i] := buffer[size + i];
        i := i + 1;
      }
      used := remaining;
    }
  }

  // ----- any split of the stream

  /** The packets handed on and the bytes kept after the chunks have come in, one after the other. */
  function WebRun(buf: seq<Byte>, chunks: seq<seq<Byte>>): (seq<seq<Byte>>, seq<Byte>)
    decreases |chunks|
  {
    if chunks == [] then ([], buf)
    else
      var r := Parse(buf + chunks[0], WEB_MAX);
      var on := WebRun(if r.bad then [] else r.rest, chunks[1..]);
      (r.packets + on.0, on.1)
  }

  function NoChunks(): seq<seq<Byte>> {
    []
  }

  /** The thread ends at the first bad size. */
  function ThreadRun(kept: seq<Byte>, chunks: seq<seq<Byte>>): Parsed
    decreases |chunks|
  {
    if chunks == [] then Parsed([], kept, false)
    else
      var r := Parse(kept + chunks[0], RECV_BUFFER_SIZE);
      if r.bad then r
      else
        var on := ThreadRun(r.rest, chunks[1..]);
        Parsed(r.packets + on.packets, on.rest, on.bad)
  }

  /** However the bytes arrive, the thread hands on the packets of the stream and stops at its first bad size. */
  lemma {:induction false} ThreadSplitsAgree(kept: seq<Byte>, chunks: seq<seq<Byte>>)
    requires Parse(kept, RECV_BUFFER_SIZE) == Parsed([], kept, false)
    ensures var r := ThreadRun(kept, chunks); var all := Parse(kept + Join(chunks), RECV_BUFFER_SIZE);
            r.packets == all.packets && r.bad == all.bad && (!r.bad ==> r.rest == all.rest)
    decreases |chunks|
  {
    hide Parse, SizeOf;
    if chunks == [] {
      assert kept + [] == kept;
    } else {
      var now := kept + chunks[0];
      var r := Parse(now, RECV_BUFFER_SIZE);
      ParseOn(now, Join(chunks[1..]), RECV_BUFFER_SIZE);
      assert kept + Join(chunks) == now + Join(chunks[1..]);
      RestIsRest(now, RECV_BUFFER_SIZE);
      if r.bad {
        BadStays(r.rest, Join(chunks[1..]), RECV_BUFFER_SIZE);
      } else {
        ThreadSplitsAgree(r.rest, chunks[1..]);
      }
    }
  }

  /** What is left over holds no whole packet. */
  lemma {:induction false} RestIsRest(s: seq<Byte>, max: nat)
    ensures var r := Parse(s, max); Parse(r.rest, max) == Parsed([], r.rest, r.bad) && r.bad == BadStart(r.rest, max)
  {
    hide Parse, SizeOf;
    ParseStep(s, max);
    if Whole(s, max) {
      RestIsRest(s[SizeOf(s)..], max);
    }
  }

  lemma BadStays(s: seq<Byte>, more: seq<Byte>, max: nat)
    requires BadStart(s, max)
    ensures Parse(s + more, max) == Parsed([], s + more, true)
  {
    hide Parse;
    assert SizeOf(s + more) == SizeOf(s);
    ParseStep(s + more, max);
  }

  lemma {:induction false} WebRunIsParse(buf: seq<Byte>, chunks: seq<seq<Byte>>)
    requires Parse(buf, WEB_MAX) == Parsed([], buf, false)
    requires var all := Parse(buf + Join(chunks), WEB_MAX); all.bad ==> |all.rest| == HEADER
    ensures var all := Parse(buf + Join(chunks), WEB_MAX);
            WebRun(buf, chunks) == (all.packets, if all.bad then [] else all.rest)
    decreases |chunks|
  {
    hide Parse, SizeOf;
    if chunks == [] {
      assert buf + [] == buf;
    } else {
      var now := buf + chunks[0];
      var r := Parse(now, WEB_MAX);
      ParseOn(now, Join(chunks[1..]), WEB_MAX);
      assert buf + Join(chunks) == now + Join(chunks[1..]);
      RestIsRest(now, WEB_MAX);
      if r.bad {
        BadStays(r.rest, Join(chunks[1..]), WEB_MAX);
        assert Join(chunks[1..]) == [];
        ParseStep([], WEB_MAX);
        WebRunIsParse([], chunks[1..]);
      } else {
        WebRunIsParse(r.rest, chunks[1..]);
      }
    }
  }

  /** How the bytes are split makes no difference to the web client, neither to the packets nor to what it keeps,
      exactly when the stream holds no bad size or ends with the header that has it. */
  lemma WebSplitsAgree(s: seq<Byte>)
    ensures (forall chunks :: Join(chunks) == s ==> WebRun([], chunks) == WebRun([], [s])) <==>
              !Parse(s, WEB_MAX).bad || |Parse(s, WEB_MAX).rest| == HEADER
  {
    hide Parse, SizeOf;
    ParseStep([], WEB_MAX);
    var all := Parse(s, WEB_MAX);
    assert Join([s]) == s + Join([]) == s;
    assert [] + s == s;
    RestIsRest(s, WEB_MAX);
    if !all.bad || |all.rest| == HEADER {
      forall chunks | Join(chunks) == s ensures WebRun([], chunks) == WebRun([], [s]) {
        assert [] + Join(chunks) == s;
        WebRunIsParse([], chunks);
        WebRunIsParse([], [s]);
      }
    } else {
      LastByteMatters(s);
    }
  }

  /** A bad size with bytes behind it: the last byte is dropped with the chunk or kept, as it happens to arrive. */
  lemma LastByteMatters(s: seq<Byte>)
    requires var all := Parse(s, WEB_MAX); all.bad && |all.rest| != HEADER
    ensures s != [] && var cut := [s[..|s| - 1], s[|s| - 1..]]; Join(cut) == s && WebRun([], cut) != WebRun([], [s])
  {
    hide Parse, SizeOf;
    ParseStep(s, WEB_MAX);
    RestIsRest(s, WEB_MAX);
    var front, last := s[..|s| - 1], s[|s| - 1..];
    var cut := [front, last];
    assert cut[1..] == [last];
    assert [last][1..] == NoChunks();
    assert Join(cut) == front + Join([last]) && Join([last]) == last + Join(NoChunks());
    assert front + (last + []) == s;
    FrontIsBad(s);
    assert [] + front == front && [] + last == last && [] + s == s;
    ParseStep(last, WEB_MAX);
    assert WebRun([], cut).1 == WebRun([], [last]).1 == last;
    assert [s][1..] == NoChunks();
    assert WebRun([], [s]).1 == [];
  }

  lemma {:induction false} FrontIsBad(s: seq<Byte>)
    requires var all := Parse(s, WEB_MAX); all.bad && |all.rest| > HEADER
    ensures s != [] && Parse(s[..|s| - 1], WEB_MAX).bad
  {
    hide Parse;
    ParseStep(s, WEB_MAX);
    var front := s[..|s| - 1];
    ParseStep(front, WEB_MAX);
    if Whole(s, WEB_MAX) {
      var n := SizeOf(s);
      RestShorter(s[n..], WEB_MAX);
      FrontIsBad(s[n..]);
      assert s[n..][..|s[n..]| - 1] == front[n..];
    }
  }

  lemma {:induction false} RestShorter(s: seq<Byte>, max: nat)
    ensures |Parse(s, max).rest| <= |s|
  {
  }
}
