/**
 * The Radiance RGBE (.hdr) picture handler: the adaptive run-length encoding
 * of one scanline, written channel by channel (writeScanline) and read back
 * (readARLE), and the text header (readHeader, writeHeader).
 *
 * A channel of a scanline is encoded as a sequence of packets:
 *  - a run: the descriptor byte 128 + n, then the byte repeated n times;
 *  - a literal: the descriptor byte n (at most 128), then n bytes verbatim.
 */
module Hdr {
  import opened Wrappers

  newtype byte = x: int | 0 <= x < 256

  /** rgbePixel_t: four bytes, red, green, blue and the shared exponent. */
  datatype Pixel = Pixel(r: byte, g: byte, b: byte, e: byte)
  {
    function At(chan: int): byte
      requires 0 <= chan < 4
    {
      match chan
      case 0 => r
      case 1 => g
      case 2 => b
      case _ => e
    }

    function With(chan: int, v: byte): (p: Pixel)
      requires 0 <= chan < 4
      ensures p.At(chan) == v
      ensures forall c :: 0 <= c < 4 && c != chan ==> p.At(c) == At(c)
    {
      match chan
      case 0 => this.(r := v)
      case 1 => this.(g := v)
      case 2 => this.(b := v)
      case _ => this.(e := v)
    }
  }

  /** One channel of a scanline. */
  function Channel(scan: seq<Pixel>, chan: int): (s: seq<byte>)
    requires 0 <= chan < 4
    ensures |s| == |scan|
    ensures forall j :: 0 <= j < |scan| ==> s[j] == scan[j].At(chan)
  {
    if scan == [] then [] else [scan[0].At(chan)] + Channel(scan[1..], chan)
  }

  // ---------------------------------------------------------------------
  // Packets
  // ---------------------------------------------------------------------

  /** Run lengths the encoder writes: 2..127. */
  type RunLength = n: int | 2 <= n <= 127 witness 2

  /** Literal packets carry 1..128 bytes. */
  type LiteralBytes = s: seq<byte> | 1 <= |s| <= 128 witness [0]

  datatype Packet = Run(n: RunLength, v: byte) | Literal(bytes: LiteralBytes)

  function Repeat(v: byte, n: nat): (s: seq<byte>)
    ensures |s| == n && forall i :: 0 <= i < n ==> s[i] == v
  {
    if n == 0 then [] else [v] + Repeat(v, n - 1)
  }

  /** The bytes a packet stands for. */
  function Expand(p: Packet): seq<byte>
  {
    match p
    case Run(n, v) => Repeat(v, n)
    case Literal(bs) => bs
  }

  function ExpandAll(ps: seq<Packet>): seq<byte>
  {
    if ps == [] then [] else Expand(ps[0]) + ExpandAll(ps[1..])
  }

  /** The bytes a well-formed packet is written as. */
  function Bytes(p: Packet): seq<byte>
  {
    match p
    case Run(n, v) => [(128 + n) as byte, v]
    case Literal(bs) => [|bs| as byte] + bs
  }

  function Serialize(ps: seq<Packet>): seq<byte>
  {
    if ps == [] then [] else Bytes(ps[0]) + Serialize(ps[1..])
  }

  // ---------------------------------------------------------------------
  // Decoding (readARLE's rules for one channel)
  // ---------------------------------------------------------------------

  /**
   * Decode one channel of `width` bytes, `acc` holding what is decoded so far.
   * A descriptor above 128 is a run of (descriptor & 0x7F) copies of the next
   * byte; any other descriptor is a count of literal bytes. A packet that
   * would pass the end of the scanline, or input that ends early, is an error.
   * The result is the channel and the input left after it.
   */
  function DecodeChannel(data: seq<byte>, width: nat, acc: seq<byte>): Option<(seq<byte>, seq<byte>)>
    decreases |data|
  {
    if |acc| >= width then Some((acc, data))
    else if |data| == 0 then None
    else if data[0] > 128 then
      var n := (data[0] - 128) as int;
      if n + |acc| > width then None
      else if |data| < 2 then None
      else DecodeChannel(data[2..], width, acc + Repeat(data[1], n))
    else
      var n := data[0] as int;
      if n + |acc| > width then None
      else if |data| < 1 + n then None
      else DecodeChannel(data[1 + n..], width, acc + data[1..1 + n])
  }

  /** Decoding never yields anything but a channel of the requested width that extends what was decoded. */
  lemma {:induction false} DecodeChannelShape(data: seq<byte>, width: nat, acc: seq<byte>)
    requires |acc| <= width
    ensures DecodeChannel(data, width, acc).Some? ==>
              |DecodeChannel(data, width, acc).value.0| == width
              && acc <= DecodeChannel(data, width, acc).value.0
    decreases |data|
  {
    if |acc| < width && |data| > 0 {
      if data[0] > 128 {
        var n := (data[0] - 128) as int;
        if n + |acc| <= width && |data| >= 2 {
          DecodeChannelShape(data[2..], width, acc + Repeat(data[1], n));
        }
      } else {
        var n := data[0] as int;
        if n + |acc| <= width && |data| >= 1 + n {
          DecodeChannelShape(data[1 + n..], width, acc + data[1..1 + n]);
        }
      }
    }
  }

  /** Appending a packet appends its bytes and its expansion. */
  lemma SerializeSnoc(ps: seq<Packet>, p: Packet)
    ensures Serialize(ps + [p]) == Serialize(ps) + Bytes(p)
    ensures ExpandAll(ps + [p]) == ExpandAll(ps) + Expand(p)
  {
    SerializeAppend(ps, p);
    ExpandAllAppend(ps, p);
  }

  lemma {:induction false} SerializeAppend(ps: seq<Packet>, p: Packet)
    ensures Serialize(ps + [p]) == Serialize(ps) + Bytes(p)
    decreases |ps|
  {
    if ps == [] {
      assert ps + [p] == [p];
      assert Serialize([p]) == Bytes(p) + Serialize([]);
    } else {
      var qs := ps + [p];
      assert qs[0] == ps[0] && qs[1..] == ps[1..] + [p];
      SerializeAppend(ps[1..], p);
      var a, b, c := Bytes(ps[0]), Serialize(ps[1..]), Bytes(p);
      assert Serialize(qs) == a + (b + c);
      Associative(a, b, c);
    }
  }

  lemma {:induction false} ExpandAllAppend(ps: seq<Packet>, p: Packet)
    ensures ExpandAll(ps + [p]) == ExpandAll(ps) + Expand(p)
    decreases |ps|
  {
    if ps == [] {
      assert ps + [p] == [p];
      assert ExpandAll([p]) == Expand(p) + ExpandAll([]);
    } else {
      var qs := ps + [p];
      assert qs[0] == ps[0] && qs[1..] == ps[1..] + [p];
      ExpandAllAppend(ps[1..], p);
      var a, b, c := Expand(ps[0]), ExpandAll(ps[1..]), Expand(p);
      assert ExpandAll(qs) == a + (b + c);
      Associative(a, b, c);
    }
  }

  /**
   * Round trip: the bytes of well-formed packets, followed by anything, decode
   * (with the width they expand to) into exactly the bytes they stand for,
   * and leave what followed untouched.
   */
  lemma {:induction false} DecodeSerialized(ps: seq<Packet>, acc: seq<byte>, rest: seq<byte>)
    ensures DecodeChannel(Serialize(ps) + rest, |acc| + |ExpandAll(ps)|, acc) == Some((acc + ExpandAll(ps), rest))
    decreases |ps|
  {
    if ps == [] {
      assert Serialize(ps) + rest == rest;
      assert acc + ExpandAll(ps) == acc;
    } else {
      var p, tail := ps[0], ps[1..];
      var next := Serialize(tail) + rest;
      var acc' := acc + Expand(p);
      DecodeSerialized(tail, acc', rest);
      DecodeStep(p, acc, next, |acc'| + |ExpandAll(tail)|);
      ConsFacts(ps, acc, rest);
    }
  }

  /** How the first packet splits the bytes and the expansion of a packet sequence. */
  lemma ConsFacts(ps: seq<Packet>, acc: seq<byte>, rest: seq<byte>)
    requires ps != []
    ensures Serialize(ps) + rest == Bytes(ps[0]) + (Serialize(ps[1..]) + rest)
    ensures (acc + Expand(ps[0])) + ExpandAll(ps[1..]) == acc + ExpandAll(ps)
    ensures |acc| + |ExpandAll(ps)| == |acc + Expand(ps[0])| + |ExpandAll(ps[1..])|
  {
    Associative(Bytes(ps[0]), Serialize(ps[1..]), rest);
    Associative(acc, Expand(ps[0]), ExpandAll(ps[1..]));
  }

  lemma Associative(a: seq<byte>, b: seq<byte>, c: seq<byte>)
    ensures (a + b) + c == a + (b + c)
  {
  }

  /** Decoding one packet's bytes moves its expansion into the decoded prefix. */
  lemma DecodeStep(p: Packet, acc: seq<byte>, next: seq<byte>, width: nat)
    requires |acc| + |Expand(p)| <= width
    ensures DecodeChannel(Bytes(p) + next, width, acc) == DecodeChannel(next, width, acc + Expand(p))
  {
    var data := Bytes(p) + next;
    match p {
      case Run(n, v) =>
        assert data[0] == (128 + n) as byte && data[1] == v;
        assert data[2..] == next;
      case Literal(bs) =>
        assert data[0] == |bs| as byte;
        assert data[1..1 + |bs|] == bs;
        assert data[1 + |bs|..] == next;
    }
  }

  // ---------------------------------------------------------------------
  // Encoding (writeScanline, one channel at a time)
  // ---------------------------------------------------------------------

  /** s[lo..hi] holds one repeated byte. */
  predicate AllEqual(s: seq<byte>, lo: int, hi: int)
    requires 0 <= lo <= hi <= |s|
  {
    forall k :: lo <= k < hi ==> s[k] == s[lo]
  }

  /** Four equal bytes start at k. */
  predicate FourEqual(s: seq<byte>, k: int)
    requires 0 <= k && k + 3 < |s|
  {
    s[k] == s[k + 1] && s[k + 1] == s[k + 2] && s[k + 2] == s[k + 3]
  }

  /** s[lo..hi] holds no four equal consecutive bytes. */
  predicate NoLongRun(s: seq<byte>, lo: int, hi: int)
    requires 0 <= lo <= hi <= |s|
  {
    forall k :: lo <= k && k + 3 < hi ==> !FourEqual(s, k)
  }

  /** No literal packet holds four equal consecutive bytes. */
  predicate LiteralsShort(ps: seq<Packet>)
  {
    forall i :: 0 <= i < |ps| && ps[i].Literal? ==> NoLongRun(ps[i].bytes, 0, |ps[i].bytes|)
  }

  /** A short segment starting at a change of value keeps the prefix free of long runs. */
  lemma ExtendNoLongRun(s: seq<byte>, cur: int, beg: int, run: int)
    requires 0 <= cur <= beg && beg + run <= |s| && 1 <= run < 4
    requires NoLongRun(s, cur, beg)
    requires AllEqual(s, beg, beg + run)
    requires cur < beg ==> s[beg - 1] != s[beg]
    ensures NoLongRun(s, cur, beg + run)
  {
    forall k | cur <= k && k + 3 < beg + run
      ensures !FourEqual(s, k)
    {
      if k + 3 >= beg {
        assert k <= beg - 1 && beg <= k + 3;
      }
    }
  }

  /**
   * The search of writeScanline for the next run of at least four bytes,
   * hopping over the shorter runs from cur: beg is where that run starts (or
   * the end of the scanline), run its length, prev the length of the short
   * run just before it. The source compares the next byte before it checks
   * the scanline's end, so it can read one byte past the last pixel; the
   * bound is checked first here, and the result does not depend on that
   * byte.
   */
  method SeekLongRun(s: seq<byte>, cur: nat) returns (beg: nat, run: nat, prev: nat)
    requires cur < |s|
    ensures cur <= beg <= |s|
    ensures beg < |s| ==> 4 <= run <= 127 && beg + run <= |s| && AllEqual(s, beg, beg + run)
    ensures beg == |s| ==> run < 4
    ensures NoLongRun(s, cur, beg)
    ensures prev < 4 && prev <= beg - cur
    ensures 0 < prev ==> AllEqual(s, beg - prev, beg)
  {
    var w := |s|;
    beg, run, prev := cur, 0, 0;
    while run < 4 && beg < w
      invariant cur <= beg <= w
      invariant run == 0 ==> beg == cur && prev == 0
      invariant 0 < run && beg < w ==> run <= 127 && beg + run <= w && AllEqual(s, beg, beg + run)
      invariant 0 < run && beg < w && beg + run < w && run < 127 ==> s[beg + run] != s[beg]
      invariant 0 < run && beg == w ==> run == 1
      invariant prev < 4 && prev <= beg - cur
      invariant 0 < prev ==> AllEqual(s, beg - prev, beg)
      invariant NoLongRun(s, cur, beg)
      invariant cur < beg < w ==> s[beg - 1] != s[beg]
      decreases w - beg, if run == 0 then 1 else 0
    {
      if 0 < run {
        ExtendNoLongRun(s, cur, beg, run);
      }
      beg := beg + run;
      prev := run;
      run := 1;
      while beg + run < w && s[beg] == s[beg + run] && run < 127
        invariant 1 <= run <= 127
        invariant beg < w ==> beg + run <= w && AllEqual(s, beg, beg + run)
        invariant beg == w ==> run == 1
      {
        run := run + 1;
      }
    }
  }

  /** Appending a packet that stands for s[cur..next] to packets that stand for s[..cur]. */
  lemma AppendPacket(ps: seq<Packet>, p: Packet, s: seq<byte>, cur: int, next: int)
    requires 0 <= cur <= next <= |s|
    requires ExpandAll(ps) == s[..cur] && Expand(p) == s[cur..next]
    ensures ExpandAll(ps + [p]) == s[..next]
    ensures Serialize(ps + [p]) == Serialize(ps) + Bytes(p)
  {
    SerializeSnoc(ps, p);
    assert s[..cur] + s[cur..next] == s[..next];
  }

  /** A stretch of equal bytes is the repetition of its first byte. */
  lemma EqualIsRepeat(s: seq<byte>, lo: int, hi: int)
    requires 0 <= lo < hi <= |s| && AllEqual(s, lo, hi)
    ensures s[lo..hi] == Repeat(s[lo], hi - lo)
  {
  }

  /** A piece of a stretch without long runs has none either. */
  lemma NoLongRunSlice(s: seq<byte>, lo: int, hi: int, a: int, b: int)
    requires 0 <= lo <= a <= b <= hi <= |s| && NoLongRun(s, lo, hi)
    ensures NoLongRun(s[a..b], 0, b - a)
  {
    forall k | 0 <= k && k + 3 < b - a
      ensures !FourEqual(s[a..b], k)
    {
      assert !FourEqual(s, a + k);
    }
  }

  /** Adding a literal that has no long runs keeps every literal short. */
  lemma LiteralsShortSnoc(ps: seq<Packet>, p: Packet)
    requires LiteralsShort(ps)
    requires p.Literal? ==> NoLongRun(p.bytes, 0, |p.bytes|)
    ensures LiteralsShort(ps + [p])
  {
    forall i | 0 <= i < |ps + [p]| && (ps + [p])[i].Literal?
      ensures NoLongRun((ps + [p])[i].bytes, 0, |(ps + [p])[i].bytes|)
    {
      if i < |ps| { assert (ps + [p])[i] == ps[i]; }
    }
  }

  /** The invariant of the encoder: out holds the packets written so far, which stand for s[..cur]. */
  ghost predicate Encoded(s: seq<byte>, cur: int, out: seq<byte>, ps: seq<Packet>)
    requires 0 <= cur <= |s|
  {
    out == Serialize(ps) && ExpandAll(ps) == s[..cur] && LiteralsShort(ps)
  }

  /** Writing packet p for s[cur..next] keeps the encoder invariant. */
  lemma EncodedStep(s: seq<byte>, cur: int, next: int, out: seq<byte>, ps: seq<Packet>, p: Packet)
    requires 0 <= cur <= next <= |s| && Encoded(s, cur, out, ps)
    requires Expand(p) == s[cur..next]
    requires p.Literal? ==> NoLongRun(p.bytes, 0, |p.bytes|)
    ensures Encoded(s, next, out + Bytes(p), ps + [p])
  {
    AppendPacket(ps, p, s, cur, next);
    LiteralsShortSnoc(ps, p);
  }

  /** A run of n copies of s[lo], written as its two bytes. */
  method WriteRun(s: seq<byte>, lo: nat, n: nat, out0: seq<byte>, ghost ps0: seq<Packet>)
      returns (out: seq<byte>, ghost ps: seq<Packet>)
    requires 2 <= n <= 127 && lo + n <= |s| && AllEqual(s, lo, lo + n)
    requires Encoded(s, lo, out0, ps0)
    ensures Encoded(s, lo + n, out, ps)
  {
    var p := Run(n, s[lo]);
    EqualIsRepeat(s, lo, lo + n);
    EncodedStep(s, lo, lo + n, out0, ps0, p);
    out := out0 + [(128 + n) as byte, s[lo]];
    ps := ps0 + [p];
  }

  /** One literal packet: the count n, then the n bytes s[cur..cur+n] one at a time. */
  method WriteLiteral(out0: seq<byte>, s: seq<byte>, cur: nat, n: nat) returns (out: seq<byte>)
    requires 1 <= n <= 128 && cur + n <= |s|
    ensures out == out0 + Bytes(Literal(s[cur..cur + n]))
  {
    out := out0 + [n as byte];
    for i := 0 to n
      invariant out == out0 + [n as byte] + s[cur..cur + i]
    {
      assert s[cur..cur + i + 1] == s[cur..cur + i] + [s[cur + i]];
      out := out + [s[cur + i]];
    }
  }

  /** A literal cut from a stretch without long runs keeps the encoder invariant. */
  lemma LiteralStep(s: seq<byte>, lo: int, hi: int, cur: int, n: int, out: seq<byte>, ps: seq<Packet>)
    requires 1 <= n <= 128 && 0 <= lo <= cur && cur + n <= hi <= |s|
    requires NoLongRun(s, lo, hi) && Encoded(s, cur, out, ps)
    ensures Encoded(s, cur + n, out + Bytes(Literal(s[cur..cur + n])), ps + [Literal(s[cur..cur + n])])
  {
    NoLongRunSlice(s, lo, hi, cur, cur + n);
    EncodedStep(s, cur, cur + n, out, ps, Literal(s[cur..cur + n]));
  }

  /** The bytes s[cur..beg], written as literals of at most 128 bytes each. */
  method WriteLiterals(s: seq<byte>, cur0: nat, beg: nat, out0: seq<byte>, ghost ps0: seq<Packet>)
      returns (out: seq<byte>, ghost ps: seq<Packet>)
    requires cur0 <= beg <= |s| && NoLongRun(s, cur0, beg)
    requires Encoded(s, cur0, out0, ps0)
    ensures Encoded(s, beg, out, ps)
  {
    var cur := cur0;
    out, ps := out0, ps0;
    while cur < beg
      invariant cur0 <= cur <= beg
      invariant Encoded(s, cur, out, ps)
    {
      var n := beg - cur;
      if n > 128 {
        n := 128;
      }
      LiteralStep(s, cur0, beg, cur, n, out, ps);
      out := WriteLiteral(out, s, cur, n);
      ps := ps + [Literal(s[cur..cur + n])];
      cur := cur + n;
    }
  }

  /**
   * writeScanline for one channel: alternate literals and runs; a run of at
   * least four bytes is always written as a run, a shorter run only when it
   * alone fills the gap before the next long run or the end. The result is
   * the bytes of well-formed packets that stand for the channel, no literal
   * holds four equal consecutive bytes, and readARLE's rules decode it back.
   */
  method WriteChannel(s: seq<byte>) returns (out: seq<byte>, ok: bool, ghost packets: seq<Packet>)
    ensures ok
    ensures out == Serialize(packets) && ExpandAll(packets) == s
    ensures LiteralsShort(packets)
    ensures forall rest :: DecodeChannel(out + rest, |s|, []) == Some((s, rest))
  {
    var w := |s|;
    var cur := 0;
    out, ok, packets := [], true, [];
    while cur < w
      invariant 0 <= cur <= w
      invariant Encoded(s, cur, out, packets)
      decreases w - cur
    {
      var beg, run, prev := SeekLongRun(s, cur);
      if 1 < prev && prev == beg - cur {
        out, packets := WriteRun(s, cur, prev, out, packets);
        cur := beg;
      }
      out, packets := WriteLiterals(s, cur, beg, out, packets);
      cur := beg;
      if 4 <= run {
        out, packets := WriteRun(s, beg, run, out, packets);
        cur := cur + run;
      }
      if cur > w {
        ok := false;
        return;
      }
    }
    assert s[..w] == s;
    forall rest ensures DecodeChannel(out + rest, |s|, []) == Some((s, rest)) {
      DecodeSerialized(packets, [], rest);
      var empty: seq<byte> := [];
      assert empty + s == s && |empty| + |s| == |s|;
    }
  }

  // ---------------------------------------------------------------------
  // Whole scanlines
  // ---------------------------------------------------------------------

  /** The first k channels of a scanline, in the order R, G, B, E. */
  function ChannelsUpTo(scan: seq<Pixel>, k: nat): (chs: seq<seq<byte>>)
    requires k <= 4
    ensures |chs| == k
    ensures forall c :: 0 <= c < k ==> chs[c] == Channel(scan, c)
  {
    if k == 0 then [] else ChannelsUpTo(scan, k - 1) + [Channel(scan, k - 1)]
  }

  /** The four channels of a scanline. */
  function Channels(scan: seq<Pixel>): seq<seq<byte>>
  {
    ChannelsUpTo(scan, 4)
  }

  /** Decode k channel blocks of `width` bytes one after the other. */
  function DecodeChannels(data: seq<byte>, width: nat, k: nat): Option<(seq<seq<byte>>, seq<byte>)>
  {
    if k == 0 then Some(([], data))
    else
      match DecodeChannels(data, width, k - 1)
      case None => None
      case Some((chs, rest)) =>
        match DecodeChannel(rest, width, [])
        case None => None
        case Some((ch, rest')) => Some((chs + [ch], rest'))
  }

  /** readARLE's reading of a scanline: its four channels and the input after them. */
  function DecodeScanline(data: seq<byte>, width: nat): Option<(seq<seq<byte>>, seq<byte>)>
  {
    DecodeChannels(data, width, 4)
  }

  /** A scanline is determined by its four channels. */
  lemma ChannelsDetermine(a: seq<Pixel>, b: seq<Pixel>)
    requires |a| == |b| && Channels(a) == Channels(b)
    ensures a == b
  {
    forall j | 0 <= j < |a|
      ensures a[j] == b[j]
    {
      assert Channel(a, 0)[j] == Channel(b, 0)[j];
      assert Channel(a, 1)[j] == Channel(b, 1)[j];
      assert Channel(a, 2)[j] == Channel(b, 2)[j];
      assert Channel(a, 3)[j] == Channel(b, 3)[j];
    }
  }

  /** Once a channel fails to decode, the whole scanline does. */
  lemma {:induction false} DecodeChannelsFailed(data: seq<byte>, width: nat, k: nat, m: nat)
    requires k <= m && DecodeChannels(data, width, k).None?
    ensures DecodeChannels(data, width, m).None?
    decreases m - k
  {
    if k < m {
      DecodeChannelsFailed(data, width, k + 1, m);
    }
  }

  /** A block that decodes to channel `ch` in front of `rest` adds that channel. */
  lemma DecodeChannelsStep(out: seq<byte>, o: seq<byte>, rest: seq<byte>, width: nat, k: nat, chs: seq<seq<byte>>, ch: seq<byte>)
    requires DecodeChannels(out + (o + rest), width, k) == Some((chs, o + rest))
    requires DecodeChannel(o + rest, width, []) == Some((ch, rest))
    ensures DecodeChannels((out + o) + rest, width, k + 1) == Some((chs + [ch], rest))
  {
    assert (out + o) + rest == out + (o + rest);
  }

  /**
   * writeScanline: the four channels of the scanline one after the other.
   * Read back with readARLE's rules, the bytes give the scanline's channels
   * and leave whatever follows them untouched.
   */
  method WriteScanline(scan: seq<Pixel>) returns (out: seq<byte>, ok: bool)
    ensures ok
    ensures forall rest :: DecodeScanline(out + rest, |scan|) == Some((Channels(scan), rest))
  {
    out, ok := [], true;
    assert forall rest :: out + rest == rest;
    for chan := 0 to 4
      invariant forall rest :: DecodeChannels(out + rest, |scan|, chan) == Some((ChannelsUpTo(scan, chan), rest))
    {
      var o, done, packets := WriteChannel(Channel(scan, chan));
      if !done {
        ok := false;
        return;
      }
      forall rest ensures DecodeChannels((out + o) + rest, |scan|, chan + 1) == Some((ChannelsUpTo(scan, chan + 1), rest)) {
        DecodeChannelsStep(out, o, rest, |scan|, chan, ChannelsUpTo(scan, chan), Channel(scan, chan));
      }
      out := out + o;
    }
  }

  // ---------------------------------------------------------------------
  // readARLE: decoding into the scanline buffer in place
  // ---------------------------------------------------------------------

  /** The run length in a run descriptor: its low seven bits. */
  function RunCount(d: byte): (n: byte)
    ensures 128 < d ==> n as int == d as int - 128
  {
    // `d & 0x7F` on an unsigned byte keeps the remainder modulo 128
    (d as int % 128) as byte
  }

  /** Only channel `chan` of any pixel differs between the two buffers. */
  ghost predicate SameOtherChannels(before: seq<Pixel>, after: seq<Pixel>, chan: int)
  {
    |before| == |after| &&
    forall k, c :: 0 <= k < |after| && 0 <= c < 4 && c != chan ==> after[k].At(c) == before[k].At(c)
  }

  /** Decoding at a run descriptor. */
  lemma DecodeRunAt(data: seq<byte>, p: nat, width: nat, acc: seq<byte>)
    requires p < |data| && |acc| < width && 128 < data[p]
    ensures DecodeChannel(data[p..], width, acc) ==
      var n := data[p] as int - 128;
      if n + |acc| > width || p + 1 == |data| then None
      else DecodeChannel(data[p + 2..], width, acc + Repeat(data[p + 1], n))
  {
    if p + 1 < |data| {
      assert data[p..][2..] == data[p + 2..];
    }
  }

  /** Decoding at a literal descriptor. */
  lemma DecodeLiteralAt(data: seq<byte>, p: nat, width: nat, acc: seq<byte>)
    requires p < |data| && |acc| < width && data[p] <= 128
    ensures DecodeChannel(data[p..], width, acc) ==
      var n := data[p] as int;
      if n + |acc| > width || p + 1 + n > |data| then None
      else DecodeChannel(data[p + 1 + n..], width, acc + data[p + 1..p + 1 + n])
  {
    var n := data[p] as int;
    if p + 1 + n <= |data| {
      assert data[p..][1 + n..] == data[p + 1 + n..];
      assert data[p..][1..1 + n] == data[p + 1..p + 1 + n];
    }
  }

  /** The inner loop of a run: n copies of col into channel `chan` from j0 on. */
  method FillRun(scan: array<Pixel>, chan: int, j0: nat, n: nat, col: byte)
    requires 0 <= chan < 4 && j0 + n <= scan.Length
    modifies scan
    ensures SameOtherChannels(old(scan[..]), scan[..], chan)
    ensures forall k :: 0 <= k < j0 ==> scan[k].At(chan) == old(scan[k]).At(chan)
    ensures forall k :: j0 <= k < j0 + n ==> scan[k].At(chan) == col
  {
    var count, j := n, j0;
    while count > 0
      invariant 0 <= count <= n && j == j0 + n - count
      invariant SameOtherChannels(old(scan[..]), scan[..], chan)
      invariant forall k :: 0 <= k < j0 ==> scan[k].At(chan) == old(scan[k]).At(chan)
      invariant forall k :: j0 <= k < j ==> scan[k].At(chan) == col
    {
      scan[j] := scan[j].With(chan, col);
      j := j + 1;
      count := count - 1;
    }
  }

  /**
   * The inner loop of a literal: n bytes read one at a time into channel
   * `chan` from j0 on; it fails when the input runs out first.
   */
  method FillLiteral(data: seq<byte>, pos0: nat, scan: array<Pixel>, chan: int, j0: nat, n: nat) returns (ok: bool, pos: nat)
    requires 0 <= chan < 4 && pos0 <= |data| && j0 + n <= scan.Length
    modifies scan
    ensures SameOtherChannels(old(scan[..]), scan[..], chan)
    ensures forall k :: 0 <= k < j0 ==> scan[k].At(chan) == old(scan[k]).At(chan)
    ensures pos0 <= pos <= |data|
    ensures ok <==> pos0 + n <= |data|
    ensures ok ==> pos == pos0 + n && forall k :: j0 <= k < j0 + n ==> scan[k].At(chan) == data[pos0 + (k - j0)]
  {
    var count, j := n, j0;
    pos := pos0;
    while count > 0
      invariant 0 <= count <= n && j == j0 + n - count && pos == pos0 + (j - j0) <= |data|
      invariant SameOtherChannels(old(scan[..]), scan[..], chan)
      invariant forall k :: 0 <= k < j0 ==> scan[k].At(chan) == old(scan[k]).At(chan)
      invariant forall k :: j0 <= k < j ==> scan[k].At(chan) == data[pos0 + (k - j0)]
    {
      if pos == |data| {
        return false, pos;
      }
      var col := data[pos];
      pos := pos + 1;
      scan[j] := scan[j].With(chan, col);
      j := j + 1;
      count := count - 1;
    }
    ok := true;
  }

  /**
   * One run packet of readARLE, read at `p`: the run's byte repeated into
   * channel `chan` after the `acc` bytes already there. It fails exactly
   * where the decoder does.
   */
  method ReadRun(data: seq<byte>, p: nat, scan: array<Pixel>, chan: int, j: nat, ghost acc: seq<byte>)
    returns (ok: bool, pos: nat, j': nat, ghost acc': seq<byte>)
    requires 0 <= chan < 4 && p < |data| && 128 < data[p] && j == |acc| < scan.Length
    requires forall k :: 0 <= k < |acc| ==> scan[k].At(chan) == acc[k]
    modifies scan
    ensures SameOtherChannels(old(scan[..]), scan[..], chan)
    ensures p < pos <= |data|
    ensures !ok ==> DecodeChannel(data[p..], scan.Length, acc).None?
    ensures ok ==> j < j' == |acc'| <= scan.Length
    ensures ok ==> DecodeChannel(data[p..], scan.Length, acc) == DecodeChannel(data[pos..], scan.Length, acc')
    ensures ok ==> forall k :: 0 <= k < |acc'| ==> scan[k].At(chan) == acc'[k]
  {
    var w := scan.Length;
    DecodeRunAt(data, p, w, acc);
    acc' := acc;
    var count := RunCount(data[p]);
    pos := p + 1;
    if count as int + j > w || pos == |data| {
      return false, pos, j, acc';
    }
    var col := data[pos];
    pos := pos + 1;
    FillRun(scan, chan, j, count as int, col);
    ghost var run := Repeat(col, count as int);
    forall k | 0 <= k < j + count as int
      ensures scan[k].At(chan) == (acc + run)[k]
    {
      if k >= j {
        assert run[k - j] == col;
      }
    }
    acc' := acc + run;
    ok, j' := true, j + count as int;
  }

  /**
   * One literal packet of readARLE, read at `p`: the bytes that follow the
   * descriptor copied into channel `chan` after the `acc` bytes already
   * there. It fails exactly where the decoder does.
   */
  method ReadLiteral(data: seq<byte>, p: nat, scan: array<Pixel>, chan: int, j: nat, ghost acc: seq<byte>)
    returns (ok: bool, pos: nat, j': nat, ghost acc': seq<byte>)
    requires 0 <= chan < 4 && p < |data| && data[p] <= 128 && j == |acc| < scan.Length
    requires forall k :: 0 <= k < |acc| ==> scan[k].At(chan) == acc[k]
    modifies scan
    ensures SameOtherChannels(old(scan[..]), scan[..], chan)
    ensures p < pos <= |data|
    ensures !ok ==> DecodeChannel(data[p..], scan.Length, acc).None?
    ensures ok ==> j <= j' == |acc'| <= scan.Length
    ensures ok ==> DecodeChannel(data[p..], scan.Length, acc) == DecodeChannel(data[pos..], scan.Length, acc')
    ensures ok ==> forall k :: 0 <= k < |acc'| ==> scan[k].At(chan) == acc'[k]
  {
    var w := scan.Length;
    DecodeLiteralAt(data, p, w, acc);
    acc' := acc;
    var count := data[p];
    pos := p + 1;
    if count as int + j > w {
      return false, pos, j, acc';
    }
    ok, pos := FillLiteral(data, pos, scan, chan, j, count as int);
    if !ok {
      return false, pos, j, acc';
    }
    ghost var lit := data[p + 1..pos];
    forall k | 0 <= k < j + count as int
      ensures scan[k].At(chan) == (acc + lit)[k]
    {
      if k >= j {
        assert lit[k - j] == data[p + 1 + (k - j)];
      }
    }
    acc' := acc + lit;
    j' := j + count as int;
  }

  /**
   * readARLE for one channel: descriptors are read until the channel holds
   * scan.Length bytes. It succeeds exactly when DecodeChannel does, and then
   * the channel in the buffer is the decoded one and pos is where the
   * decoder stopped; the other channels are never touched.
   */
  method ReadChannel(data: seq<byte>, pos0: nat, scan: array<Pixel>, chan: int) returns (ok: bool, pos: nat)
    requires 0 <= chan < 4 && pos0 <= |data|
    modifies scan
    ensures SameOtherChannels(old(scan[..]), scan[..], chan)
    ensures pos <= |data|
    ensures ok <==> DecodeChannel(data[pos0..], scan.Length, []).Some?
    ensures ok ==> DecodeChannel(data[pos0..], scan.Length, []) == Some((Channel(scan[..], chan), data[pos..]))
  {
    var w := scan.Length;
    var j := 0;
    pos := pos0;
    ghost var acc: seq<byte> := [];
    while j < w
      invariant pos0 <= pos <= |data| && j == |acc| <= w
      invariant DecodeChannel(data[pos0..], w, []) == DecodeChannel(data[pos..], w, acc)
      invariant forall k :: 0 <= k < j ==> scan[k].At(chan) == acc[k]
      invariant SameOtherChannels(old(scan[..]), scan[..], chan)
      decreases w - j, |data| - pos
    {
      if pos == |data| {
        return false, pos;
      }
      var filled;
      ghost var before := scan[..];
      if data[pos] > 128 {
        filled, pos, j, acc := ReadRun(data, pos, scan, chan, j, acc);
      } else {
        filled, pos, j, acc := ReadLiteral(data, pos, scan, chan, j, acc);
      }
      assert SameOtherChannels(old(scan[..]), scan[..], chan) by {
        assert SameOtherChannels(before, scan[..], chan);
      }
      if !filled {
        return false, pos;
      }
    }
    assert Channel(scan[..], chan) == acc;
    ok := true;
  }

  /** Changing only channel `chan` leaves the channels before it as they were. */
  lemma {:induction false} ChannelsUpToFrame(a: seq<Pixel>, b: seq<Pixel>, chan: int, k: nat)
    requires 0 <= chan < 4 && k <= chan && SameOtherChannels(a, b, chan)
    ensures ChannelsUpTo(a, k) == ChannelsUpTo(b, k)
  {
    if k > 0 {
      ChannelsUpToFrame(a, b, chan, k - 1);
      assert Channel(a, k - 1) == Channel(b, k - 1);
    }
  }

  /**
   * readARLE: the four channel blocks of one scanline, read in order into
   * the buffer. It succeeds exactly when DecodeScanline does; the buffer
   * then holds the decoded channels and pos is where the decoder stopped.
   */
  method ReadARLE(data: seq<byte>, scan: array<Pixel>) returns (ok: bool, pos: nat)
    modifies scan
    ensures pos <= |data|
    ensures ok <==> DecodeScanline(data, scan.Length).Some?
    ensures ok ==> DecodeScanline(data, scan.Length) == Some((Channels(scan[..]), data[pos..]))
  {
    var w := scan.Length;
    pos := 0;
    for chan := 0 to 4
      invariant pos <= |data|
      invariant DecodeChannels(data, w, chan) == Some((ChannelsUpTo(scan[..], chan), data[pos..]))
    {
      ghost var before := scan[..];
      ok, pos := ReadChannel(data, pos, scan, chan);
      if !ok {
        DecodeChannelsFailed(data, w, chan + 1, 4);
        return;
      }
      ChannelsUpToFrame(before, scan[..], chan, chan);
    }
    ok := true;
  }

  /**
   * writeScanline followed by readARLE: encoding a scanline and decoding it
   * into a fresh buffer gives the same pixels, and the bytes that follow
   * are left for the next scanline. This is the path loadFromFile takes
   * for scan widths from 8 to 0x7fff, once it has read the scanline-start
   * signature; narrower and wider pictures are read flat (readORLE, which
   * is not part of this model).
   */
  method WriteThenRead(scan: seq<Pixel>, rest: seq<byte>) returns (back: seq<Pixel>, tail: seq<byte>)
    ensures back == scan && tail == rest
  {
    var out, _ := WriteScanline(scan);
    var buf := new Pixel[|scan|](_ => Pixel(0, 0, 0, 0));
    var ok, pos := ReadARLE(out + rest, buf);
    ChannelsDetermine(buf[..], scan);
    back, tail := buf[..], (out + rest)[pos..];
  }
}
