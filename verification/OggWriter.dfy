/** Streams as a writer makes them (RFC 3533, sections 5 and 6): acceptance is exactly being such a
    stream, and a short burst of corruption in one is always noticed. */
module OggWriter {
  import opened Common
  import opened Crc
  import opened OggPages
  import opened Images
  import opened OggStream

  // ----- Lacing -----

  /** A packet's segment sizes: 255 for each full segment, then one size below 255. */
  function Lace(packet: seq<byte>): seq<byte>
    decreases |packet|
  {
    if |packet| < 255 then [|packet|] else [255] + Lace(packet[255..])
  }

  function LaceAll(packets: seq<seq<byte>>): seq<byte> {
    if packets == [] then [] else LaceAll(packets[..|packets|-1]) + Lace(packets[|packets|-1])
  }

  function Flatten(packets: seq<seq<byte>>): seq<byte> {
    if packets == [] then [] else Flatten(packets[..|packets|-1]) + packets[|packets|-1]
  }

  function Lacings(ps: seq<Page>): seq<byte> {
    if ps == [] then [] else Lacings(ps[..|ps|-1]) + ps[|ps|-1].lacing
  }

  function Bodies(ps: seq<Page>): seq<byte> {
    if ps == [] then [] else Bodies(ps[..|ps|-1]) + ps[|ps|-1].body
  }

  lemma {:induction false} SumAppend(a: seq<byte>, b: seq<byte>)
    ensures Sum(a + b) == Sum(a) + Sum(b)
  {
    if b == [] {
      assert a + b == a;
    } else {
      var front := b[..|b|-1];
      SumAppend(a, front);
      assert (a + b)[..|a + b|-1] == a + front;
    }
  }

  /** Segments of two stretches, one after the other. */
  lemma {:induction false} AddSegmentsAppend(a: Assembly, l: seq<byte>, b: seq<byte>, m: seq<byte>, c: seq<byte>)
    requires |b| == Sum(l) && |c| == Sum(m)
    ensures Sum(l + m) == |b + c|
    ensures AddSegments(a, l + m, b + c) == AddSegments(AddSegments(a, l, b), m, c)
    decreases |m|
  {
    SumAppend(l, m);
    if m == [] {
      assert l + m == l && b + c == b;
    } else {
      var front := m[..|m|-1];
      var last: nat := m[|m|-1];
      SumAppend(l, front);
      assert (l + m)[..|l + m|-1] == l + front;
      AddSegmentsAppend(a, l, b, front, c[..Sum(front)]);
      assert (b + c)[Sum(l + front)..Sum(l + m)] == c[Sum(front)..Sum(m)];
      BodyPrefix(AddSegments(a, l, b), front, c, Sum(front));
      BodyPrefix(a, l + front, b + c, Sum(l + front));
      assert (b + c)[..Sum(l + front)] == b + c[..Sum(front)];
    }
  }

  /** Only the bytes that the lacing covers matter. */
  lemma {:induction false} BodyPrefix(a: Assembly, l: seq<byte>, b: seq<byte>, n: nat)
    requires Sum(l) <= n <= |b|
    ensures AddSegments(a, l, b[..n]) == AddSegments(a, l, b)
  {
    if l != [] {
      var front := l[..|l|-1];
      BodyPrefix(a, front, b, n);
      assert b[..n][Sum(front)..Sum(l)] == b[Sum(front)..Sum(l)];
    }
  }

  lemma {:induction false} PagesInOne(ps: seq<Page>)
    requires AllRepresentable(ps)
    ensures |Bodies(ps)| == Sum(Lacings(ps))
    ensures Assemble(ps) == AddSegments(Assembly([], []), Lacings(ps), Bodies(ps))
  {
    if ps != [] {
      var front, last := ps[..|ps|-1], ps[|ps|-1];
      PagesInOne(front);
      AddSegmentsAppend(Assembly([], []), Lacings(front), Bodies(front), last.lacing, last.body);
      SumAppend(Lacings(front), last.lacing);
    }
  }

  // ----- Packets from lacing, and lacing from packets -----

  lemma OneSegment(a: Assembly, s: seq<byte>)
    requires |s| <= 255
    ensures Sum([|s|]) == |s| && AddSegments(a, [|s|], s) == AddSegment(a, s)
  {
    var l: seq<byte> := [|s|];
    assert l[..0] == [];
    assert s[0..|s|] == s;
  }

  lemma {:induction false} LacedPacket(a: Assembly, packet: seq<byte>)
    ensures Sum(Lace(packet)) == |packet|
    ensures AddSegments(a, Lace(packet), packet) == Assembly(a.packets + [a.partial + packet], [])
    decreases |packet|
  {
    if |packet| < 255 {
      OneSegment(a, packet);
    } else {
      var first, rest := packet[..255], packet[255..];
      OneSegment(a, first);
      LacedPacket(AddSegment(a, first), rest);
      AddSegmentsAppend(a, [255], first, Lace(rest), rest);
      assert first + rest == packet;
      assert (a.partial + first) + rest == a.partial + packet;
    }
  }

  lemma {:induction false} LacedPackets(packets: seq<seq<byte>>)
    ensures Sum(LaceAll(packets)) == |Flatten(packets)|
    ensures AddSegments(Assembly([], []), LaceAll(packets), Flatten(packets)) == Assembly(packets, [])
  {
    if packets != [] {
      var front, last := packets[..|packets|-1], packets[|packets|-1];
      LacedPackets(front);
      LacedPacket(Assembly(front, []), last);
      AddSegmentsAppend(Assembly([], []), LaceAll(front), Flatten(front), Lace(last), last);
      assert [] + last == last && front + [last] == packets;
    }
  }

  /** The lacing of a packet that is still open. */
  function OpenLace(partial: seq<byte>): seq<byte>
    decreases |partial|
  {
    if |partial| < 255 then [] else [255] + OpenLace(partial[255..])
  }

  /** A number of bytes that fills whole segments. */
  predicate Full(n: nat) {
    n == 0 || (n >= 255 && Full(n - 255))
  }

  lemma {:induction false} LaceSplit(partial: seq<byte>, s: seq<byte>)
    requires Full(|partial|) && |s| <= 255
    ensures |s| < 255 ==> Lace(partial + s) == OpenLace(partial) + [|s|]
    ensures |s| == 255 ==> OpenLace(partial + s) == OpenLace(partial) + [255]
    decreases |partial|
  {
    if |partial| < 255 {
      assert partial == [] && partial + s == s;
      if |s| == 255 { assert s[255..] == []; }
    } else {
      LaceSplit(partial[255..], s);
      assert (partial + s)[255..] == partial[255..] + s;
    }
  }

  /** The packets and the open rest are these bytes, laced so. */
  predicate Conserved(a: Assembly, lacing: seq<byte>, body: seq<byte>) {
    && Flatten(a.packets) + a.partial == body && LaceAll(a.packets) + OpenLace(a.partial) == lacing
    && Full(|a.partial|) && (a.partial != [] <==> lacing != [] && lacing[|lacing|-1] == 255)
  }

  lemma SegmentCloses(a: Assembly, lacing: seq<byte>, body: seq<byte>, s: seq<byte>)
    requires Conserved(a, lacing, body) && |s| < 255
    ensures Conserved(AddSegment(a, s), lacing + [|s|], body + s)
  {
    LaceSplit(a.partial, s);
    OnePacketMore(a.packets, a.partial + s);
    Regroup(Flatten(a.packets), a.partial, s);
    Regroup(LaceAll(a.packets), OpenLace(a.partial), [|s|]);
    Regroup(Flatten(a.packets + [a.partial + s]), [], []);
    Regroup(LaceAll(a.packets + [a.partial + s]), [], []);
  }

  lemma OnePacketMore(packets: seq<seq<byte>>, packet: seq<byte>)
    ensures Flatten(packets + [packet]) == Flatten(packets) + packet
    ensures LaceAll(packets + [packet]) == LaceAll(packets) + Lace(packet)
  {
    assert (packets + [packet])[..|packets|] == packets;
  }

  lemma Regroup(a: seq<byte>, b: seq<byte>, c: seq<byte>)
    ensures (a + b) + c == a + (b + c) && a + [] == a
  {
  }

  lemma SegmentContinues(a: Assembly, lacing: seq<byte>, body: seq<byte>, s: seq<byte>)
    requires Conserved(a, lacing, body) && |s| == 255
    ensures Conserved(AddSegment(a, s), lacing + [255], body + s)
  {
    LaceSplit(a.partial, s);
    Regroup(Flatten(a.packets), a.partial, s);
    Regroup(LaceAll(a.packets), OpenLace(a.partial), [255]);
  }

  /** Nothing is lost in reassembly: the packets and the open rest are the bodies, and they are laced
      as the pages are. */
  lemma {:induction false} ReassemblyConserves(lacing: seq<byte>, body: seq<byte>)
    requires |body| == Sum(lacing)
    ensures Conserved(AddSegments(Assembly([], []), lacing, body), lacing, body)
  {
    if lacing != [] {
      var front := lacing[..|lacing|-1];
      var before, s := body[..Sum(front)], body[Sum(front)..];
      ReassemblyConserves(front, before);
      BodyPrefix(Assembly([], []), front, body, Sum(front));
      var a := AddSegments(Assembly([], []), front, body);
      assert body[Sum(front)..Sum(lacing)] == s && before + s == body && front + [|s|] == lacing;
      assert AddSegments(Assembly([], []), lacing, body) == AddSegment(a, s);
      if |s| < 255 { SegmentCloses(a, front, before, s); } else { SegmentContinues(a, front, before, s); }
    }
  }

  /** Pages reassemble to these packets, with nothing left open, exactly when their lacing and bodies
      are those of the packets. */
  lemma AssembleIff(ps: seq<Page>, packets: seq<seq<byte>>)
    requires AllRepresentable(ps)
    ensures Assemble(ps) == Assembly(packets, []) <==> Lacings(ps) == LaceAll(packets) && Bodies(ps) == Flatten(packets)
    ensures Assemble(ps).partial != [] <==> Lacings(ps) != [] && Lacings(ps)[|Lacings(ps)|-1] == 255
  {
    PagesInOne(ps);
    LacedPackets(packets);
    ReassemblyConserves(Lacings(ps), Bodies(ps));
    var a := Assemble(ps);
    if a.partial == [] {
      assert Flatten(a.packets) + [] == Flatten(a.packets);
      assert LaceAll(a.packets) + [] == LaceAll(a.packets);
    }
  }

  // ----- Acceptance -----

  /** Page i as RFC 3533 has it written. */
  predicate WrittenPage(ps: seq<Page>, i: nat)
    requires i < |ps|
  {
    && ps[i].serial == ps[0].serial && ps[i].sequence == i
    && (Begins(ps[i]) <==> i == 0) && (Ends(ps[i]) <==> i == |ps| - 1)
    && (Continued(ps[i]) <==> Lacings(ps[..i]) != [] && Lacings(ps[..i])[|Lacings(ps[..i])|-1] == 255)
  }

  /** Bytes written as these pages, which carry these packets, within the size limits. */
  predicate WrittenAs(d: seq<byte>, ps: seq<Page>, packets: seq<seq<byte>>) {
    && AllRepresentable(ps) && d == EncodeAll(ps) && 0 < |d| <= MaxData
    && |ps| >= 2 && (forall i | 0 <= i < |ps| :: WrittenPage(ps, i))
    && Lacings(ps) == LaceAll(packets) && Bodies(ps) == Flatten(packets)
    && |packets| >= 3 && IsHead(packets[0]) && IsTags(packets[1])
    && (forall i | 0 <= i < |packets| :: |packets[i]| <= MaxPacket)
    && ps[|ps|-1].granule != 0xFFFF_FFFF_FFFF_FFFF && ps[|ps|-1].granule >= PreSkip(packets[0])
  }

  lemma PageInPlace(ps: seq<Page>, i: nat)
    requires AllRepresentable(ps) && i < |ps|
    ensures WrittenPage(ps, i) <==> InPlace(ps, i)
  {
    AssembleIff(ps[..i], []);
  }

  /** Every stream a writer makes within the limits is accepted, with its duration. */
  lemma WrittenIsAccepted(d: seq<byte>, ps: seq<Page>, packets: seq<seq<byte>>)
    requires WrittenAs(d, ps, packets)
    ensures Accepted(d)
    ensures Duration(PagesOf(d).value) == (ps[|ps|-1].granule - PreSkip(packets[0])) as real / 48000.0
  {
    PagesIff(d, ps);
    AssembleIff(ps, packets);
    forall i | 0 <= i < |ps| ensures InPlace(ps, i) { PageInPlace(ps, i); }
  }

  /** Whatever is accepted was written so, by pages and packets that are determined by the bytes. */
  lemma AcceptedIsWritten(d: seq<byte>) returns (ps: seq<Page>, packets: seq<seq<byte>>)
    requires Accepted(d)
    ensures WrittenAs(d, ps, packets)
    ensures forall qs, others | WrittenAs(d, qs, others) :: qs == ps && others == packets
    ensures Duration(PagesOf(d).value) >= 0.0
  {
    ps := PagesOf(d).value;
    packets := Assemble(ps).packets;
    PagesIff(d, ps);
    AssembleIff(ps, packets);
    forall i | 0 <= i < |ps| ensures WrittenPage(ps, i) {
      assert InPlace(ps, i);
      PageInPlace(ps, i);
    }
    forall qs, others | WrittenAs(d, qs, others) ensures qs == ps && others == packets {
      PagesIff(d, qs);
      AssembleIff(qs, others);
    }
  }

  // ----- Corruption -----

  /** Where two byte strings differ, it is within four consecutive bytes. */
  predicate Burst(d: seq<byte>, d': seq<byte>, n: nat) {
    |d'| == |d| && forall i | 0 <= i < |d| && d[i] != d'[i] :: n <= i < n + 4
  }

  lemma ZeroedDiffers(x: seq<byte>, y: seq<byte>, n: nat, j: nat)
    requires Burst(x, y, n) && |x| >= 27 && j < |x| && x[j] != y[j]
    requires forall i | 22 <= i < 26 :: x[i] == y[i]
    ensures Checksum(Zeroed(x)) != Checksum(Zeroed(y))
  {
    var z, z' := Zeroed(x), Zeroed(y);
    forall i | 0 <= i < |x| ensures z[i] != z'[i] <==> x[i] != y[i] {
      if 22 <= i < 26 { assert z[i] == 0 && z'[i] == 0; } else { assert z[i] == x[i] && z'[i] == y[i]; }
    }
    assert z[j] != z'[j];
    BurstDetected(z, z', n);
  }

  /** Pages with the same segment table have the same size and checksum field. */
  lemma SameTable(d: seq<byte>, d': seq<byte>)
    requires PageFits(d) && |d'| == |d| && forall i | 22 <= i < 27 + SegmentCount(d) :: d[i] == d'[i]
    ensures PageFits(d') ==> Size(Fields(d')) == Size(Fields(d))
    ensures d'[22..26] == d[22..26]
  {
    assert d[26] == d'[26];
    assert TableOf(d') == TableOf(d);
  }

  /** A burst that touches a page, but not its checksum, segment count or lacing, makes it unreadable. */
  lemma CorruptPage(d: seq<byte>, d': seq<byte>, p: Page, n: nat, j: nat)
    requires PageAt(d) == Some(p) && Burst(d, d', n) && j < Size(p) <= |d| && d[j] != d'[j]
    requires forall i | 22 <= i < 27 + |p.lacing| :: d[i] == d'[i]
    ensures PageAt(d').None?
  {
    SameTable(d, d');
    ZeroedDiffers(d[..Size(p)], d'[..Size(p)], n, j);
  }

  lemma {:induction false} SamePrefixReads<B(!new), P(!new)>(
    f: Format<B, P>, d: seq<B>, d': seq<B>, ps: seq<P>, offset: nat)
    requires Lawful(f) && ReadUpTo(f, d, ps, offset) && offset <= |d| && offset <= |d'| && d[..offset] == d'[..offset]
    ensures ReadUpTo(f, d', ps, offset)
    decreases |ps|
  {
    if ps != [] {
      var image := f.write(ps[0]);
      var size := |image|;
      assert d[..size] == image;
      assert d'[..size] == d'[..offset][..size] == d[..offset][..size] == image;
      assert d' == image + d'[size..];
      assert d[size..][..offset - size] == d[..offset][size..] == d'[size..][..offset - size];
      SamePrefixReads(f, d[size..], d'[size..], ps[1..], offset - size);
    }
  }

  lemma SamePagesRead(d: seq<byte>, d': seq<byte>, ps: seq<Page>, offset: nat)
    requires Consumed(d, ps, offset) && |d'| == |d| && d[..offset] == d'[..offset]
    ensures Consumed(d', ps, offset)
  {
    PageFormatIsLawful();
    SamePrefixReads(PageFormat, d, d', ps, offset);
  }

  lemma BurstTail(d: seq<byte>, d': seq<byte>, n: nat, offset: nat)
    requires Burst(d, d', n) && offset <= |d|
    ensures Burst(d[offset..], d'[offset..], if n >= offset then n - offset else 0)
  {
    forall i | 0 <= i < |d| - offset && d[offset..][i] != d'[offset..][i] ensures n <= offset + i < n + 4 {
      assert d[offset + i] != d'[offset + i];
    }
  }

  lemma CorruptTail(d: seq<byte>, d': seq<byte>, offset: nat, p: Page, n: nat, j: nat)
    requires offset < |d| && PageAt(d[offset..]) == Some(p) && Burst(d, d', n)
    requires offset <= j < offset + Size(p) <= |d| && d[j] != d'[j]
    requires forall i | offset + 22 <= i < offset + 27 + |p.lacing| :: d[i] == d'[i]
    ensures PageAt(d'[offset..]).None?
  {
    BurstTail(d, d', n, offset);
    CorruptPage(d[offset..], d'[offset..], p, if n >= offset then n - offset else 0, j - offset);
  }

  /** In an input that reads as pages, a burst that first touches the page at `offset`, outside its
      checksum, segment count and lacing, makes the input rejected. */
  lemma CorruptionIsRejected(d: seq<byte>, d': seq<byte>, ps: seq<Page>, offset: nat, p: Page, n: nat, j: nat)
    requires Consumed(d, ps, offset) && offset < |d| && PageAt(d[offset..]) == Some(p)
    requires Burst(d, d', n) && d[..offset] == d'[..offset]
    requires offset <= j < offset + Size(p) <= |d| && d[j] != d'[j]
    requires forall i | offset + 22 <= i < offset + 27 + |p.lacing| :: d[i] == d'[i]
    ensures !Accepted(d')
  {
    SamePagesRead(d, d', ps, offset);
    CorruptTail(d, d', offset, p, n, j);
    Unreadable(d', ps, offset);
  }
}
