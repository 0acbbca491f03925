/** Ogg pages (RFC 3533, section 6): how a page is written, how app/channel/audio_duration.py reads
    one back, and that the two are inverse. */
module OggPages {
  import opened Common
  import opened Crc

  datatype Page = Page(flags: byte, granule: nat, serial: nat, sequence: nat, lacing: seq<byte>, body: seq<byte>)

  // ----- Little-endian fields -----

  function Le(n: nat, k: nat): (s: seq<byte>)
    ensures |s| == k
  {
    if k == 0 then [] else [n % 256] + Le(n / 256, k - 1)
  }

  function LeValue(s: seq<byte>): nat {
    if s == [] then 0 else s[0] as nat + 256 * LeValue(s[1..])
  }

  function Pow256(k: nat): nat {
    if k == 0 then 1 else 256 * Pow256(k - 1)
  }

  lemma {:induction false} LeRead(s: seq<byte>)
    ensures Le(LeValue(s), |s|) == s && LeValue(s) < Pow256(|s|)
  {
    if s != [] {
      LeRead(s[1..]);
      var v := LeValue(s[1..]);
      var b: int := s[0];
      assert (b + 256 * v) % 256 == b && (b + 256 * v) / 256 == v;
    }
  }

  lemma {:induction false} LeWritten(n: nat, k: nat)
    requires n < Pow256(k)
    ensures LeValue(Le(n, k)) == n
  {
    if k > 0 {
      LeWritten(n / 256, k - 1);
      assert Le(n, k)[1..] == Le(n / 256, k - 1);
    }
  }

  lemma Widths()
    ensures Pow256(4) == 0x1_0000_0000 && Pow256(8) == 0x1_0000_0000_0000_0000
  {
    assert Pow256(2) == 0x1_0000;
    assert Pow256(6) == 0x1_0000_0000_0000;
  }

  // ----- Writing -----

  function Sum(lacing: seq<byte>): nat {
    if lacing == [] then 0 else Sum(lacing[..|lacing|-1]) + lacing[|lacing|-1]
  }

  predicate Representable(p: Page) {
    && p.flags < 8 && p.granule < 0x1_0000_0000_0000_0000
    && p.serial < 0x1_0000_0000 && p.sequence < 0x1_0000_0000
    && |p.lacing| <= 255 && |p.body| == Sum(p.lacing)
  }

  const Magic: seq<byte> := [0x4F, 0x67, 0x67, 0x53]

  function Size(p: Page): nat {
    27 + |p.lacing| + |p.body|
  }

  /** The page with a given checksum field. */
  function Raw(p: Page, checksum: Register): (d: seq<byte>)
    requires Representable(p)
    ensures |d| == Size(p)
  {
    Magic + [0, p.flags] + Le(p.granule, 8) + Le(p.serial, 4) + Le(p.sequence, 4) + Le(checksum, 4)
    + [|p.lacing|] + p.lacing + p.body
  }

  /** The checksum covers the page with its checksum field zeroed. */
  function Encode(p: Page): (d: seq<byte>)
    requires Representable(p)
    ensures |d| == Size(p)
  {
    Raw(p, Checksum(Raw(p, 0)))
  }

  // ----- Reading -----

  function Zeroed(d: seq<byte>): seq<byte>
    requires |d| >= 27
  {
    d[..22] + [0, 0, 0, 0] + d[26..]
  }

  function SegmentCount(d: seq<byte>): nat
    requires |d| >= 27
  {
    d[26]
  }

  function TableOf(d: seq<byte>): seq<byte>
    requires |d| >= 27 && |d| >= 27 + SegmentCount(d)
  {
    d[27..27 + SegmentCount(d)]
  }

  /** The fields of the page that starts at the head of d, for a page that fits. */
  function Fields(d: seq<byte>): Page
    requires |d| >= 27 && |d| >= 27 + SegmentCount(d) && |d| >= 27 + SegmentCount(d) + Sum(TableOf(d))
  {
    var table := TableOf(d);
    Page(d[5], LeValue(d[6..14]), LeValue(d[14..18]), LeValue(d[18..22]), table,
         d[27 + |table|..27 + |table| + Sum(table)])
  }

  predicate HeaderOk(d: seq<byte>) {
    |d| >= 27 && d[..4] == Magic && d[4] == 0 && d[5] < 8
  }

  predicate PageFits(d: seq<byte>) {
    HeaderOk(d) && |d| >= 27 + SegmentCount(d) && |d| >= 27 + SegmentCount(d) + Sum(TableOf(d))
  }

  /** The page at the head of d, if the code accepts one there. */
  function PageAt(d: seq<byte>): Option<Page> {
    if PageFits(d) && Checksum(Zeroed(d[..Size(Fields(d))])) == LeValue(d[22..26]) then Some(Fields(d)) else None
  }

  /** Cutting a header into its fields. */
  lemma CutHeader(flags: byte, g: seq<byte>, s: seq<byte>, q: seq<byte>, c: seq<byte>, n: byte, tail: seq<byte>)
    requires |g| == 8 && |s| == |q| == |c| == 4
    ensures var d := Magic + [0, flags] + g + s + q + c + [n] + tail;
            && |d| == 27 + |tail| && d[..4] == Magic && d[4] == 0 && d[5] == flags
            && d[6..14] == g && d[14..18] == s && d[18..22] == q && d[22..26] == c && d[26] == n && d[27..] == tail
            && Zeroed(d) == Magic + [0, flags] + g + s + q + [0, 0, 0, 0] + [n] + tail
  {
  }

  lemma CutTail(lacing: seq<byte>, body: seq<byte>, rest: seq<byte>)
    ensures var t := lacing + body + rest; t[..|lacing|] == lacing && t[|lacing|..|lacing| + |body|] == body
  {
  }

  /** Cutting a page image into its fields. */
  lemma Cut(p: Page, c: Register, rest: seq<byte>)
    requires Representable(p)
    ensures var d := Raw(p, c) + rest;
            && HeaderOk(d) && d[5] == p.flags
            && d[6..14] == Le(p.granule, 8) && d[14..18] == Le(p.serial, 4) && d[18..22] == Le(p.sequence, 4)
            && d[22..26] == Le(c, 4) && SegmentCount(d) == |p.lacing|
            && TableOf(d) == p.lacing && d[27 + |p.lacing|..Size(p)] == p.body
            && d[..Size(p)] == Raw(p, c)
  {
    var d := Raw(p, c) + rest;
    var tail := p.lacing + p.body + rest;
    var g, s, q := Le(p.granule, 8), Le(p.serial, 4), Le(p.sequence, 4);
    assert d == Magic + [0, p.flags] + g + s + q + Le(c, 4) + [|p.lacing|] + tail;
    CutHeader(p.flags, g, s, q, Le(c, 4), |p.lacing|, tail);
    CutTail(p.lacing, p.body, rest);
    assert d[27..27 + |p.lacing|] == d[27..][..|p.lacing|];
    assert d[27 + |p.lacing|..Size(p)] == d[27..][|p.lacing|..|p.lacing| + |p.body|];
  }

  lemma ZeroedRaw(p: Page, c: Register)
    requires Representable(p)
    ensures Zeroed(Raw(p, c)) == Raw(p, 0)
  {
    var tail := p.lacing + p.body;
    var g, s, q := Le(p.granule, 8), Le(p.serial, 4), Le(p.sequence, 4);
    assert Raw(p, c) == Magic + [0, p.flags] + g + s + q + Le(c, 4) + [|p.lacing|] + tail;
    assert Raw(p, 0) == Magic + [0, p.flags] + g + s + q + Le(0, 4) + [|p.lacing|] + tail;
    CutHeader(p.flags, g, s, q, Le(c, 4), |p.lacing|, tail);
    ZeroField();
  }

  lemma ZeroField()
    ensures Le(0, 4) == [0, 0, 0, 0]
  {
    assert Le(0, 2) == [0, 0];
  }

  /** Writing a page and reading it back gives the page, whatever follows it. */
  lemma ReadsWhatIsWritten(p: Page, rest: seq<byte>)
    requires Representable(p)
    ensures PageAt(Encode(p) + rest) == Some(p)
  {
    var c := Checksum(Raw(p, 0));
    Cut(p, c, rest);
    ZeroedRaw(p, c);
    Widths();
    LeWritten(p.granule, 8);
    LeWritten(p.serial, 4);
    LeWritten(p.sequence, 4);
    LeWritten(c, 4);
  }

  lemma Join(d: seq<byte>, n: nat, m: nat)
    requires |d| >= 27 + n + m
    ensures d[..27 + n + m] == d[..4] + [d[4], d[5]] + d[6..14] + d[14..18] + d[18..22] + d[22..26] + [d[26]]
                               + d[27..27 + n] + d[27 + n..27 + n + m]
  {
  }

  /** The fields, put together again, are the image they were cut from. */
  lemma FieldsJoin(d: seq<byte>)
    requires PageFits(d)
    ensures LeValue(d[22..26]) < 0x1_0000_0000 && Representable(Fields(d))
    ensures d[..Size(Fields(d))] == Raw(Fields(d), LeValue(d[22..26]))
  {
    LeRead(d[6..14]); LeRead(d[14..18]); LeRead(d[18..22]); LeRead(d[22..26]);
    Widths();
    Join(d, SegmentCount(d), Sum(TableOf(d)));
  }

  /** Nothing else is read: an accepted page is exactly the image that writing it gives. */
  lemma WrittenIsWhatIsRead(d: seq<byte>)
    requires PageAt(d).Some?
    ensures var p := PageAt(d).value;
            Representable(p) && Size(p) <= |d| && d[..Size(p)] == Encode(p)
  {
    FieldsJoin(d);
    ZeroedRaw(Fields(d), LeValue(d[22..26]));
  }
}
