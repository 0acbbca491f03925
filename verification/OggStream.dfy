/** Ogg streams: pages one after another, their lacing reassembled into packets (RFC 3533, section 5),
    and what makes such a stream a complete Opus stream for app/channel/audio_duration.py
    (RFC 7845, sections 4.3 and 5.1). */
module OggStream {
  import opened Common
  import opened Crc
  import opened OggPages
  import opened Images

  // ----- Pages of a stream -----

  function Image(p: Page): seq<byte> {
    if Representable(p) then Encode(p) else []
  }

  const PageFormat: Format<byte, Page> := Format(PageAt, Image, Representable)

  /** The page reader inverts the page writer. */
  lemma PageFormatIsLawful()
    ensures Lawful(PageFormat)
  {
    forall d | PageAt(d).Some?
      ensures var p := PageAt(d).value; Representable(p) && Image(p) <= d && Image(p) != []
    {
      WrittenIsWhatIsRead(d);
    }
    forall p: Page, rest | Representable(p)
      ensures PageAt(Image(p) + rest) == Some(p) && Image(p) != []
    {
      ReadsWhatIsWritten(p, rest);
    }
  }

  predicate AllRepresentable(ps: seq<Page>) {
    forall i | 0 <= i < |ps| :: Representable(ps[i])
  }

  function EncodeAll(ps: seq<Page>): seq<byte> {
    WriteAll(PageFormat, ps)
  }

  /** All pages from the head of d to its end. */
  function PagesOf(d: seq<byte>): (pages: Option<seq<Page>>)
    ensures pages.Some? ==> AllRepresentable(pages.value)
  {
    PageFormatIsLawful();
    if ReadAll(PageFormat, d).Some? then ReadIsWritten(PageFormat, d); ReadAll(PageFormat, d) else None
  }

  /** A byte string is read as these pages exactly when writing these pages gives it. */
  lemma PagesIff(d: seq<byte>, ps: seq<Page>)
    ensures PagesOf(d) == Some(ps) <==> AllRepresentable(ps) && d == EncodeAll(ps)
  {
    PageFormatIsLawful();
    ReadIff(PageFormat, d, ps);
  }

  /** ps was read up to this offset. */
  ghost predicate Consumed(data: seq<byte>, ps: seq<Page>, offset: nat) {
    offset <= |data| && ReadUpTo(PageFormat, data, ps, offset)
  }

  lemma NextPage(data: seq<byte>, ps: seq<Page>, offset: nat, p: Page)
    requires offset < |data| && Consumed(data, ps, offset) && PageAt(data[offset..]) == Some(p)
    ensures Representable(p) && Consumed(data, ps + [p], offset + Size(p))
  {
    WrittenIsWhatIsRead(data[offset..]);
    ReadOneMore(PageFormat, data, ps, offset, p, Size(p));
  }

  lemma AllConsumed(data: seq<byte>, ps: seq<Page>)
    requires Consumed(data, ps, |data|)
    ensures PagesOf(data) == Some(ps)
  {
    StopReading(PageFormat, data, ps);
  }

  lemma Unreadable(data: seq<byte>, ps: seq<Page>, offset: nat)
    requires offset < |data| && Consumed(data, ps, offset) && PageAt(data[offset..]).None?
    ensures PagesOf(data).None?
  {
    if ReadAll(PageFormat, data).Some? { ReadPrefix(PageFormat, data, ps, offset); }
  }

  // ----- Packets -----

  /** Complete packets so far, and the beginning of the next one. */
  datatype Assembly = Assembly(packets: seq<seq<byte>>, partial: seq<byte>)

  function AddSegment(a: Assembly, s: seq<byte>): Assembly {
    if |s| < 255 then Assembly(a.packets + [a.partial + s], []) else Assembly(a.packets, a.partial + s)
  }

  function AddSegments(a: Assembly, lacing: seq<byte>, body: seq<byte>): Assembly
    requires |body| >= Sum(lacing)
  {
    if lacing == [] then a
    else
      var front := lacing[..|lacing|-1];
      AddSegment(AddSegments(a, front, body), body[Sum(front)..Sum(lacing)])
  }

  function Assemble(ps: seq<Page>): Assembly
    requires AllRepresentable(ps)
  {
    if ps == [] then Assembly([], [])
    else AddSegments(Assemble(ps[..|ps|-1]), ps[|ps|-1].lacing, ps[|ps|-1].body)
  }

  // ----- The stream -----

  const MaxPacket: nat := 1048576
  const MaxData: nat := 16777216

  function Continued(p: Page): bool { p.flags % 2 == 1 }
  function Begins(p: Page): bool { p.flags / 2 % 2 == 1 }
  function Ends(p: Page): bool { p.flags / 4 % 2 == 1 }

  const OpusHead: seq<byte> := [0x4F, 0x70, 0x75, 0x73, 0x48, 0x65, 0x61, 0x64]
  const OpusTags: seq<byte> := [0x4F, 0x70, 0x75, 0x73, 0x54, 0x61, 0x67, 0x73]

  predicate IsHead(packet: seq<byte>) {
    |packet| >= 19 && packet[..8] == OpusHead && 1 <= packet[8] <= 15 && packet[9] != 0
  }

  predicate IsTags(packet: seq<byte>) {
    |packet| >= 8 && packet[..8] == OpusTags
  }

  function PreSkip(head: seq<byte>): nat
    requires |head| >= 19
  {
    LeValue(head[10..12])
  }

  /** Page i of a stream: one serial, numbered from 0, the beginning flagged on the first page only and
      the end on the last only, and flagged as continued exactly when a packet is unfinished. */
  predicate InPlace(ps: seq<Page>, i: nat)
    requires AllRepresentable(ps) && i < |ps|
  {
    && ps[i].serial == ps[0].serial && ps[i].sequence == i
    && (Begins(ps[i]) <==> i == 0) && (Ends(ps[i]) <==> i == |ps| - 1)
    && (Continued(ps[i]) <==> Assemble(ps[..i]).partial != [])
  }

  /** Packets that may still grow into an accepted stream. */
  predicate Good(a: Assembly) {
    && (|a.packets| > 0 ==> IsHead(a.packets[0])) && (|a.packets| > 1 ==> IsTags(a.packets[1]))
    && |a.partial| <= MaxPacket && forall i | 0 <= i < |a.packets| :: |a.packets[i]| <= MaxPacket
  }

  /** A complete Opus stream on at least two pages: OpusHead, OpusTags and at least one more packet, all
      complete, and a final granule position no smaller than the pre-skip. */
  predicate StreamOk(ps: seq<Page>)
    requires AllRepresentable(ps)
  {
    var a := Assemble(ps);
    && |ps| >= 2 && (forall i | 0 <= i < |ps| :: InPlace(ps, i))
    && a.partial == [] && |a.packets| >= 3 && Good(a)
    && ps[|ps|-1].granule != 0xFFFF_FFFF_FFFF_FFFF && ps[|ps|-1].granule >= PreSkip(a.packets[0])
  }

  /** Seconds at 48 kHz. */
  function Duration(ps: seq<Page>): real
    requires AllRepresentable(ps) && StreamOk(ps)
  {
    (ps[|ps|-1].granule - PreSkip(Assemble(ps).packets[0])) as real / 48000.0
  }

  predicate Accepted(d: seq<byte>) {
    && 0 < |d| <= MaxData && PagesOf(d).Some?
    && StreamOk(PagesOf(d).value)
  }

  // ----- Prefixes -----

  /** Once packets cannot belong to an accepted stream, no further segment repairs them. */
  lemma GoodBefore(a: Assembly, s: seq<byte>)
    requires Good(AddSegment(a, s))
    ensures Good(a)
  {
    var b := AddSegment(a, s);
    if |s| < 255 { assert b.packets[|a.packets|] == a.partial + s; }
    assert forall i | 0 <= i < |a.packets| :: b.packets[i] == a.packets[i];
  }

  lemma {:induction false} GoodBeforeSegments(a: Assembly, lacing: seq<byte>, body: seq<byte>, n: nat)
    requires |body| >= Sum(lacing) && n <= |lacing|
    requires Good(AddSegments(a, lacing, body))
    ensures Sum(lacing[..n]) <= Sum(lacing) && Good(AddSegments(a, lacing[..n], body))
    decreases |lacing|
  {
    if n == |lacing| {
      assert lacing[..n] == lacing;
    } else {
      var front := lacing[..|lacing|-1];
      GoodBefore(AddSegments(a, front, body), body[Sum(front)..Sum(lacing)]);
      GoodBeforeSegments(a, front, body, n);
      assert front[..n] == lacing[..n];
    }
  }

  lemma {:induction false} GoodPrefix(ps: seq<Page>, n: nat)
    requires AllRepresentable(ps) && n <= |ps| && Good(Assemble(ps))
    ensures Good(Assemble(ps[..n]))
    decreases |ps|
  {
    if n == |ps| {
      assert ps[..n] == ps;
    } else {
      var last := ps[|ps|-1];
      GoodBeforeSegments(Assemble(ps[..|ps|-1]), last.lacing, last.body, 0);
      assert last.lacing[..0] == [];
      GoodPrefix(ps[..|ps|-1], n);
      assert ps[..|ps|-1][..n] == ps[..n];
    }
  }
}
