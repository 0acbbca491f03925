/** Voice notes byte by byte: a recording as RFC 3533 and RFC 7845 lay it out, with every constant and field
    written out, and that exactly the recordings are accepted, with their playing time. */
module OggRecording {
  import opened Common
  import opened Crc
  import opened OggPages
  import opened Images
  import opened OggStream
  import opened OggWriter

  function Bytes2(n: nat): seq<byte> {
    [n % 256, n / 256 % 256]
  }

  function Bytes4(n: nat): seq<byte> {
    [n % 256, n / 256 % 256, n / 65536 % 256, n / 16777216 % 256]
  }

  function Bytes8(n: nat): seq<byte> {
    Bytes4(n) + Bytes4(n / 4294967296)
  }

  // ----- The layout -----

  /** The identification header of RFC 7845, section 5.1; `rest` starts with the gain and the mapping family. */
  datatype Head = Head(version: byte, channels: byte, preSkip: nat, rate: nat, rest: seq<byte>)

  predicate LegalHead(h: Head) {
    1 <= h.version <= 15 && h.channels != 0 && h.preSkip < 65536 && h.rate < 4294967296 && |h.rest| >= 3
  }

  function HeadPacket(h: Head): seq<byte> {
    [0x4F, 0x70, 0x75, 0x73, 0x48, 0x65, 0x61, 0x64, h.version, h.channels] + Bytes2(h.preSkip) + Bytes4(h.rate)
    + h.rest
  }

  function TagsPacket(comments: seq<byte>): seq<byte> {
    [0x4F, 0x70, 0x75, 0x73, 0x54, 0x61, 0x67, 0x73] + comments
  }

  /** A page of RFC 3533, section 6, with a given checksum field. */
  function PageBytes(p: Page, checksum: Register): seq<byte> {
    [0x4F, 0x67, 0x67, 0x53, 0, p.flags] + Bytes8(p.granule) + Bytes4(p.serial) + Bytes4(p.sequence)
    + Bytes4(checksum) + (if |p.lacing| <= 255 then [|p.lacing|] else []) + p.lacing + p.body
  }

  function StreamBytes(ps: seq<Page>): seq<byte> {
    if ps == [] then [] else PageBytes(ps[0], Checksum(PageBytes(ps[0], 0))) + StreamBytes(ps[1..])
  }

  /** The packets of a recording: header, comments, and the audio. */
  function Packets(h: Head, comments: seq<byte>, audio: seq<seq<byte>>): seq<seq<byte>> {
    [HeadPacket(h), TagsPacket(comments)] + audio
  }

  /** Page i: one serial, numbered from 0; flag 1 when it continues a packet, 2 on the first page, 4 on the last. */
  predicate PagedRight(ps: seq<Page>, i: nat)
    requires i < |ps|
  {
    var before := Lacings(ps[..i]);
    && ps[i].serial == ps[0].serial < 4294967296 && ps[i].sequence == i && i < 4294967296
    && ps[i].granule <= 0xFFFF_FFFF_FFFF_FFFF && |ps[i].lacing| <= 255 && |ps[i].body| == Sum(ps[i].lacing)
    && ps[i].flags == (if before != [] && before[|before|-1] == 255 then 1 else 0) + (if i == 0 then 2 else 0)
                      + (if i == |ps| - 1 then 4 else 0)
  }

  /** A recording that ends at granule position g. */
  predicate Recording(d: seq<byte>, ps: seq<Page>, h: Head, comments: seq<byte>, audio: seq<seq<byte>>, g: nat) {
    var packets := Packets(h, comments, audio);
    && d == StreamBytes(ps) && 0 < |d| <= 16 * 1024 * 1024
    && LegalHead(h) && audio != [] && (forall i | 0 <= i < |packets| :: |packets[i]| <= 1024 * 1024)
    && |ps| >= 2 && (forall i | 0 <= i < |ps| :: PagedRight(ps, i))
    && Lacings(ps) == LaceAll(packets) && Bodies(ps) == Flatten(packets)
    && h.preSkip <= g < 0xFFFF_FFFF_FFFF_FFFF && ps[|ps|-1].granule == g
  }

  // ----- The layout is what the page and stream formats say -----

  lemma Le4Then(n: nat, k: nat)
    ensures Le(n, 4 + k) == Bytes4(n) + Le(n / 4294967296, k)
  {
    var a, b, c := n / 256, n / 65536, n / 16777216;
    assert n / 256 / 256 == b && b / 256 == c && c / 256 == n / 4294967296;
    assert Le(n, 4 + k) == [n % 256] + Le(a, 3 + k);
    assert Le(a, 3 + k) == [a % 256] + Le(b, 2 + k);
    assert Le(b, 2 + k) == [b % 256] + Le(c, 1 + k);
    assert Le(c, 1 + k) == [c % 256] + Le(n / 4294967296, k);
  }

  lemma LittleEndian(n: nat)
    ensures Le(n, 2) == Bytes2(n) && Le(n, 4) == Bytes4(n) && Le(n, 8) == Bytes8(n)
  {
    assert Le(n, 2) == [n % 256] + Le(n / 256, 1) && Le(n / 256, 1) == [n / 256 % 256] + Le(n / 256 / 256, 0);
    Le4Then(n, 0);
    Le4Then(n, 4);
    Le4Then(n / 4294967296, 0);
  }

  lemma PageBytesAreRaw(p: Page, c: Register)
    requires Representable(p)
    ensures PageBytes(p, c) == Raw(p, c)
  {
    LittleEndian(p.granule);
    LittleEndian(p.serial);
    LittleEndian(p.sequence);
    LittleEndian(c);
    assert [0x4F, 0x67, 0x67, 0x53, 0, p.flags] == Magic + [0, p.flags];
    var g, s, q, k := Bytes8(p.granule), Bytes4(p.serial), Bytes4(p.sequence), Bytes4(c);
    assert Raw(p, c) == Magic + [0, p.flags] + g + s + q + k + [|p.lacing|] + p.lacing + p.body;
  }

  lemma {:induction false} StreamBytesAreImages(ps: seq<Page>)
    requires AllRepresentable(ps)
    ensures StreamBytes(ps) == EncodeAll(ps)
  {
    if ps != [] {
      PageBytesAreRaw(ps[0], 0);
      PageBytesAreRaw(ps[0], Checksum(Raw(ps[0], 0)));
      StreamBytesAreImages(ps[1..]);
    }
  }

  /** The written header is one the reader takes, and it reads back the pre-skip that was written. */
  lemma HeadIsRead(h: Head)
    requires LegalHead(h)
    ensures IsHead(HeadPacket(h)) && PreSkip(HeadPacket(h)) == h.preSkip
  {
    var packet := HeadPacket(h);
    assert packet[..8] == OpusHead && packet[10..12] == Bytes2(h.preSkip);
    TwoBytes(packet[10..12]);
  }

  lemma TwoBytes(s: seq<byte>)
    requires |s| == 2
    ensures LeValue(s) == s[0] as nat + 256 * s[1] as nat
  {
    assert LeValue(s[1..]) == s[1] as nat + 256 * LeValue(s[1..][1..]);
  }

  /** Every header the reader takes is such a header. */
  lemma HeadOf(packet: seq<byte>) returns (h: Head)
    requires IsHead(packet)
    ensures LegalHead(h) && HeadPacket(h) == packet && h.preSkip == PreSkip(packet)
  {
    TwoBytes(packet[10..12]);
    var preSkip := packet[10] as nat + 256 * packet[11] as nat;
    var rate := FourBytesOf(packet[12..16]);
    h := Head(packet[8], packet[9], preSkip, rate, packet[16..]);
    assert Bytes2(preSkip) == packet[10..12];
    assert HeadPacket(h) == packet[..8] + [packet[8], packet[9]] + packet[10..12] + packet[12..16] + packet[16..];
  }

  lemma FourBytesOf(s: seq<byte>) returns (n: nat)
    requires |s| == 4
    ensures n == LeValue(s) < 4294967296 && Bytes4(n) == s
  {
    n := LeValue(s);
    LeRead(s);
    LittleEndian(n);
    Widths();
  }

  /** The flag bits of a page as the format names them. */
  lemma FlagBits(p: Page, continued: bool, first: bool, last: bool)
    requires p.flags < 8
    ensures p.flags == (if continued then 1 else 0) + (if first then 2 else 0) + (if last then 4 else 0) <==>
              (Continued(p) <==> continued) && (Begins(p) <==> first) && (Ends(p) <==> last)
  {
  }

  lemma PagesAgree(ps: seq<Page>, i: nat)
    requires i < |ps| && ps[0].serial < 4294967296
    ensures PagedRight(ps, i) <==> Representable(ps[i]) && WrittenPage(ps, i)
  {
    var before := Lacings(ps[..i]);
    if ps[i].flags < 8 {
      FlagBits(ps[i], before != [] && before[|before|-1] == 255, i == 0, i == |ps| - 1);
    }
  }

  // ----- The theorems -----

  lemma RecordingIsWritten(d: seq<byte>, ps: seq<Page>, h: Head, comments: seq<byte>, audio: seq<seq<byte>>, g: nat)
    requires Recording(d, ps, h, comments, audio, g)
    ensures WrittenAs(d, ps, Packets(h, comments, audio)) && PreSkip(Packets(h, comments, audio)[0]) == h.preSkip
  {
    var packets := Packets(h, comments, audio);
    HeadIsRead(h);
    assert packets[1][..8] == OpusTags;
    assert PagedRight(ps, 0);
    forall i | 0 <= i < |ps| ensures Representable(ps[i]) && WrittenPage(ps, i) { PagesAgree(ps, i); }
    StreamBytesAreImages(ps);
  }

  /** A recording is accepted, and plays from its pre-skip to its final granule position at 48 kHz. */
  lemma RecordingIsAccepted(d: seq<byte>, ps: seq<Page>, h: Head, comments: seq<byte>, audio: seq<seq<byte>>, g: nat)
    requires Recording(d, ps, h, comments, audio, g)
    ensures Accepted(d) && Duration(PagesOf(d).value) == (g - h.preSkip) as real / 48000.0
  {
    RecordingIsWritten(d, ps, h, comments, audio, g);
    WrittenIsAccepted(d, ps, Packets(h, comments, audio));
  }

  /** The fields of a header are those its bytes spell. */
  lemma HeadDetermined(h: Head, h': Head)
    requires LegalHead(h) && LegalHead(h') && HeadPacket(h) == HeadPacket(h')
    ensures h == h'
  {
    HeadIsRead(h);
    HeadIsRead(h');
    LittleEndian(h.rate);
    LittleEndian(h'.rate);
    Widths();
    LeWritten(h.rate, 4);
    LeWritten(h'.rate, 4);
    assert HeadPacket(h)[8] == h.version && HeadPacket(h')[8] == h'.version;
    assert HeadPacket(h)[9] == h.channels && HeadPacket(h')[9] == h'.channels;
    assert HeadPacket(h)[12..16] == Bytes4(h.rate) && HeadPacket(h')[12..16] == Bytes4(h'.rate);
    assert HeadPacket(h)[16..] == h.rest && HeadPacket(h')[16..] == h'.rest;
  }

  lemma PacketsOf(packets: seq<seq<byte>>) returns (h: Head, comments: seq<byte>, audio: seq<seq<byte>>)
    requires |packets| >= 3 && IsHead(packets[0]) && IsTags(packets[1])
    ensures LegalHead(h) && packets == Packets(h, comments, audio) && audio != [] && h.preSkip == PreSkip(packets[0])
  {
    h := HeadOf(packets[0]);
    comments, audio := packets[1][8..], packets[2..];
    assert TagsPacket(comments) == packets[1];
  }

  lemma PacketsDetermined(h: Head, comments: seq<byte>, audio: seq<seq<byte>>, h': Head, comments': seq<byte>,
                          audio': seq<seq<byte>>)
    requires LegalHead(h) && LegalHead(h') && Packets(h, comments, audio) == Packets(h', comments', audio')
    ensures h == h' && comments == comments' && audio == audio'
  {
    var packets, packets' := Packets(h, comments, audio), Packets(h', comments', audio');
    assert packets[0] == packets'[0] && packets[1] == packets'[1] && packets[2..] == packets'[2..];
    HeadDetermined(h, h');
    assert TagsPacket(comments)[8..] == comments && TagsPacket(comments')[8..] == comments';
  }

  lemma WrittenIsRecording(d: seq<byte>, ps: seq<Page>, packets: seq<seq<byte>>)
    returns (h: Head, comments: seq<byte>, audio: seq<seq<byte>>)
    requires WrittenAs(d, ps, packets)
    ensures packets == Packets(h, comments, audio)
    ensures Recording(d, ps, h, comments, audio, ps[|ps|-1].granule)
  {
    h, comments, audio := PacketsOf(packets);
    forall i | 0 <= i < |ps| ensures PagedRight(ps, i) { PagesAgree(ps, i); }
    StreamBytesAreImages(ps);
  }

  lemma RecordingDetermined(
    d: seq<byte>, ps: seq<Page>, h: Head, comments: seq<byte>, audio: seq<seq<byte>>, g: nat,
    ps': seq<Page>, h': Head, comments': seq<byte>, audio': seq<seq<byte>>, g': nat)
    requires Recording(d, ps, h, comments, audio, g) && Recording(d, ps', h', comments', audio', g')
    ensures ps' == ps && h' == h && comments' == comments && audio' == audio && g' == g
  {
    RecordingIsWritten(d, ps, h, comments, audio, g);
    RecordingIsWritten(d, ps', h', comments', audio', g');
    WrittenOnce(d, ps, Packets(h, comments, audio), ps', Packets(h', comments', audio'));
    PacketsDetermined(h, comments, audio, h', comments', audio');
  }

  lemma WrittenOnce(d: seq<byte>, ps: seq<Page>, packets: seq<seq<byte>>, ps': seq<Page>, packets': seq<seq<byte>>)
    requires WrittenAs(d, ps, packets) && WrittenAs(d, ps', packets')
    ensures ps' == ps && packets' == packets
  {
    WrittenIsAccepted(d, ps, packets);
    var qs, others := AcceptedIsWritten(d);
  }

  /** Nothing else is accepted: accepted bytes are a recording, and they determine all of it. */
  lemma AcceptedIsRecording(d: seq<byte>)
    returns (ps: seq<Page>, h: Head, comments: seq<byte>, audio: seq<seq<byte>>, g: nat)
    requires Accepted(d)
    ensures Recording(d, ps, h, comments, audio, g)
    ensures forall ps', h', comments', audio', g' | Recording(d, ps', h', comments', audio', g') ::
              ps' == ps && h' == h && comments' == comments && audio' == audio && g' == g
  {
    var packets;
    ps, packets := AcceptedIsWritten(d);
    h, comments, audio := WrittenIsRecording(d, ps, packets);
    g := ps[|ps|-1].granule;
    forall ps', h', comments', audio', g' | Recording(d, ps', h', comments', audio', g')
      ensures ps' == ps && h' == h && comments' == comments && audio' == audio && g' == g
    {
      RecordingDetermined(d, ps, h, comments, audio, g, ps', h', comments', audio', g');
    }
  }

  /** The bytes are a recording that plays for so many seconds. */
  ghost predicate PlaysFor(d: seq<byte>, seconds: real) {
    exists ps, h, comments, audio, g :: Recording(d, ps, h, comments, audio, g) && seconds == Playing(h, g)
  }

  function Playing(h: Head, g: nat): real {
    (g - h.preSkip) as real / 48000.0
  }

  lemma PlaysForIff(d: seq<byte>, seconds: real)
    ensures PlaysFor(d, seconds) <==> Accepted(d) && Duration(PagesOf(d).value) == seconds
  {
    if Accepted(d) {
      var ps, h, comments, audio, g := AcceptedIsRecording(d);
      RecordingIsAccepted(d, ps, h, comments, audio, g);
      assert PlaysFor(d, Playing(h, g));
    }
    if PlaysFor(d, seconds) {
      var ps, h, comments, audio, g :| Recording(d, ps, h, comments, audio, g) && seconds == Playing(h, g);
      RecordingIsAccepted(d, ps, h, comments, audio, g);
    }
  }
}
