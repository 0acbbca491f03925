/** opus_duration_seconds of app/channel/audio_duration.py, proved to accept exactly the complete Opus
    streams, with their duration. */
module OggParser {
  import opened Common
  import opened Crc
  import opened OggPages
  import opened OggStream
  import opened Images
  import opened OggRecording

  datatype InvalidOpus =
    | InvalidSize | InvalidPage | InvalidHeader | TruncatedLacing | TruncatedPage | InvalidChecksum | MissingBos
    | MultipleStreams | InvalidSequence | PacketTooLarge | MissingOpusHead | InvalidOpusHead | MissingOpusTags
    | InvalidEnd | IncompleteStream | InvalidGranule

  datatype Result<T> = Ok(value: T) | Err(error: InvalidOpus)

  /** One page image, up to and including its checksum. */
  method ReadPage(d: seq<byte>) returns (r: Result<Page>)
    ensures r.Ok? <==> PageAt(d).Some?
    ensures r.Ok? ==> PageAt(d) == Some(r.value)
    ensures r != Err(InvalidSize)
  {
    var fits := CheckSizes(d);
    if fits.Some? {
      return Err(fits.value);
    }
    var p := Fields(d);
    var page := d[..Size(p)];
    var crc := OggCrc(page[..22] + [0, 0, 0, 0] + page[26..]);
    if crc != LeValue(d[22..26]) {
      return Err(InvalidChecksum);
    }
    return Ok(p);
  }

  /** The header's constants, and whether table and body fit. */
  method CheckSizes(d: seq<byte>) returns (error: Option<InvalidOpus>)
    ensures error.None? <==> PageFits(d)
    ensures error != Some(InvalidSize)
  {
    if |d| < 27 {
      return Some(InvalidPage);
    }
    if d[..4] != Magic || d[4] != 0 || d[5] >= 8 {
      return Some(InvalidHeader);
    }
    var count: nat := d[26];
    if 27 + count > |d| {
      return Some(TruncatedLacing);
    }
    if 27 + count + Sum(d[27..27 + count]) > |d| {
      return Some(TruncatedPage);
    }
    return None;
  }

  /** The page at an offset up to which everything was read. */
  method FetchPage(data: seq<byte>, offset: nat, ghost ps: seq<Page>) returns (r: Result<Page>, end: nat)
    requires offset < |data| && Consumed(data, ps, offset)
    ensures r.Ok? ==> Representable(r.value) && end == offset + Size(r.value) && Consumed(data, ps + [r.value], end)
    ensures r.Err? ==> !Accepted(data)
    ensures r != Err(InvalidSize)
  {
    r := ReadPage(data[offset..]);
    end := offset;
    if r.Ok? {
      end := offset + Size(r.value);
      NextPage(data, ps, offset, r.value);
    } else {
      Unreadable(data, ps, offset);
    }
  }

  predicate Tracks(a: Assembly, packet: seq<byte>, packetCount: nat, preSkip: nat) {
    && Good(a) && packet == a.partial && packetCount == |a.packets|
    && (packetCount > 0 ==> preSkip == PreSkip(a.packets[0]))
  }

  /** One segment. */
  method ReadSegment(segment: seq<byte>, packet0: seq<byte>, packetCount0: nat, preSkip0: nat, ghost before: Assembly)
    returns (error: Option<InvalidOpus>, packet: seq<byte>, packetCount: nat, preSkip: nat)
    requires Tracks(before, packet0, packetCount0, preSkip0)
    ensures error.None? <==> Good(AddSegment(before, segment))
    ensures error != Some(InvalidSize)
    ensures error.None? ==> Tracks(AddSegment(before, segment), packet, packetCount, preSkip)
  {
    packet, packetCount, preSkip := packet0 + segment, packetCount0, preSkip0;
    ghost var after := AddSegment(before, segment);
    assert |segment| < 255 ==>
        after.packets[packetCount] == packet
        && forall i | 0 <= i < packetCount :: after.packets[i] == before.packets[i];
    if |packet| > MaxPacket {
      return Some(PacketTooLarge), packet, packetCount, preSkip;
    }
    if |segment| < 255 {
      if packetCount == 0 {
        if |packet| < 19 || packet[..8] != OpusHead {
          return Some(MissingOpusHead), packet, packetCount, preSkip;
        }
        if !(1 <= packet[8] <= 15) || packet[9] == 0 {
          return Some(InvalidOpusHead), packet, packetCount, preSkip;
        }
        preSkip := LeValue(packet[10..12]);
      } else if packetCount == 1 && (|packet| < 8 || packet[..8] != OpusTags) {
        return Some(MissingOpusTags), packet, packetCount, preSkip;
      }
      packetCount := packetCount + 1;
      packet := [];
    }
    error := None;
  }

  /** The segments of one page. */
  method ReadSegments(lacing: seq<byte>, body: seq<byte>, packet0: seq<byte>, packetCount0: nat, preSkip0: nat,
                      ghost before: Assembly)
    returns (error: Option<InvalidOpus>, packet: seq<byte>, packetCount: nat, preSkip: nat)
    requires |body| == Sum(lacing) && Tracks(before, packet0, packetCount0, preSkip0)
    ensures error.None? <==> Good(AddSegments(before, lacing, body))
    ensures error != Some(InvalidSize)
    ensures error.None? ==> Tracks(AddSegments(before, lacing, body), packet, packetCount, preSkip)
  {
    packet, packetCount, preSkip := packet0, packetCount0, preSkip0;
    var cursor := 0;
    for i := 0 to |lacing|
      invariant cursor == Sum(lacing[..i]) <= |body|
      invariant Tracks(AddSegments(before, lacing[..i], body), packet, packetCount, preSkip)
    {
      var size: nat := lacing[i];
      assert lacing[..i+1][..i] == lacing[..i];
      SumPrefix(lacing, i + 1);
      error, packet, packetCount, preSkip :=
        ReadSegment(body[cursor..cursor + size], packet, packetCount, preSkip, AddSegments(before, lacing[..i], body));
      cursor := cursor + size;
      if error.Some? {
        SegmentRejected(before, lacing, body, i + 1);
        return;
      }
    }
    assert lacing[..|lacing|] == lacing;
    error := None;
  }

  lemma {:induction false} SumPrefix(lacing: seq<byte>, n: nat)
    requires n <= |lacing|
    ensures Sum(lacing[..n]) <= Sum(lacing)
    decreases |lacing|
  {
    if n == |lacing| {
      assert lacing[..n] == lacing;
    } else {
      SumPrefix(lacing[..|lacing|-1], n);
      assert lacing[..|lacing|-1][..n] == lacing[..n];
    }
  }

  lemma SegmentRejected(a: Assembly, lacing: seq<byte>, body: seq<byte>, n: nat)
    requires |body| == Sum(lacing) && n <= |lacing| && Sum(lacing[..n]) <= |body|
    requires !Good(AddSegments(a, lacing[..n], body))
    ensures !Good(AddSegments(a, lacing, body))
  {
    if Good(AddSegments(a, lacing, body)) { GoodBeforeSegments(a, lacing, body, n); }
  }

  // ----- The page loop -----

  /** What the loop knows of page i of the pages read so far. */
  predicate Settled(ps: seq<Page>, i: nat)
    requires AllRepresentable(ps) && i < |ps|
  {
    && ps[i].serial == ps[0].serial && ps[i].sequence == i
    && (Begins(ps[i]) <==> i == 0) && (Ends(ps[i]) ==> 0 < i == |ps| - 1)
    && (Continued(ps[i]) <==> Assemble(ps[..i]).partial != [])
  }

  /** What acceptance would demand of the page just read. */
  predicate Fits(ps: seq<Page>, p: Page)
    requires AllRepresentable(ps) && Representable(p)
  {
    && (ps != [] ==> p.serial == ps[0].serial && !Ends(ps[|ps|-1]))
    && p.sequence == |ps| && (Begins(p) <==> ps == [])
    && (Continued(p) <==> Assemble(ps).partial != [])
    && (ps == [] ==> !Ends(p))
    && Good(Assemble(ps + [p]))
    && (Ends(p) ==> Assemble(ps + [p]).partial == [] && p.granule != 0xFFFF_FFFF_FFFF_FFFF)
  }

  /** The pages read so far begin the accepted stream. */
  lemma AcceptedPages(data: seq<byte>, ps: seq<Page>, offset: nat) returns (all: seq<Page>)
    requires AllRepresentable(ps) && Consumed(data, ps, offset) && Accepted(data)
    ensures AllRepresentable(all) && StreamOk(all) && ps <= all && Good(Assemble(ps))
    ensures offset < |data| ==> |ps| < |all|
  {
    all := PagesOf(data).value;
    ReadPrefix(PageFormat, data, ps, offset);
    GoodPrefix(all, |ps|);
    assert all[..|ps|] == ps;
  }

  lemma OnlyTheLastEnds(all: seq<Page>, n: nat)
    requires AllRepresentable(all) && StreamOk(all) && 0 < n < |all|
    ensures !Ends(all[n-1])
  {
    assert InPlace(all, n - 1);
  }

  lemma NothingFollowsTheEnd(data: seq<byte>, ps: seq<Page>, offset: nat)
    requires AllRepresentable(ps) && offset < |data| && Consumed(data, ps, offset)
    requires ps != [] && Ends(ps[|ps|-1])
    ensures !Accepted(data)
  {
    if Accepted(data) {
      var all := AcceptedPages(data, ps, offset);
      OnlyTheLastEnds(all, |ps|);
    }
  }

  lemma AcceptedFits(ps: seq<Page>, p: Page, all: seq<Page>)
    requires AllRepresentable(ps) && Representable(p) && AllRepresentable(all) && StreamOk(all)
    requires ps + [p] <= all && Good(Assemble(ps + [p]))
    ensures Fits(ps, p)
  {
    var n := |ps|;
    assert all[..n+1] == ps + [p] && all[n] == p && all[..n] == ps;
    assert InPlace(all, n);
    if n > 0 {
      OnlyTheLastEnds(all, n);
      assert all[n-1] == all[..n+1][n-1] && all[0] == all[..n+1][0];
    }
    if Ends(p) { assert all == all[..n+1]; }
  }

  /** A page that does not fit condemns the whole input. */
  lemma MisfitRejected(data: seq<byte>, ps: seq<Page>, p: Page, end: nat)
    requires AllRepresentable(ps) && Representable(p) && Consumed(data, ps + [p], end) && !Fits(ps, p)
    ensures !Accepted(data)
  {
    if Accepted(data) {
      var all := AcceptedPages(data, ps + [p], end);
      AcceptedFits(ps, p, all);
    }
  }

  lemma FitsSettles(ps: seq<Page>, p: Page)
    requires AllRepresentable(ps) && Representable(p) && Fits(ps, p)
    requires AllSettled(ps)
    ensures AllRepresentable(ps + [p]) && AllSettled(ps + [p])
  {
    var more := ps + [p];
    forall i | 0 <= i < |more| ensures Settled(more, i) {
      if i < |ps| {
        assert Settled(ps, i) && more[..i] == ps[..i];
      } else {
        assert more[..i] == ps;
      }
    }
  }

  predicate NotEnded(ps: seq<Page>) {
    ps != [] ==> !Ends(ps[|ps|-1])
  }

  /** The checks on one page and its segments. */
  method ReadPackets(p: Page, serial: Option<nat>, sequence: nat, packet0: seq<byte>, packetCount0: nat, preSkip0: nat,
                     ghost ps: seq<Page>)
    returns (error: Option<InvalidOpus>, packet: seq<byte>, packetCount: nat, preSkip: nat)
    requires AllRepresentable(ps) && Representable(p) && NotEnded(ps)
    requires Tracks(Assemble(ps), packet0, packetCount0, preSkip0)
    requires sequence == |ps| && serial == if ps == [] then None else Some(ps[0].serial)
    ensures error.None? <==> Fits(ps, p)
    ensures error != Some(InvalidSize)
    ensures error.None? ==> Tracks(Assemble(ps + [p]), packet, packetCount, preSkip)
  {
    packet, packetCount, preSkip := packet0, packetCount0, preSkip0;
    if serial.None? {
      if p.flags != 2 || p.sequence != 0 {
        return Some(MissingBos), packet, packetCount, preSkip;
      }
    } else if p.serial != serial.value || Begins(p) {
      return Some(MultipleStreams), packet, packetCount, preSkip;
    }
    if p.sequence != sequence || Continued(p) != (packet != []) {
      return Some(InvalidSequence), packet, packetCount, preSkip;
    }
    assert (ps + [p])[..|ps|] == ps;
    error, packet, packetCount, preSkip :=
      ReadSegments(p.lacing, p.body, packet, packetCount, preSkip, Assemble(ps));
    if error.None? && Ends(p) && (packet != [] || p.granule == 0xFFFF_FFFF_FFFF_FFFF) {
      error := Some(InvalidEnd);
    }
  }

  predicate AllSettled(ps: seq<Page>)
    requires AllRepresentable(ps)
  {
    forall i | 0 <= i < |ps| :: Settled(ps, i)
  }

  /** The variables of the page loop. */
  datatype Progress = Progress(
    offset: nat, serial: Option<nat>, sequence: nat, packet: seq<byte>, packetCount: nat, preSkip: nat,
    ended: bool, finalGranule: nat)

  /** What they say about the pages read so far. */
  ghost predicate Reading(ps: seq<Page>, v: Progress) {
    && AllRepresentable(ps) && (v.offset > 0 ==> ps != [])
    && AllSettled(ps) && Tracks(Assemble(ps), v.packet, v.packetCount, v.preSkip)
    && v.sequence == |ps| && v.serial == (if ps == [] then None else Some(ps[0].serial))
    && (v.ended <==> !NotEnded(ps))
    && (v.ended ==> v.packet == [] && v.finalGranule == ps[|ps|-1].granule != 0xFFFF_FFFF_FFFF_FFFF)
  }

  lemma ReadsOn(ps: seq<Page>, v: Progress, p: Page, v': Progress)
    requires Reading(ps, v) && !v.ended && Representable(p) && Fits(ps, p)
    requires Tracks(Assemble(ps + [p]), v'.packet, v'.packetCount, v'.preSkip)
    requires v'.offset == v.offset + Size(p) && v'.sequence == v.sequence + 1
    requires v'.serial == (if v.serial.None? then Some(p.serial) else v.serial)
    requires v'.ended == Ends(p) && (Ends(p) ==> v'.finalGranule == p.granule)
    ensures Reading(ps + [p], v')
  {
    FitsSettles(ps, p);
  }

  /** The loop variables after a page that fits. */
  method UsePage(p: Page, v: Progress, end: nat, ghost ps: seq<Page>) returns (r: Result<Progress>)
    requires Reading(ps, v) && !v.ended && Representable(p) && end == v.offset + Size(p)
    ensures r.Ok? <==> Fits(ps, p)
    ensures r.Ok? ==> Reading(ps + [p], r.value) && r.value.offset == end
    ensures r != Err(InvalidSize)
  {
    var error, packet, packetCount, preSkip :=
      ReadPackets(p, v.serial, v.sequence, v.packet, v.packetCount, v.preSkip, ps);
    if error.Some? {
      return Err(error.value);
    }
    var next := Progress(end, if v.serial.None? then Some(p.serial) else v.serial, v.sequence + 1,
                         packet, packetCount, preSkip, Ends(p), if Ends(p) then p.granule else v.finalGranule);
    ReadsOn(ps, v, p, next);
    return Ok(next);
  }

  /** At the end of the input, acceptance is what the last checks test. */
  lemma FinalChecks(data: seq<byte>, ps: seq<Page>, v: Progress)
    requires 0 < |data| <= MaxData && Consumed(data, ps, |data|) && Reading(ps, v) && v.offset == |data|
    ensures Accepted(data) <==> v.ended && v.packetCount >= 3 && v.finalGranule >= v.preSkip
    ensures Accepted(data) ==> Duration(PagesOf(data).value) == (v.finalGranule - v.preSkip) as real / 48000.0
  {
    AllConsumed(data, ps);
    assert Settled(ps, |ps| - 1);
    if StreamOk(ps) { assert InPlace(ps, |ps| - 1); }
    if v.ended {
      forall i | 0 <= i < |ps| ensures InPlace(ps, i) { assert Settled(ps, i); }
    }
  }

  /** The page loop. */
  method ReadStream(data: seq<byte>) returns (r: Result<Progress>, ghost ps: seq<Page>)
    ensures r.Ok? ==> Consumed(data, ps, |data|) && Reading(ps, r.value) && r.value.offset == |data|
    ensures r.Err? ==> !Accepted(data)
    ensures r != Err(InvalidSize)
  {
    var v := Progress(0, None, 0, [], 0, 0, false, 0);
    ps := [];
    while v.offset < |data|
      invariant Consumed(data, ps, v.offset) && Reading(ps, v)
      decreases |data| - v.offset
    {
      if v.ended {
        NothingFollowsTheEnd(data, ps, v.offset);
        return Err(InvalidPage), ps;
      }
      var read, end := FetchPage(data, v.offset, ps);
      if read.Err? {
        return Err(read.error), ps;
      }
      var next := UsePage(read.value, v, end, ps);
      if next.Err? {
        MisfitRejected(data, ps, read.value, end);
        return Err(next.error), ps;
      }
      ps := ps + [read.value];
      v := next.value;
    }
    r := Ok(v);
  }

  /** The value is the duration of the stream the bytes encode; there is one exactly when they encode a
      complete Opus stream, which is to say, when they are a recording that plays for so long. */
  method OpusDuration(data: seq<byte>) returns (r: Result<real>)
    ensures forall x: real :: r == Ok(x) <==> PlaysFor(data, x)
    ensures r.Ok? <==> Accepted(data)
    ensures r.Ok? ==> r.value == Duration(PagesOf(data).value)
    ensures r == Err(InvalidSize) <==> |data| == 0 || |data| > MaxData
  {
    forall x: real ensures PlaysFor(data, x) <==> Accepted(data) && Duration(PagesOf(data).value) == x {
      PlaysForIff(data, x);
    }
    if |data| == 0 || |data| > MaxData {
      return Err(InvalidSize);
    }
    var read, ps := ReadStream(data);
    if read.Err? {
      return Err(read.error);
    }
    var v := read.value;
    FinalChecks(data, ps, v);
    if !v.ended || v.packetCount < 3 {
      return Err(IncompleteStream);
    }
    if v.finalGranule < v.preSkip {
      return Err(InvalidGranule);
    }
    return Ok((v.finalGranule - v.preSkip) as real / 48000.0);
  }
}
