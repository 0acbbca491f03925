/** Reading images laid end to end, for any format whose reader inverts its writer. */
module Images {
  import opened Common

  datatype Format<!B, !P> = Format(read: seq<B> -> Option<P>, write: P -> seq<B>, valid: P -> bool)

  /** What is read is a valid image at the head; every valid image is read, whatever follows it. */
  ghost predicate Lawful<B(!new), P(!new)>(f: Format<B, P>) {
    && (forall d :: f.read(d).Some? ==>
          var p := f.read(d).value; f.valid(p) && f.write(p) <= d && f.write(p) != [])
    && (forall p, rest :: f.valid(p) ==> f.read(f.write(p) + rest) == Some(p) && f.write(p) != [])
  }

  ghost predicate AllValid<B, P>(f: Format<B, P>, ps: seq<P>) {
    forall i | 0 <= i < |ps| :: f.valid(ps[i])
  }

  function WriteAll<B, P>(f: Format<B, P>, ps: seq<P>): seq<B> {
    if ps == [] then [] else f.write(ps[0]) + WriteAll(f, ps[1..])
  }

  /** All images from the head of d to its end. */
  function ReadAll<B, P>(f: Format<B, P>, d: seq<B>): Option<seq<P>>
    decreases |d|
  {
    if d == [] then Some([])
    else
      match f.read(d)
      case None => None
      case Some(p) =>
        if !(0 < |f.write(p)| <= |d|) then None
        else
          match ReadAll(f, d[|f.write(p)|..])
          case None => None
          case Some(rest) => Some([p] + rest)
  }

  lemma {:induction false} ReadIsWritten<B(!new), P(!new)>(f: Format<B, P>, d: seq<B>)
    requires Lawful(f) && ReadAll(f, d).Some?
    ensures AllValid(f, ReadAll(f, d).value) && d == WriteAll(f, ReadAll(f, d).value)
    decreases |d|
  {
    if d != [] {
      var p := f.read(d).value;
      var tail := d[|f.write(p)|..];
      ReadIsWritten(f, tail);
      var rest := ReadAll(f, tail).value;
      assert ([p] + rest)[1..] == rest;
      assert d == f.write(p) + tail;
    }
  }

  lemma {:induction false} WrittenIsRead<B(!new), P(!new)>(f: Format<B, P>, ps: seq<P>)
    requires Lawful(f) && AllValid(f, ps)
    ensures ReadAll(f, WriteAll(f, ps)) == Some(ps)
  {
    if ps != [] {
      var rest := WriteAll(f, ps[1..]);
      WrittenIsRead(f, ps[1..]);
      assert (f.write(ps[0]) + rest)[|f.write(ps[0])|..] == rest;
      assert ps == [ps[0]] + ps[1..];
    }
  }

  /** Bytes are read as these images exactly when writing these images gives the bytes. */
  lemma ReadIff<B(!new), P(!new)>(f: Format<B, P>, d: seq<B>, ps: seq<P>)
    requires Lawful(f)
    ensures ReadAll(f, d) == Some(ps) <==> AllValid(f, ps) && d == WriteAll(f, ps)
  {
    if ReadAll(f, d).Some? { ReadIsWritten(f, d); }
    if AllValid(f, ps) { WrittenIsRead(f, ps); }
  }

  /** The images ps were read, one after another, up to this offset. */
  ghost predicate ReadUpTo<B, P>(f: Format<B, P>, d: seq<B>, ps: seq<P>, offset: nat)
    decreases |ps|
  {
    if ps == [] then offset == 0
    else
      var size := |f.write(ps[0])|;
      && 0 < size <= offset <= |d| && f.read(d) == Some(ps[0])
      && ReadUpTo(f, d[size..], ps[1..], offset - size)
  }

  lemma {:induction false} ReadOneMore<B, P>(
    f: Format<B, P>, d: seq<B>, ps: seq<P>, offset: nat, p: P, size: nat)
    requires ReadUpTo(f, d, ps, offset) && offset + size <= |d|
    requires f.read(d[offset..]) == Some(p) && |f.write(p)| == size > 0
    ensures ReadUpTo(f, d, ps + [p], offset + size)
    decreases |ps|
  {
    if ps == [] {
      assert d[0..] == d;
      assert ([] + [p])[1..] == [];
    } else {
      var first := |f.write(ps[0])|;
      assert d[first..][offset - first..] == d[offset..];
      ReadOneMore(f, d[first..], ps[1..], offset - first, p, size);
      assert (ps + [p])[1..] == ps[1..] + [p];
    }
  }

  /** The whole reading is what was read so far and the reading of the rest. */
  lemma {:induction false} ReadRest<B, P>(f: Format<B, P>, d: seq<B>, ps: seq<P>, offset: nat)
    requires offset <= |d| && ReadUpTo(f, d, ps, offset)
    ensures ReadAll(f, d) == match ReadAll(f, d[offset..])
                             case None => None
                             case Some(rest) => Some(ps + rest)
    decreases |ps|
  {
    if ps == [] {
      assert d[0..] == d;
      if ReadAll(f, d).Some? { assert [] + ReadAll(f, d).value == ReadAll(f, d).value; }
    } else {
      var first := |f.write(ps[0])|;
      assert d[first..][offset - first..] == d[offset..];
      ReadRest(f, d[first..], ps[1..], offset - first);
      var tail := ReadAll(f, d[offset..]);
      if tail.Some? { assert [ps[0]] + (ps[1..] + tail.value) == ps + tail.value; }
    }
  }

  lemma StopReading<B, P>(f: Format<B, P>, d: seq<B>, ps: seq<P>)
    requires ReadUpTo(f, d, ps, |d|)
    ensures ReadAll(f, d) == Some(ps)
  {
    ReadRest(f, d, ps, |d|);
    assert d[|d|..] == [] && ps + [] == ps;
  }

  /** What was read so far begins every complete reading, and at the end of d is all of it. */
  lemma ReadPrefix<B, P>(f: Format<B, P>, d: seq<B>, ps: seq<P>, offset: nat)
    requires offset <= |d| && ReadUpTo(f, d, ps, offset) && ReadAll(f, d).Some?
    ensures ps <= ReadAll(f, d).value
    ensures offset < |d| ==> f.read(d[offset..]).Some? && |ps| < |ReadAll(f, d).value|
  {
    ReadRest(f, d, ps, offset);
  }
}
