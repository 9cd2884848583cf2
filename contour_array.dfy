/**
 * The `seabee3_msgs/ContourArray` message and its ROS 1 wire format: every
 * array and string carries a little-endian uint32 length prefix, and each
 * `Point2D` is two 4-byte little-endian float32 words, kept here as their raw
 * 32-bit patterns.
 */
module ContourArrayMsg {
  import opened Wrappers

  type Byte = b: int | 0 <= b < 256

  const Uint32Limit := 0x1_0000_0000

  /** A 32-bit word: a uint32 length or the bit pattern of a float32. */
  type Word = w: int | 0 <= w < 0x1_0000_0000

  datatype Point2D = Point2D(x: Word, y: Word)
  datatype Contour = Contour(name: seq<Byte>, points: seq<Point2D>)

  datatype SerializationError = LengthDoesNotFitUint32
  datatype DeserializationError = BufferUnderfill

  // ---------------------------------------------------------------------
  // Little-endian uint32 words.
  // ---------------------------------------------------------------------

  /** `struct.unpack('<I', b)`. */
  function UnpackU32(b: seq<Byte>): Word
    requires |b| == 4
  {
    b[0] as int + 256 * (b[1] as int + 256 * (b[2] as int + 256 * b[3] as int))
  }

  /** The word is little-endian: byte i is digit i of the value in base 256. */
  lemma UnpackLittleEndian(b: seq<Byte>)
    requires |b| == 4
    ensures var n := UnpackU32(b);
      && n % 256 == b[0] && (n / 256) % 256 == b[1]
      && (n / 0x1_0000) % 256 == b[2] && n / 0x100_0000 == b[3]
  {
  }

  /** `struct.pack('<I', n)`; unpacking its bytes gives `n` back. */
  function PackU32(n: Word): (b: seq<Byte>)
    ensures |b| == 4 && UnpackU32(b) == n
  {
    var q1 := n / 256;
    var q2 := q1 / 256;
    assert q2 / 256 < 256;
    [n % 256, q1 % 256, q2 % 256, q2 / 256]
  }

  /** Packing the value of four bytes reproduces the bytes. */
  lemma PackUnpackU32(b: seq<Byte>)
    requires |b| == 4
    ensures PackU32(UnpackU32(b)) == b
  {
    var q2 := b[2] as int + 256 * b[3] as int;
    var q1 := b[1] as int + 256 * q2;
    var n := b[0] as int + 256 * q1;
    assert n == UnpackU32(b);
    assert n / 256 == q1 && n % 256 == b[0];
    assert q1 / 256 == q2 && q1 % 256 == b[1];
    assert q2 / 256 == b[3] && q2 % 256 == b[2];
  }

  // ---------------------------------------------------------------------
  // The encoder, as a specification.
  // ---------------------------------------------------------------------

  /** Every length in the contour fits a uint32 prefix. */
  predicate ContourFits(c: Contour)
  {
    |c.name| < Uint32Limit && |c.points| < Uint32Limit
  }

  predicate AllContoursFit(cs: seq<Contour>)
  {
    forall i :: 0 <= i < |cs| ==> ContourFits(cs[i])
  }

  /** Every length in the message fits a uint32 prefix. */
  predicate Fits(cs: seq<Contour>)
  {
    |cs| < Uint32Limit && AllContoursFit(cs)
  }

  function EncodePoint(p: Point2D): seq<Byte>
  {
    PackU32(p.x) + PackU32(p.y)
  }

  function EncodePoints(ps: seq<Point2D>): (b: seq<Byte>)
    ensures |b| == 8 * |ps|
  {
    if ps == [] then [] else EncodePoint(ps[0]) + EncodePoints(ps[1..])
  }

  /** One contour: its name's length word and bytes, then its point count word and points. */
  function EncodeContour(c: Contour): (r: seq<Byte>)
    requires ContourFits(c)
    ensures |r| == 4 + |c.name| + 4 + 8 * |c.points|
    ensures UnpackU32(r[..4]) == |c.name| && r[4..4 + |c.name|] == c.name
    ensures UnpackU32(r[4 + |c.name|..8 + |c.name|]) == |c.points|
  {
    PackU32(|c.name|) + c.name + PackU32(|c.points|) + EncodePoints(c.points)
  }

  /** The contours one after another; only the empty list encodes to no bytes. */
  function EncodeContours(cs: seq<Contour>): (r: seq<Byte>)
    requires AllContoursFit(cs)
    ensures r == [] <==> cs == []
  {
    if cs == [] then [] else EncodeContour(cs[0]) + EncodeContours(cs[1..])
  }

  /** The bytes `serialize` writes for a message whose lengths all fit. */
  function Encode(cs: seq<Contour>): (r: seq<Byte>)
    requires Fits(cs)
    ensures 4 <= |r| && UnpackU32(r[..4]) == |cs|
    ensures |r| == 4 <==> cs == []
  {
    PackU32(|cs|) + EncodeContours(cs)
  }

  lemma {:induction false} EncodePointsAppend(ps: seq<Point2D>, qs: seq<Point2D>)
    ensures EncodePoints(ps + qs) == EncodePoints(ps) + EncodePoints(qs)
  {
    if ps == [] {
      assert ps + qs == qs;
    } else {
      assert (ps + qs)[1..] == ps[1..] + qs;
      EncodePointsAppend(ps[1..], qs);
    }
  }

  lemma {:induction false} EncodeContoursAppend(cs: seq<Contour>, ds: seq<Contour>)
    requires AllContoursFit(cs) && AllContoursFit(ds)
    ensures AllContoursFit(cs + ds)
    ensures EncodeContours(cs + ds) == EncodeContours(cs) + EncodeContours(ds)
  {
    assert forall i :: 0 <= i < |cs + ds| ==> (cs + ds)[i] == if i < |cs| then cs[i] else ds[i - |cs|];
    if cs == [] {
      assert cs + ds == ds;
    } else {
      assert (cs + ds)[1..] == cs[1..] + ds;
      EncodeContoursAppend(cs[1..], ds);
    }
  }

  // ---------------------------------------------------------------------
  // Serialized length.
  // ---------------------------------------------------------------------

  /** Bytes one contour occupies: name length, name, point count, 8 per point. */
  function ContourSize(c: Contour): nat
  {
    4 + |c.name| + 4 + 8 * |c.points|
  }

  function ContoursSize(cs: seq<Contour>): nat
  {
    if cs == [] then 0 else ContourSize(cs[0]) + ContoursSize(cs[1..])
  }

  /** The serialized length is 4 plus the sum of the contour sizes. */
  lemma {:induction false} EncodeLength(cs: seq<Contour>)
    requires Fits(cs)
    ensures |Encode(cs)| == 4 + ContoursSize(cs)
  {
    EncodeContoursLength(cs);
  }

  lemma {:induction false} EncodeContoursLength(cs: seq<Contour>)
    requires AllContoursFit(cs)
    ensures |EncodeContours(cs)| == ContoursSize(cs)
  {
    if cs != [] {
      EncodeContoursLength(cs[1..]);
    }
  }

  // ---------------------------------------------------------------------
  // The decoder, as a specification. Each decoder takes the bytes not yet
  // read and returns what it decoded together with the bytes after it.
  // ---------------------------------------------------------------------

  /** `str[a:b]` for `0 <= a <= b`: Python clamps both bounds to the length. */
  function PySlice(s: seq<Byte>, a: nat, b: nat): (r: seq<Byte>)
    requires a <= b
    ensures b <= |s| ==> r == s[a..b]
    ensures |r| == (if b <= |s| then b - a else if a <= |s| then |s| - a else 0)
  {
    if b <= |s| then s[a..b] else if a <= |s| then s[a..] else []
  }

  /** `n` points read from the front of `s`; None on underfill. */
  function DecodePoints(s: seq<Byte>, n: nat): (r: Option<(seq<Point2D>, seq<Byte>)>)
    ensures r.None? <==> |s| < 8 * n
    ensures r.Some? ==> |r.value.0| == n && |r.value.1| == |s| - 8 * n
    decreases n
  {
    if n == 0 then Some(([], s))
    else if |s| < 8 then None
    else
      var p := Point2D(UnpackU32(s[..4]), UnpackU32(s[4..8]));
      match DecodePoints(s[8..], n - 1)
      case None => None
      case Some(more) => Some(([p] + more.0, more.1))
  }

  /** One contour read from the front of `s`; None on underfill. */
  function DecodeContour(s: seq<Byte>): (r: Option<(Contour, seq<Byte>)>)
    ensures |s| < 8 ==> r.None?
    ensures r.Some? ==> |r.value.1| == |s| - ContourSize(r.value.0)
  {
    if |s| < 4 then None
    else
      var nameLength := UnpackU32(s[..4]);
      var afterLength := s[4..];
      if |afterLength| < nameLength + 4 then None
      else
        var afterName := afterLength[nameLength..];
        match DecodePoints(afterName[4..], UnpackU32(afterName[..4]))
        case None => None
        case Some(ps) => Some((Contour(afterLength[..nameLength], ps.0), ps.1))
  }

  /**
   * Decoding `n` contours: the contours completed before any underfill, the
   * bytes after the last one completed, and whether all `n` were completed.
   */
  datatype Partial = Partial(contours: seq<Contour>, rest: seq<Byte>, complete: bool)

  function DecodeContours(s: seq<Byte>, n: nat): (r: Partial)
    ensures r.complete ==> |r.contours| == n
    ensures !r.complete ==> |r.contours| < n
    ensures |r.rest| <= |s|
    decreases n
  {
    if n == 0 then Partial([], s, true)
    else
      match DecodeContour(s)
      case None => Partial([], s, false)
      case Some(first) =>
        var more := DecodeContours(first.1, n - 1);
        Partial([first.0] + more.contours, more.rest, more.complete)
  }

  /** What `deserialize` yields: the contours, or the underfill error. */
  function Decode(s: seq<Byte>): (r: Result<seq<Contour>, DeserializationError>)
    ensures |s| < 4 ==> r == Failure(BufferUnderfill)
    ensures r.Success? ==> |r.value| == UnpackU32(s[..4])
  {
    if |s| < 4 then Failure(BufferUnderfill)
    else
      var r := DecodeContours(s[4..], UnpackU32(s[..4]));
      if r.complete then Success(r.contours) else Failure(BufferUnderfill)
  }

  // ---------------------------------------------------------------------
  // Decoding what was encoded.
  // ---------------------------------------------------------------------

  lemma {:induction false} DecodeEncodedPoints(ps: seq<Point2D>, rest: seq<Byte>)
    ensures DecodePoints(EncodePoints(ps) + rest, |ps|) == Some((ps, rest))
    decreases |ps|
  {
    if ps != [] {
      var s := EncodePoints(ps) + rest;
      assert s == PackU32(ps[0].x) + PackU32(ps[0].y) + (EncodePoints(ps[1..]) + rest);
      assert s[..4] == PackU32(ps[0].x);
      assert s[4..8] == PackU32(ps[0].y);
      assert s[8..] == EncodePoints(ps[1..]) + rest;
      DecodeEncodedPoints(ps[1..], rest);
      assert DecodePoints(s[8..], |ps| - 1) == Some((ps[1..], rest));
      assert Point2D(UnpackU32(s[..4]), UnpackU32(s[4..8])) == ps[0];
      assert [ps[0]] + ps[1..] == ps;
      assert DecodePoints(s, |ps|) == Some(([ps[0]] + ps[1..], rest));
    } else {
      assert EncodePoints(ps) + rest == rest;
    }
  }

  lemma DecodeEncodedContour(c: Contour, rest: seq<Byte>)
    requires ContourFits(c)
    ensures DecodeContour(EncodeContour(c) + rest) == Some((c, rest))
  {
    var s := EncodeContour(c) + rest;
    var pointsPart := EncodePoints(c.points) + rest;
    assert s == PackU32(|c.name|) + (c.name + (PackU32(|c.points|) + pointsPart));
    assert s[..4] == PackU32(|c.name|);
    var afterLength := s[4..];
    assert afterLength == c.name + (PackU32(|c.points|) + pointsPart);
    assert afterLength[..|c.name|] == c.name;
    var afterName := afterLength[|c.name|..];
    assert afterName == PackU32(|c.points|) + pointsPart;
    assert afterName[..4] == PackU32(|c.points|);
    assert afterName[4..] == pointsPart;
    DecodeEncodedPoints(c.points, rest);
  }

  lemma {:induction false} DecodeEncodedContours(cs: seq<Contour>, rest: seq<Byte>)
    requires AllContoursFit(cs)
    ensures DecodeContours(EncodeContours(cs) + rest, |cs|) == Partial(cs, rest, true)
    decreases |cs|
  {
    if cs != [] {
      var s := EncodeContours(cs) + rest;
      var tail := EncodeContours(cs[1..]) + rest;
      Assoc(EncodeContour(cs[0]), EncodeContours(cs[1..]), rest);
      assert s == EncodeContour(cs[0]) + tail;
      DecodeEncodedContour(cs[0], tail);
      assert DecodeContour(s) == Some((cs[0], tail));
      DecodeEncodedContours(cs[1..], rest);
      assert DecodeContours(tail, |cs| - 1) == Partial(cs[1..], rest, true);
      assert [cs[0]] + cs[1..] == cs;
    } else {
      assert EncodeContours(cs) + rest == rest;
    }
  }

  /**
   * Round trip: decoding an encoded message gives it back, whatever bytes
   * follow it (no end-of-input check is made).
   */
  lemma DecodeEncode(cs: seq<Contour>, rest: seq<Byte>)
    requires Fits(cs)
    ensures Decode(Encode(cs) + rest) == Success(cs)
  {
    var s := Encode(cs) + rest;
    assert s == PackU32(|cs|) + (EncodeContours(cs) + rest);
    assert s[..4] == PackU32(|cs|);
    assert s[4..] == EncodeContours(cs) + rest;
    DecodeEncodedContours(cs, rest);
  }

  // ---------------------------------------------------------------------
  // What a successful decode has read.
  // ---------------------------------------------------------------------

  lemma {:induction false} DecodedPointsAreEncoded(s: seq<Byte>, n: nat)
    requires DecodePoints(s, n).Some?
    ensures var r := DecodePoints(s, n).value;
      |r.0| == n && s == EncodePoints(r.0) + r.1
    decreases n
  {
    if n != 0 {
      DecodedPointsAreEncoded(s[8..], n - 1);
      var more := DecodePoints(s[8..], n - 1).value;
      var r := DecodePoints(s, n).value;
      assert r.0[1..] == more.0;
      PackUnpackU32(s[..4]);
      PackUnpackU32(s[4..8]);
      assert s == s[..4] + s[4..8] + s[8..];
    }
  }

  lemma DecodedContourIsEncoded(s: seq<Byte>)
    requires DecodeContour(s).Some?
    ensures var r := DecodeContour(s).value;
      ContourFits(r.0) && s == EncodeContour(r.0) + r.1
  {
    var nameLength := UnpackU32(s[..4]);
    var afterLength := s[4..];
    var name := afterLength[..nameLength];
    var afterName := afterLength[nameLength..];
    var pointsPart := afterName[4..];
    var ps := DecodePoints(pointsPart, UnpackU32(afterName[..4])).value;
    assert DecodeContour(s).value == (Contour(name, ps.0), ps.1);
    DecodedPointsAreEncoded(pointsPart, UnpackU32(afterName[..4]));
    PackUnpackU32(s[..4]);
    PackUnpackU32(afterName[..4]);
    assert afterName == afterName[..4] + pointsPart;
    assert afterLength == name + afterName;
    assert s == s[..4] + afterLength;
    Assoc4(s[..4], name, afterName[..4], EncodePoints(ps.0), ps.1);
  }

  lemma {:induction false} DecodedContoursAreEncoded(s: seq<Byte>, n: nat)
    requires DecodeContours(s, n).complete
    ensures var r := DecodeContours(s, n);
      |r.contours| == n && AllContoursFit(r.contours) && s == EncodeContours(r.contours) + r.rest
    decreases n
  {
    if n != 0 {
      var first := DecodeContour(s).value;
      DecodedContourIsEncoded(s);
      DecodedContoursAreEncoded(first.1, n - 1);
      var more := DecodeContours(first.1, n - 1);
      assert DecodeContours(s, n).contours == [first.0] + more.contours;
      ConsContour(first.0, more.contours);
      Assoc(EncodeContour(first.0), EncodeContours(more.contours), more.rest);
    } else {
      assert [] + s == s;
    }
  }

  lemma ConsContour(c: Contour, cs: seq<Contour>)
    requires ContourFits(c) && AllContoursFit(cs)
    ensures AllContoursFit([c] + cs)
    ensures EncodeContours([c] + cs) == EncodeContour(c) + EncodeContours(cs)
  {
    assert ([c] + cs)[1..] == cs;
    assert forall i :: 0 <= i < |[c] + cs| ==> ([c] + cs)[i] == if i == 0 then c else cs[i - 1];
  }

  lemma Assoc(a: seq<Byte>, b: seq<Byte>, c: seq<Byte>)
    ensures a + (b + c) == a + b + c
  {
  }

  lemma Assoc4(a: seq<Byte>, b: seq<Byte>, c: seq<Byte>, d: seq<Byte>, e: seq<Byte>)
    ensures a + (b + (c + (d + e))) == a + b + c + d + e
  {
  }

  /** A successful decode splits its input into the encoding of its result and the bytes after it. */
  lemma DecodeSplits(s: seq<Byte>)
    requires Decode(s).Success?
    ensures Fits(Decode(s).value)
    ensures s == Encode(Decode(s).value) + DecodeContours(s[4..], UnpackU32(s[..4])).rest
  {
    var n := UnpackU32(s[..4]);
    var r := DecodeContours(s[4..], n);
    DecodedContoursAreEncoded(s[4..], n);
    PackUnpackU32(s[..4]);
    assert Decode(s).value == r.contours;
    assert s == s[..4] + s[4..];
  }

  lemma PrefixOfConcat(a: seq<Byte>, b: seq<Byte>)
    ensures (a + b)[..|a|] == a
  {
  }

  /** A successful decode has read exactly the encoding of its result, at the front of the input. */
  lemma DecodeSound(s: seq<Byte>)
    requires Decode(s).Success?
    ensures Fits(Decode(s).value)
    ensures |Encode(Decode(s).value)| <= |s| && s[..|Encode(Decode(s).value)|] == Encode(Decode(s).value)
  {
    DecodeSplits(s);
    PrefixOfConcat(Encode(Decode(s).value), DecodeContours(s[4..], UnpackU32(s[..4])).rest);
  }

  /** Input cut short anywhere inside an encoding raises the deserialization error. */
  lemma TruncatedInputFails(cs: seq<Contour>, k: nat)
    requires Fits(cs) && k < |Encode(cs)|
    ensures Decode(Encode(cs)[..k]).Failure?
  {
    var p := Encode(cs)[..k];
    DecodeEncode(cs, []);
    assert Encode(cs) + [] == Encode(cs);
    if Decode(p).Success? {
      var ds := Decode(p).value;
      DecodeSound(p);
      var e := Encode(ds);
      assert Encode(cs) == e + Encode(cs)[|e|..];
      DecodeEncode(ds, Encode(cs)[|e|..]);
      assert false;
    }
  }

  /** Two messages with the same encoding are the same message. */
  lemma EncodeInjective(cs: seq<Contour>, ds: seq<Contour>)
    requires Fits(cs) && Fits(ds) && Encode(cs) == Encode(ds)
    ensures cs == ds
  {
    DecodeEncode(cs, []);
    DecodeEncode(ds, []);
    assert Encode(cs) + [] == Encode(cs);
    assert Encode(ds) + [] == Encode(ds);
  }

  // ---------------------------------------------------------------------
  // The decoders read at an offset, as the method's `start`/`end` do.
  // ---------------------------------------------------------------------

  /** The points read so far, followed by what is still to be read. */
  function PrependPoints(ps: seq<Point2D>, r: Option<(seq<Point2D>, seq<Byte>)>): Option<(seq<Point2D>, seq<Byte>)>
  {
    match r
    case None => None
    case Some(more) => Some((ps + more.0, more.1))
  }

  lemma PrependNoPoints(r: Option<(seq<Point2D>, seq<Byte>)>)
    ensures PrependPoints([], r) == r
  {
    if r.Some? {
      assert [] + r.value.0 == r.value.0;
    }
  }

  /** The contours read so far, followed by what is still to be read. */
  function PrependContours(cs: seq<Contour>, r: Partial): Partial
  {
    Partial(cs + r.contours, r.rest, r.complete)
  }

  /** Reading one point at `start` moves it from the unread part to the points read. */
  lemma ReadPointStep(str: seq<Byte>, start: nat, n: nat, ps: seq<Point2D>)
    requires start + 8 <= |str| && 0 < n
    ensures PrependPoints(ps, DecodePoints(str[start..], n)) ==
      PrependPoints(ps + [Point2D(UnpackU32(str[start..start + 4]), UnpackU32(str[start + 4..start + 8]))],
                    DecodePoints(str[start + 8..], n - 1))
  {
    var s := str[start..];
    assert s[..4] == str[start..start + 4];
    assert s[4..8] == str[start + 4..start + 8];
    assert s[8..] == str[start + 8..];
    var p := Point2D(UnpackU32(str[start..start + 4]), UnpackU32(str[start + 4..start + 8]));
    match DecodePoints(str[start + 8..], n - 1)
    case None =>
    case Some(more) =>
      assert ps + ([p] + more.0) == ps + [p] + more.0;
  }

  /** Fewer than 8 bytes left: the next point cannot be read. */
  lemma ReadPointUnderfill(str: seq<Byte>, start: nat, n: nat)
    requires start <= |str| < start + 8 && 0 < n
    ensures DecodePoints(str[start..], n) == None
  {
  }

  /** `DecodeContour` on the suffix of `str` at `c`, stated with offsets into `str`. */
  lemma ContourParts(str: seq<Byte>, c: nat, nameLength: nat)
    requires c + 4 <= |str| && nameLength == UnpackU32(str[c..c + 4])
    ensures |str| < c + 8 + nameLength ==> DecodeContour(str[c..]) == None
    ensures c + 8 + nameLength <= |str| ==>
      DecodeContour(str[c..]) ==
        match DecodePoints(str[c + 8 + nameLength..], UnpackU32(str[c + 4 + nameLength..c + 8 + nameLength]))
        case None => None
        case Some(ps) => Some((Contour(str[c + 4..c + 4 + nameLength], ps.0), ps.1))
  {
    var s := str[c..];
    assert s[..4] == str[c..c + 4];
    var afterLength := s[4..];
    assert afterLength == str[c + 4..];
    if c + 8 + nameLength <= |str| {
      assert afterLength[..nameLength] == str[c + 4..c + 4 + nameLength];
      var afterName := afterLength[nameLength..];
      assert afterName == str[c + 4 + nameLength..];
      assert afterName[..4] == str[c + 4 + nameLength..c + 8 + nameLength];
      assert afterName[4..] == str[c + 8 + nameLength..];
    }
  }

  /** Reading one contour at `c` moves it from the unread part to the contours read. */
  lemma ReadContourStep(str: seq<Byte>, c: nat, e: nat, n: nat, cs: seq<Contour>, x: Contour)
    requires c <= e <= |str| && 0 < n && DecodeContour(str[c..]) == Some((x, str[e..]))
    ensures PrependContours(cs, DecodeContours(str[c..], n)) ==
      PrependContours(cs + [x], DecodeContours(str[e..], n - 1))
  {
    var more := DecodeContours(str[e..], n - 1);
    assert cs + ([x] + more.contours) == cs + [x] + more.contours;
  }

  /** A contour that cannot be read ends the decode, incomplete, after the contours read. */
  lemma ReadContourUnderfill(str: seq<Byte>, c: nat, n: nat, cs: seq<Contour>)
    requires c <= |str| && 0 < n && DecodeContour(str[c..]) == None
    ensures PrependContours(cs, DecodeContours(str[c..], n)) == Partial(cs, str[c..], false)
  {
    assert cs + [] == cs;
  }

  /** The bytes one outer iteration of `serialize` writes extend the encoding by one contour. */
  lemma AppendContour(cs: seq<Contour>, i: nat, pre: seq<Byte>)
    requires i < |cs| && AllContoursFit(cs[..i]) && ContourFits(cs[i])
    ensures AllContoursFit(cs[..i + 1])
    ensures pre + EncodeContours(cs[..i]) + PackU32(|cs[i].name|) + cs[i].name
            + PackU32(|cs[i].points|) + EncodePoints(cs[i].points)
            == pre + EncodeContours(cs[..i + 1])
  {
    var c := cs[i];
    var done := EncodeContours(cs[..i]);
    assert cs[..i + 1] == cs[..i] + [c];
    assert EncodeContours([c]) == EncodeContour(c) + EncodeContours([]);
    assert EncodeContours([c]) == EncodeContour(c);
    EncodeContoursAppend(cs[..i], [c]);
    assert EncodeContours(cs[..i + 1]) == done + EncodeContour(c);
    AssocContour(pre + done, PackU32(|c.name|), c.name, PackU32(|c.points|), EncodePoints(c.points));
    Assoc(pre, done, EncodeContour(c));
  }

  lemma AssocContour(a: seq<Byte>, b: seq<Byte>, c: seq<Byte>, d: seq<Byte>, e: seq<Byte>)
    ensures a + b + c + d + e == a + (b + c + d + e)
  {
  }

  /** The inner loop of `serialize`: each point's two words appended to `buff`. */
  method WritePoints(buff: seq<Byte>, points: seq<Point2D>) returns (b: seq<Byte>)
    ensures b == buff + EncodePoints(points)
  {
    b := buff;
    var j := 0;
    while j < |points|
      invariant 0 <= j <= |points|
      invariant b == buff + EncodePoints(points[..j])
    {
      var val2 := points[j];
      EncodePointsAppend(points[..j], [val2]);
      assert points[..j + 1] == points[..j] + [val2];
      b := b + PackU32(val2.x) + PackU32(val2.y);
      j := j + 1;
    }
    assert points[..j] == points;
  }

  /**
   * The body of the outer loop of `deserialize`: one contour read at offset
   * `end`, with the offset after it, or None where `unpack` would raise.
   */
  method ReadContour(str: seq<Byte>, end0: nat) returns (r: Option<(Contour, nat)>)
    requires end0 <= |str|
    ensures r.None? <==> DecodeContour(str[end0..]).None?
    ensures r.Some? ==> end0 <= r.value.1 <= |str|
    ensures r.Some? ==> DecodeContour(str[end0..]) == Some((r.value.0, str[r.value.1..]))
    ensures r.Some? ==> r.value.1 == end0 + ContourSize(r.value.0)
  {
    var end: nat := end0;
    var start: nat := end;
    end := end + 4;
    var word := PySlice(str, start, end);
    if |word| != 4 {
      return None;
    }
    var nameLength := UnpackU32(word);
    start := end;
    end := end + nameLength;
    var name := PySlice(str, start, end);
    start := end;
    end := end + 4;
    word := PySlice(str, start, end);
    ContourParts(str, end0, nameLength);
    if |word| != 4 {
      return None;
    }
    var pointCount := UnpackU32(word);
    assert word == str[end0 + 4 + nameLength..end];
    assert name == str[end0 + 4..end0 + 4 + nameLength];
    var read := ReadPoints(str, end, pointCount);
    if read.None? {
      return None;
    }
    ContourRead(str, end0, nameLength, pointCount, read.value.0, read.value.1);
    r := Some((Contour(name, read.value.0), read.value.1));
  }

  /** A contour whose points were all read at the offset after its count word. */
  lemma ContourRead(str: seq<Byte>, c: nat, nameLength: nat, pointCount: nat,
                    points: seq<Point2D>, after: nat)
    requires c + 8 + nameLength <= after <= |str| && nameLength == UnpackU32(str[c..c + 4])
    requires pointCount == UnpackU32(str[c + 4 + nameLength..c + 8 + nameLength])
    requires DecodePoints(str[c + 8 + nameLength..], pointCount) == Some((points, str[after..]))
    ensures var contour := Contour(str[c + 4..c + 4 + nameLength], points);
      DecodeContour(str[c..]) == Some((contour, str[after..])) && after == c + ContourSize(contour)
  {
    ContourParts(str, c, nameLength);
  }

  /** The inner loop of `deserialize`: `n` points read at offset `end0`, or None on underfill. */
  method ReadPoints(str: seq<Byte>, end0: nat, n: nat) returns (r: Option<(seq<Point2D>, nat)>)
    requires end0 <= |str|
    ensures r.None? <==> DecodePoints(str[end0..], n).None?
    ensures r.Some? ==> end0 <= r.value.1 <= |str|
    ensures r.Some? ==> DecodePoints(str[end0..], n) == Some((r.value.0, str[r.value.1..]))
  {
    var end: nat := end0;
    var points: seq<Point2D> := [];
    PrependNoPoints(DecodePoints(str[end..], n));
    var j := 0;
    while j < n
      invariant 0 <= j <= n && end0 <= end <= |str|
      invariant PrependPoints(points, DecodePoints(str[end..], n - j)) == DecodePoints(str[end0..], n)
    {
      var start: nat := end;
      end := end + 8;
      var pair := PySlice(str, start, end);
      if |pair| != 8 {
        ReadPointUnderfill(str, start, n - j);
        return None;
      }
      assert pair[..4] == str[start..start + 4] && pair[4..] == str[start + 4..end];
      ReadPointStep(str, start, n - j, points);
      points := points + [Point2D(UnpackU32(pair[..4]), UnpackU32(pair[4..]))];
      j := j + 1;
    }
    assert points + [] == points;
    return Some((points, end));
  }

  // ---------------------------------------------------------------------
  // The message object.
  // ---------------------------------------------------------------------

  class ContourArray {
    var contours: seq<Contour>

    /** `ContourArray()`, `ContourArray(contours=None)` and `ContourArray(contours=cs)`. */
    constructor (contours: Option<seq<Contour>>)
      ensures this.contours == if contours.Some? then contours.value else []
    {
      if contours.Some? {
        this.contours := contours.value;
      } else {
        this.contours := [];
      }
    }

    /** `serialize`: the bytes written to `buff`, or the error a too-long length raises. */
    method Serialize() returns (r: Result<seq<Byte>, SerializationError>)
      ensures Fits(contours) ==> r == Success(Encode(contours))
      ensures !Fits(contours) ==> r == Failure(LengthDoesNotFitUint32)
    {
      var cs := contours;
      if Uint32Limit <= |cs| {
        return Failure(LengthDoesNotFitUint32);
      }
      var buff := PackU32(|cs|);
      var i := 0;
      while i < |cs|
        invariant 0 <= i <= |cs|
        invariant AllContoursFit(cs[..i])
        invariant buff == PackU32(|cs|) + EncodeContours(cs[..i])
      {
        var val1 := cs[i];
        if Uint32Limit <= |val1.name| || Uint32Limit <= |val1.points| {
          // `struct.pack` of either length raises; nothing more is written.
          assert !ContourFits(cs[i]);
          return Failure(LengthDoesNotFitUint32);
        }
        buff := buff + PackU32(|val1.name|) + val1.name;
        buff := buff + PackU32(|val1.points|);
        buff := WritePoints(buff, val1.points);
        AppendContour(cs, i, PackU32(|cs|));
        i := i + 1;
      }
      assert cs[..i] == cs;
      return Success(buff);
    }

    /** `serialize_numpy`: the same statements as `serialize`, hence the same bytes. */
    method SerializeNumpy() returns (r: Result<seq<Byte>, SerializationError>)
      ensures Fits(contours) ==> r == Success(Encode(contours))
      ensures !Fits(contours) ==> r == Failure(LengthDoesNotFitUint32)
    {
      r := Serialize();
    }

    /**
     * `deserialize`: reads the count, then per contour the name length, the
     * name bytes, the point count and 8 bytes per point, advancing the
     * offsets `start` and `end`. Underfill raises the deserialization error,
     * leaving in `contours` those contours already completed.
     */
    method Deserialize(str: seq<Byte>) returns (r: Outcome<DeserializationError>)
      modifies this
      ensures r.Pass? <==> Decode(str).Success?
      ensures r.Pass? ==> contours == Decode(str).value
      ensures |str| < 4 ==> contours == old(contours)
      ensures 4 <= |str| ==> contours == DecodeContours(str[4..], UnpackU32(str[..4])).contours
    {
      var end: nat := 0;
      var start: nat := end;
      end := end + 4;
      var word := PySlice(str, start, end);
      if |word| != 4 {
        return Fail(BufferUnderfill);
      }
      var length := UnpackU32(word);
      contours := [];
      assert PrependContours(contours, DecodeContours(str[end..], length)) == DecodeContours(str[4..], length);
      var i := 0;
      while i < length
        invariant 0 <= i <= length && end <= |str|
        invariant PrependContours(contours, DecodeContours(str[end..], length - i)) == DecodeContours(str[4..], length)
      {
        var contourStart := end;
        var next := ReadContour(str, contourStart);
        if next.None? {
          ReadContourUnderfill(str, contourStart, length - i, contours);
          return Fail(BufferUnderfill);
        }
        var val1 := next.value.0;
        end := next.value.1;
        ReadContourStep(str, contourStart, end, length - i, contours, val1);
        contours := contours + [val1];
        i := i + 1;
      }
      assert contours + [] == contours;
      return Pass;
    }

    /** `deserialize_numpy`: the same statements as `deserialize`, hence the same result. */
    method DeserializeNumpy(str: seq<Byte>) returns (r: Outcome<DeserializationError>)
      modifies this
      ensures r.Pass? <==> Decode(str).Success?
      ensures r.Pass? ==> contours == Decode(str).value
      ensures |str| < 4 ==> contours == old(contours)
      ensures 4 <= |str| ==> contours == DecodeContours(str[4..], UnpackU32(str[..4])).contours
    {
      r := Deserialize(str);
    }
  }
}
