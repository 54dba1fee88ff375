/**
 The framing of messages between the command line tool and the running agent: a length in four
 bytes, most significant first, then that many bytes.
 */
module IpcFrame {
  import opened Common

  type Byte = n: nat | n < 0x100

  const MAX_FRAME_BYTES := 8 * 1024 * 1024

  /** `as u32` */
  function TruncateToU32(n: nat): nat {
    n % 0x1_0000_0000
  }

  function BigEndian(n: nat): (bytes: seq<Byte>)
    requires n < 0x1_0000_0000
    ensures |bytes| == 4
  {
    [n / 0x100_0000, n / 0x1_0000 % 0x100, n / 0x100 % 0x100, n % 0x100]
  }

  function FromBigEndian(bytes: seq<Byte>): nat
    requires |bytes| == 4
  {
    var (a: nat, b: nat, c: nat, d: nat) := (bytes[0], bytes[1], bytes[2], bytes[3]);
    a * 0x100_0000 + b * 0x1_0000 + c * 0x100 + d
  }

  /** The bytes on the wire for a payload that the writer accepts. */
  function Frame(payload: seq<Byte>): (bytes: seq<Byte>)
    ensures |bytes| == 4 + |payload|
  {
    BigEndian(TruncateToU32(|payload|)) + payload
  }

  function Frames(payloads: seq<seq<Byte>>): seq<Byte> {
    if payloads == [] then [] else Frame(payloads[0]) + Frames(payloads[1..])
  }

  datatype FrameError = Closed | TooLarge

  /** The next frame of a stream, and the bytes behind it. */
  function NextFrame(bytes: seq<Byte>): Result<(seq<Byte>, seq<Byte>), FrameError> {
    if |bytes| < 4 then Err(Closed)
    else
      var length := FromBigEndian(bytes[..4]);
      if length > MAX_FRAME_BYTES then Err(TooLarge)
      else if |bytes| - 4 < length then Err(Closed)
      else Ok((bytes[4..4 + length], bytes[4 + length..]))
  }

  class Stream {
    var bytes: seq<Byte> // written and not yet read

    constructor ()
      ensures bytes == []
    {
      bytes := [];
    }

    method WriteAll(data: seq<Byte>)
      modifies this
      ensures bytes == old(bytes) + data
    {
      bytes := bytes + data;
    }

    /** Fails, with everything consumed, when the stream ends too early. */
    method ReadExact(length: nat) returns (data: Option<seq<Byte>>)
      modifies this
      ensures data.Some? <==> length <= |old(bytes)|
      ensures data.Some? ==> data.value == old(bytes)[..length] && bytes == old(bytes)[length..]
      ensures data.None? ==> bytes == []
    {
      if |bytes| < length {
        bytes := [];
        return None;
      }
      data := Some(bytes[..length]);
      bytes := bytes[length..];
    }

    method WriteFrame(payload: seq<Byte>) returns (ok: bool)
      modifies this
      ensures ok <==> |payload| <= MAX_FRAME_BYTES
      ensures bytes == if ok then old(bytes) + Frame(payload) else old(bytes)
    {
      if |payload| > MAX_FRAME_BYTES {
        return false;
      }
      WriteAll(BigEndian(TruncateToU32(|payload|)));
      WriteAll(payload);
      assert old(bytes) + BigEndian(TruncateToU32(|payload|)) + payload == old(bytes) + Frame(payload);
      return true;
    }

    method ReadFrame() returns (r: Result<seq<Byte>, FrameError>)
      modifies this
      ensures NextFrame(old(bytes)).Err? ==> r == Err(NextFrame(old(bytes)).error)
      ensures NextFrame(old(bytes)).Ok? ==>
                r == Ok(NextFrame(old(bytes)).value.0) && bytes == NextFrame(old(bytes)).value.1
    {
      var header := ReadExact(4);
      if header.None? {
        return Err(Closed);
      }
      var length := FromBigEndian(header.value);
      if length > MAX_FRAME_BYTES {
        return Err(TooLarge);
      }
      var payload := ReadExact(length);
      if payload.None? {
        return Err(Closed);
      }
      assert old(bytes)[4..][..length] == old(bytes)[4..4 + length];
      assert old(bytes)[4..][length..] == old(bytes)[4 + length..];
      return Ok(payload.value);
    }
  }

  lemma BigEndianRoundTrip(n: nat)
    requires n < 0x1_0000_0000
    ensures FromBigEndian(BigEndian(n)) == n
  {
    var a, b, c := n / 0x100, n / 0x1_0000, n / 0x100_0000;
    assert a == n / 0x100 && b == a / 0x100 && c == b / 0x100;
    assert n == a * 0x100 + n % 0x100;
    assert a == b * 0x100 + a % 0x100;
    assert b == c * 0x100 + b % 0x100;
  }

  /** Comparison by the first byte that differs. */
  predicate ComesBefore(a: seq<Byte>, b: seq<Byte>)
    requires |a| == |b|
  {
    a != [] && (a[0] < b[0] || (a[0] == b[0] && ComesBefore(a[1..], b[1..])))
  }

  /** The first byte weighs most: lengths are ordered as their bytes are, read from the first on. */
  lemma FirstByteWeighsMost(m: nat, n: nat)
    requires m < 0x1_0000_0000 && n < 0x1_0000_0000
    ensures m < n <==> ComesBefore(BigEndian(m), BigEndian(n))
  {
    hide BigEndian, FromBigEndian;
    BigEndianRoundTrip(m);
    BigEndianRoundTrip(n);
    OrderOfBytes(BigEndian(m), BigEndian(n));
  }

  lemma OrderOfBytes(a: seq<Byte>, b: seq<Byte>)
    requires |a| == |b| == 4
    ensures FromBigEndian(a) < FromBigEndian(b) <==> ComesBefore(a, b)
  {
    assert a[1..][1..] == a[2..] && a[2..][1..] == a[3..] && a[3..][1..] == [];
    assert b[1..][1..] == b[2..] && b[2..][1..] == b[3..] && b[3..][1..] == [];
    assert ComesBefore(a[3..], b[3..]) <==> a[3] < b[3];
    assert ComesBefore(a[2..], b[2..]) <==> a[2] < b[2] || (a[2] == b[2] && a[3] < b[3]);
  }

  lemma BytesRoundTrip(bytes: seq<Byte>)
    requires |bytes| == 4
    ensures FromBigEndian(bytes) < 0x1_0000_0000
    ensures BigEndian(FromBigEndian(bytes)) == bytes
  {
    var (a: nat, b: nat, c: nat, d: nat) := (bytes[0], bytes[1], bytes[2], bytes[3]);
    var n := FromBigEndian(bytes);
    var high, middle := a * 0x100 + b, a * 0x1_0000 + b * 0x100 + c;
    QuotientOf(n, 0x100, middle, d);
    QuotientOf(n, 0x1_0000, high, c * 0x100 + d);
    QuotientOf(n, 0x100_0000, a, b * 0x1_0000 + c * 0x100 + d);
    QuotientOf(high, 0x100, a, b);
    QuotientOf(middle, 0x100, high, c);
  }

  lemma QuotientOf(n: nat, divisor: nat, quotient: nat, remainder: nat)
    requires divisor == 0x100 || divisor == 0x1_0000 || divisor == 0x100_0000
    requires n == quotient * divisor + remainder && remainder < divisor
    ensures n / divisor == quotient && n % divisor == remainder
  {
    if divisor == 0x100 {
    } else if divisor == 0x1_0000 {
    } else {
    }
  }

  /** Every frame that the writer accepts is read back, and the rest of the stream is untouched. */
  lemma FrameRoundTrip(payload: seq<Byte>, rest: seq<Byte>)
    requires |payload| <= MAX_FRAME_BYTES
    ensures NextFrame(Frame(payload) + rest) == Ok((payload, rest))
  {
    hide BigEndian, FromBigEndian;
    var bytes := Frame(payload) + rest;
    BigEndianRoundTrip(|payload|);
    assert bytes[..4] == BigEndian(|payload|);
    assert bytes[4..4 + |payload|] == payload;
    assert bytes[4 + |payload|..] == rest;
  }

  /** Conversely, whatever the reader accepts is a frame that the writer could have written. */
  lemma ReadFrameWasWritten(bytes: seq<Byte>)
    requires NextFrame(bytes).Ok?
    ensures var (payload, rest) := NextFrame(bytes).value;
            |payload| <= MAX_FRAME_BYTES && bytes == Frame(payload) + rest
  {
    hide BigEndian, FromBigEndian;
    var (payload, rest) := NextFrame(bytes).value;
    BytesRoundTrip(bytes[..4]);
    assert |payload| == FromBigEndian(bytes[..4]);
    assert bytes == bytes[..4] + payload + rest;
  }

  /** All frames up to the end of the stream. */
  function AllFrames(bytes: seq<Byte>): Result<seq<seq<Byte>>, FrameError>
    decreases |bytes|
  {
    if bytes == [] then Ok([])
    else
      match NextFrame(bytes)
      case Err(error) => Err(error)
      case Ok((payload, rest)) =>
        match AllFrames(rest)
        case Err(error) => Err(error)
        case Ok(payloads) => Ok([payload] + payloads)
  }

  predicate AllFit(payloads: seq<seq<Byte>>) {
    forall payload :: payload in payloads ==> |payload| <= MAX_FRAME_BYTES
  }

  /**
   A stream decodes to a list of messages exactly when it is the frames of that list, each of
   them within the limit: nothing is lost, split, joined or left over.
   */
  lemma {:induction false} StreamIsItsFrames(bytes: seq<Byte>, payloads: seq<seq<Byte>>)
    ensures AllFrames(bytes) == Ok(payloads) <==> bytes == Frames(payloads) && AllFit(payloads)
    decreases |payloads|, |bytes|
  {
    hide NextFrame, Frame;
    if payloads == [] {
      assert bytes == Frames([]) <==> bytes == [];
    } else {
      if bytes == Frames(payloads) && AllFit(payloads) {
        FrameRoundTrip(payloads[0], Frames(payloads[1..]));
        StreamIsItsFrames(Frames(payloads[1..]), payloads[1..]);
        assert payloads == [payloads[0]] + payloads[1..];
      }
      if AllFrames(bytes) == Ok(payloads) {
        ReadFrameWasWritten(bytes);
        var (payload, rest) := NextFrame(bytes).value;
        assert AllFrames(rest).Ok?;
        assert payloads[0] == payload && payloads[1..] == AllFrames(rest).value;
        StreamIsItsFrames(rest, payloads[1..]);
        assert payloads == [payloads[0]] + payloads[1..];
      }
    }
  }

  /** A frame that was cut short never decodes, wherever it was cut. */
  lemma CutFrameNeverDecodes(payload: seq<Byte>, kept: nat)
    requires |payload| <= MAX_FRAME_BYTES && kept < |Frame(payload)|
    ensures NextFrame(Frame(payload)[..kept]) == Err(Closed)
  {
    hide BigEndian, FromBigEndian;
    var bytes := Frame(payload)[..kept];
    if kept >= 4 {
      BigEndianRoundTrip(|payload|);
      assert bytes[..4] == BigEndian(|payload|);
    }
  }

  /** So a stream that breaks off inside a frame delivers the complete frames and then ends. */
  lemma {:induction false} BrokenStreamEnds(payloads: seq<seq<Byte>>, last: seq<Byte>, kept: nat)
    requires AllFit(payloads) && |last| <= MAX_FRAME_BYTES && 0 < kept < |Frame(last)|
    ensures AllFrames(Frames(payloads) + Frame(last)[..kept]) == Err(Closed)
    decreases |payloads|
  {
    hide NextFrame, Frame;
    var cut := Frame(last)[..kept];
    if payloads == [] {
      CutFrameNeverDecodes(last, kept);
      assert Frames(payloads) + cut == cut;
    } else {
      var rest := Frames(payloads[1..]) + cut;
      FrameRoundTrip(payloads[0], rest);
      BrokenStreamEnds(payloads[1..], last, kept);
      assert Frames(payloads) + cut == Frame(payloads[0]) + rest;
    }
  }
}
