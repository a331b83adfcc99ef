/** The supervisor's length-prefixed frames, read from a byte stream that arrives in arbitrary pieces. */
module SupervisorFraming {
  import opened Foundations

  datatype FrameKind = Start | Ready | Stdin | Stdout | Error | Exit | CloseStdin | Cancel

  datatype Frame = Frame(kind: FrameKind, payload: seq<byte>)

  const MAX_FRAME_SIZE := 1024 * 1024
  const HEADER_SIZE := 5

  function Code(kind: FrameKind): byte {
    match kind
    case Start => 1
    case Ready => 2
    case Stdin => 3
    case Stdout => 4
    case Error => 5
    case Exit => 6
    case CloseStdin => 7
    case Cancel => 8
  }

  function KindOf(code: byte): Option<FrameKind> {
    match code
    case 1 => Some(Start)
    case 2 => Some(Ready)
    case 3 => Some(Stdin)
    case 4 => Some(Stdout)
    case 5 => Some(Error)
    case 6 => Some(Exit)
    case 7 => Some(CloseStdin)
    case 8 => Some(Cancel)
    case _ => None
  }

  /** The header of `>BI`: one byte of kind, four bytes of length, most significant first. */
  function Header(kind: FrameKind, length: int): (r: seq<byte>)
    requires 0 <= length <= MAX_FRAME_SIZE
    ensures |r| == HEADER_SIZE
  {
    [Code(kind), (length / 0x100_0000) as byte, ((length / 0x1_0000) % 0x100) as byte,
     ((length / 0x100) % 0x100) as byte, (length % 0x100) as byte]
  }

  function LengthField(header: seq<byte>): int
    requires |header| == HEADER_SIZE
  {
    header[1] as int * 0x100_0000 + header[2] as int * 0x1_0000 + header[3] as int * 0x100 + header[4] as int
  }

  lemma HeaderRoundTrip(kind: FrameKind, length: int)
    requires 0 <= length <= MAX_FRAME_SIZE
    ensures KindOf(Header(kind, length)[0]) == Some(kind) && LengthField(Header(kind, length)) == length
  {
  }

  lemma HeaderIsDetermined(header: seq<byte>, kind: FrameKind)
    requires |header| == HEADER_SIZE && KindOf(header[0]) == Some(kind) && 0 <= LengthField(header) <= MAX_FRAME_SIZE
    ensures Header(kind, LengthField(header)) == header
  {
    var a, b, c, d := header[1] as int, header[2] as int, header[3] as int, header[4] as int;
    var n := LengthField(header);
    assert n / 0x100_0000 == a && n / 0x1_0000 == a * 0x100 + b && n / 0x100 == a * 0x1_0000 + b * 0x100 + c;
  }

  predicate Sendable(f: Frame) { |f.payload| <= MAX_FRAME_SIZE }

  function Encode(f: Frame): seq<byte>
    requires Sendable(f)
  {
    Header(f.kind, |f.payload|) + f.payload
  }

  /** The bytes a sender that accepts every frame of `fs` has put on the wire. */
  function EncodeAll(fs: seq<Frame>): seq<byte>
    requires forall f :: f in fs ==> Sendable(f)
  {
    if fs == [] then [] else Encode(fs[0]) + EncodeAll(fs[1..])
  }

  // ----------------------------------------------------------------- decoding

  datatype Failure = EndOfStream | FrameTooLarge | UnknownKind

  datatype Decoded = Decoded(result: Result<Frame, Failure>, rest: seq<byte>)

  /** One frame off the front. The size is checked before the kind, and both before the payload is awaited. */
  function DecodeOne(data: seq<byte>): Decoded {
    if |data| < HEADER_SIZE then Decoded(Err(EndOfStream), []) else
    var header, body := data[..HEADER_SIZE], data[HEADER_SIZE..];
    var length := LengthField(header);
    if length > MAX_FRAME_SIZE then Decoded(Err(FrameTooLarge), body)
    else match KindOf(header[0])
      case None => Decoded(Err(UnknownKind), body)
      case Some(kind) =>
        if |body| < length then Decoded(Err(EndOfStream), [])
        else Decoded(Ok(Frame(kind, body[..length])), body[length..])
  }

  datatype Transcript = Transcript(frames: seq<Frame>, failure: Failure)

  /** Everything a stream decodes to: its frames, and the failure that ends it. */
  function DecodeAll(data: seq<byte>): Transcript
    decreases |data|
  {
    var d := DecodeOne(data);
    match d.result
    case Err(e) => Transcript([], e)
    case Ok(f) => var t := DecodeAll(d.rest); t.(frames := [f] + t.frames)
  }

  lemma DecodeEncoded(f: Frame, rest: seq<byte>)
    requires Sendable(f)
    ensures DecodeOne(Encode(f) + rest) == Decoded(Ok(f), rest)
  {
    var data := Encode(f) + rest;
    HeaderRoundTrip(f.kind, |f.payload|);
    assert data[..HEADER_SIZE] == Header(f.kind, |f.payload|);
    assert data[HEADER_SIZE..] == f.payload + rest;
  }

  /** A decoded frame is exactly the bytes it was decoded from. */
  lemma DecodedIsEncoded(data: seq<byte>)
    requires DecodeOne(data).result.Ok?
    ensures var d := DecodeOne(data); Sendable(d.result.value) && data == Encode(d.result.value) + d.rest
  {
    var d := DecodeOne(data);
    HeaderIsDetermined(data[..HEADER_SIZE], d.result.value.kind);
    assert data == data[..HEADER_SIZE] + data[HEADER_SIZE..];
  }

  /** Round trip: the wire bytes of any sequence of frames decode to that sequence. */
  lemma {:induction false} DecodeInvertsEncode(fs: seq<Frame>)
    requires forall f :: f in fs ==> Sendable(f)
    ensures DecodeAll(EncodeAll(fs)) == Transcript(fs, EndOfStream)
  {
    if fs != [] {
      DecodeEncoded(fs[0], EncodeAll(fs[1..]));
      DecodeInvertsEncode(fs[1..]);
    }
  }

  /** Whatever bytes arrive, the decoded frames are acceptable to a sender and re-encode to the bytes consumed. */
  lemma {:induction false} DecodedPrefix(data: seq<byte>)
    ensures forall f :: f in DecodeAll(data).frames ==> Sendable(f)
    ensures EncodeAll(DecodeAll(data).frames) <= data
    decreases |data|
  {
    if DecodeOne(data).result.Ok? {
      DecodedIsEncoded(data);
      DecodedPrefix(DecodeOne(data).rest);
    }
  }

  /** How many leading frames lie wholly within the first `k` bytes. */
  function WholeFrames(fs: seq<Frame>, k: int): (n: nat)
    requires forall f :: f in fs ==> Sendable(f)
    ensures n <= |fs|
  {
    if fs == [] || |Encode(fs[0])| > k then 0 else 1 + WholeFrames(fs[1..], k - |Encode(fs[0])|)
  }

  /** A stream cut anywhere decodes to the frames that arrived whole and then ends: no frame is ever shortened. */
  lemma {:induction false} TruncationLosesOnlyTheTail(fs: seq<Frame>, k: nat)
    requires forall f :: f in fs ==> Sendable(f)
    requires k <= |EncodeAll(fs)|
    ensures DecodeAll(EncodeAll(fs)[..k]) == Transcript(fs[..WholeFrames(fs, k)], EndOfStream)
  {
    if fs == [] {
      assert EncodeAll(fs)[..k] == [];
    } else if |Encode(fs[0])| <= k {
      TruncationLosesOnlyTheTail(fs[1..], k - |Encode(fs[0])|);
      WholeFirstFrame(fs, k);
    } else {
      CutFirstFrame(fs, k);
    }
  }

  lemma WholeFirstFrame(fs: seq<Frame>, k: nat)
    requires forall f :: f in fs ==> Sendable(f)
    requires fs != [] && |Encode(fs[0])| <= k <= |EncodeAll(fs)|
    requires var n := k - |Encode(fs[0])|;
             DecodeAll(EncodeAll(fs[1..])[..n]) == Transcript(fs[1..][..WholeFrames(fs[1..], n)], EndOfStream)
    ensures DecodeAll(EncodeAll(fs)[..k]) == Transcript(fs[..WholeFrames(fs, k)], EndOfStream)
  {
    var first, rest := Encode(fs[0]), EncodeAll(fs[1..]);
    FirstThen(fs[0], first, rest, k, fs[1..][..WholeFrames(fs[1..], k - |first|)]);
    WholeFramesStep(fs, k);
  }

  lemma FirstThen(f: Frame, first: seq<byte>, rest: seq<byte>, k: nat, whole: seq<Frame>)
    requires Sendable(f) && first == Encode(f) && |first| <= k <= |first| + |rest|
    requires DecodeAll(rest[..k - |first|]) == Transcript(whole, EndOfStream)
    ensures DecodeAll((first + rest)[..k]) == Transcript([f] + whole, EndOfStream)
  {
    var tail := rest[..k - |first|];
    CutConcat(first, rest, k);
    DecodeEncoded(f, tail);
    DecodeFirst(first + tail, f, tail);
  }

  lemma CutConcat(first: seq<byte>, rest: seq<byte>, k: nat)
    requires |first| <= k <= |first| + |rest|
    ensures (first + rest)[..k] == first + rest[..k - |first|]
  {
  }

  lemma WholeFramesStep(fs: seq<Frame>, k: nat)
    requires forall f :: f in fs ==> Sendable(f)
    requires fs != [] && |Encode(fs[0])| <= k
    ensures fs[..WholeFrames(fs, k)] == [fs[0]] + fs[1..][..WholeFrames(fs[1..], k - |Encode(fs[0])|)]
  {
  }

  lemma DecodeFirst(data: seq<byte>, f: Frame, rest: seq<byte>)
    requires DecodeOne(data) == Decoded(Ok(f), rest)
    ensures DecodeAll(data) == Transcript([f] + DecodeAll(rest).frames, DecodeAll(rest).failure)
  {
  }

  lemma CutFirstFrame(fs: seq<Frame>, k: nat)
    requires forall f :: f in fs ==> Sendable(f)
    requires fs != [] && k < |Encode(fs[0])|
    ensures DecodeAll(EncodeAll(fs)[..k]) == Transcript(fs[..WholeFrames(fs, k)], EndOfStream)
  {
    assert EncodeAll(fs)[..k] == Encode(fs[0])[..k];
    CutFrame(fs[0], k);
  }

  lemma CutFrame(f: Frame, k: nat)
    requires Sendable(f) && k < |Encode(f)|
    ensures DecodeOne(Encode(f)[..k]).result == Err(EndOfStream)
  {
    var data := Encode(f)[..k];
    if k >= HEADER_SIZE {
      assert data[..HEADER_SIZE] == Header(f.kind, |f.payload|);
      HeaderRoundTrip(f.kind, |f.payload|);
    }
  }

  // ------------------------------------------------------------------ streams

  function Joined(pieces: seq<seq<byte>>): seq<byte> {
    if pieces == [] then [] else pieces[0] + Joined(pieces[1..])
  }

  /** A socket: the pieces the network will deliver, each of them non-empty. */
  class ByteStream {
    var pieces: seq<seq<byte>>

    predicate Valid()
      reads this
    {
      forall p :: p in pieces ==> p != []
    }

    function Pending(): seq<byte>
      reads this
    {
      Joined(pieces)
    }

    constructor (pieces: seq<seq<byte>>)
      requires forall p :: p in pieces ==> p != []
      ensures Valid() && this.pieces == pieces
    {
      this.pieces := pieces;
    }

    /** At most `limit` bytes of the next piece; nothing once the stream has ended. */
    method Receive(limit: nat) returns (chunk: seq<byte>)
      requires Valid() && limit > 0
      modifies this
      ensures Valid()
      ensures |chunk| <= limit && old(Pending()) == chunk + Pending()
      ensures chunk == [] ==> old(Pending()) == []
    {
      if pieces == [] { return []; }
      var piece := pieces[0];
      assert piece in pieces;
      if |piece| <= limit {
        chunk := piece;
        pieces := pieces[1..];
      } else {
        chunk := piece[..limit];
        assert piece == chunk + piece[limit..];
        pieces := [piece[limit..]] + pieces[1..];
        assert pieces[1..] == old(pieces)[1..];
        assert old(Pending()) == chunk + Pending();
      }
      forall p | p in pieces ensures p != [] { assert p in old(pieces) || p == piece[limit..]; }
    }
  }

  /** `_receive_exact`: the next `length` bytes however they are cut up, or the end of the stream. */
  method ReceiveExact(stream: ByteStream, length: nat) returns (r: Option<seq<byte>>)
    requires stream.Valid()
    modifies stream
    ensures stream.Valid()
    ensures r.Some? <==> length <= |old(stream.Pending())|
    ensures r.Some? ==> r.value == old(stream.Pending())[..length]
    ensures r.Some? ==> stream.Pending() == old(stream.Pending())[length..]
    ensures r.None? ==> stream.Pending() == []
  {
    var data: seq<byte>, remaining := [], length;
    while remaining > 0
      invariant stream.Valid() && 0 <= remaining && |data| + remaining == length
      invariant data + stream.Pending() == old(stream.Pending())
    {
      ghost var before := stream.Pending();
      var chunk := stream.Receive(remaining);
      if chunk == [] { return None; }
      assert data + before == (data + chunk) + stream.Pending();
      data := data + chunk;
      remaining := remaining - |chunk|;
    }
    assert data == (data + stream.Pending())[..length];
    r := Some(data);
  }

  method ReceiveFrame(stream: ByteStream) returns (r: Result<Frame, Failure>)
    requires stream.Valid()
    modifies stream
    ensures stream.Valid()
    ensures Decoded(r, stream.Pending()) == DecodeOne(old(stream.Pending()))
  {
    var header := ReceiveExact(stream, HEADER_SIZE);
    if header.None? { return Err(EndOfStream); }
    var length := LengthField(header.value);
    if length > MAX_FRAME_SIZE { return Err(FrameTooLarge); }
    var kind := KindOf(header.value[0]);
    if kind.None? { return Err(UnknownKind); }
    var payload := ReceiveExact(stream, length);
    if payload.None? { return Err(EndOfStream); }
    r := Ok(Frame(kind.value, payload.value));
  }

  // ------------------------------------------------------------- socket reader

  datatype ReaderError =
    | InvalidMessage | InvalidErrorFrame | ReportedError | InvalidExitFrame | ProcessExited
    | UnexpectedFrame | ProtocolFailed | ConnectionEnded

  /** `isMessage` is the JSON-RPC validation and `isObject` the test for a JSON object. */
  datatype Json = Json(isMessage: seq<byte> -> bool, isObject: seq<byte> -> bool)

  predicate Deliverable(json: Json, f: Frame) {
    f.kind == Stdout && json.isMessage(f.payload)
  }

  function StopReason(json: Json, f: Frame): ReaderError
    requires !Deliverable(json, f)
  {
    match f.kind
    case Stdout => InvalidMessage
    case Error => if json.isObject(f.payload) then ReportedError else InvalidErrorFrame
    case Exit => if json.isObject(f.payload) then ProcessExited else InvalidExitFrame
    case _ => UnexpectedFrame
  }

  function FailureReason(failure: Failure): ReaderError {
    if failure == EndOfStream then ConnectionEnded else ProtocolFailed
  }

  datatype Delivery = Delivery(messages: seq<seq<byte>>, error: ReaderError)

  /** What the session sees of a stream, when it stops accepting after `accepted` messages. */
  function Deliver(json: Json, t: Transcript, accepted: nat): Delivery
    decreases |t.frames|
  {
    if t.frames == [] then Delivery([], FailureReason(t.failure))
    else if !Deliverable(json, t.frames[0]) then Delivery([], StopReason(json, t.frames[0]))
    else if accepted == 0 then Delivery([], ConnectionEnded)
    else
      var d := Deliver(json, t.(frames := t.frames[1..]), accepted - 1);
      d.(messages := [t.frames[0].payload] + d.messages)
  }

  /** What the session sees of a stream carrying `data`. */
  function Session(json: Json, data: seq<byte>, accepted: nat): Delivery {
    Deliver(json, DecodeAll(data), accepted)
  }

  /** The reader task. Every way out attempts exactly one error and stops. */
  method SocketReader(stream: ByteStream, json: Json, accepted: nat)
      returns (messages: seq<seq<byte>>, errors: seq<ReaderError>)
    requires stream.Valid()
    modifies stream
    ensures messages == Session(json, old(stream.Pending()), accepted).messages
    ensures errors == [Session(json, old(stream.Pending()), accepted).error]
  {
    messages, errors := [], [];
    ghost var data := stream.Pending();
    ghost var whole := Session(json, data, accepted);
    while true
      invariant stream.Valid() && |messages| <= accepted && data == stream.Pending()
      invariant whole == Prefixed(messages, Session(json, data, accepted - |messages|))
      decreases |data|
    {
      var r := ReceiveFrame(stream);
      ghost var rest := stream.Pending();
      ReaderTurn(json, messages, data, accepted, r, rest);
      var error := Judge(json, r, |messages| == accepted);
      if error.Some? {
        errors := [error.value];
        return;
      }
      messages := messages + [r.value.payload];
      data := rest;
    }
  }

  /** The branches of the loop: why to stop, or that the frame was a message that could be handed over. */
  method Judge(json: Json, r: Result<Frame, Failure>, full: bool) returns (error: Option<ReaderError>)
    ensures error == match r
                     case Err(e) => Some(FailureReason(e))
                     case Ok(f) =>
                       if !Deliverable(json, f) then Some(StopReason(json, f))
                       else if full then Some(ConnectionEnded) else None
  {
    if r.Err? { return Some(FailureReason(r.error)); }
    if r.value.kind == Stdout {
      if !json.isMessage(r.value.payload) { return Some(InvalidMessage); }
      return if full then Some(ConnectionEnded) else None;
    }
    error := Some(StopReason(json, r.value));
  }

  function Prefixed(messages: seq<seq<byte>>, d: Delivery): Delivery {
    Delivery(messages + d.messages, d.error)
  }

  /** A stream's session, from its first frame. */
  lemma SessionStep(json: Json, data: seq<byte>, accepted: nat)
    ensures Session(json, data, accepted) ==
      match DecodeOne(data).result
      case Err(e) => Delivery([], FailureReason(e))
      case Ok(f) =>
        if !Deliverable(json, f) then Delivery([], StopReason(json, f))
        else if accepted == 0 then Delivery([], ConnectionEnded)
        else Prefixed([f.payload], Session(json, DecodeOne(data).rest, accepted - 1))
    ensures DecodeOne(data).result.Ok? ==> |DecodeOne(data).rest| < |data|
  {
    var t := DecodeAll(data);
    if DecodeOne(data).result.Ok? {
      assert t.(frames := t.frames[1..]) == DecodeAll(DecodeOne(data).rest);
    }
  }

  /** One turn of the reader's loop, given what it received. */
  lemma ReaderTurn(json: Json, messages: seq<seq<byte>>, data: seq<byte>, accepted: nat,
                   r: Result<Frame, Failure>, rest: seq<byte>)
    requires |messages| <= accepted && DecodeOne(data) == Decoded(r, rest)
    ensures Prefixed(messages, Session(json, data, accepted - |messages|)) ==
      match r
      case Err(e) => Delivery(messages, FailureReason(e))
      case Ok(f) =>
        if !Deliverable(json, f) then Delivery(messages, StopReason(json, f))
        else if |messages| == accepted then Delivery(messages, ConnectionEnded)
        else Prefixed(messages + [f.payload], Session(json, rest, accepted - |messages| - 1))
    ensures r.Ok? ==> |rest| < |data|
  {
    SessionStep(json, data, accepted - |messages|);
    assert messages + [] == messages;
    if r.Ok? && |messages| < accepted {
      var d := Session(json, rest, accepted - |messages| - 1);
      assert messages + ([r.value.payload] + d.messages) == messages + [r.value.payload] + d.messages;
    }
  }

  /** The messages handed over are the payloads of the leading valid messages, as many as are accepted. */
  lemma {:induction false} DeliverPayloads(json: Json, t: Transcript, accepted: nat, i: nat)
    requires i < |Deliver(json, t, accepted).messages|
    ensures |Deliver(json, t, accepted).messages| <= Min(accepted, |t.frames|)
    ensures Deliverable(json, t.frames[i]) && Deliver(json, t, accepted).messages[i] == t.frames[i].payload
    decreases |t.frames|
  {
    var rest := t.(frames := t.frames[1..]);
    if Deliver(json, rest, accepted - 1).messages != [] {
      DeliverPayloads(json, rest, accepted - 1, if i == 0 then 0 else i - 1);
    }
  }

  /** Why the reader stops: at the first frame that is not a valid message, which it names; at the first valid message
      that the session no longer takes; and failing both, at the end of the stream. */
  lemma {:induction false} DeliverStops(json: Json, t: Transcript, accepted: nat)
    ensures var d := Deliver(json, t, accepted); var n := |d.messages|;
            n <= Min(accepted, |t.frames|) &&
            if n == |t.frames| then d.error == FailureReason(t.failure)
            else if !Deliverable(json, t.frames[n]) then d.error == StopReason(json, t.frames[n])
            else n == accepted && d.error == ConnectionEnded
    decreases |t.frames|
  {
    if t.frames != [] && Deliverable(json, t.frames[0]) && accepted > 0 {
      DeliverStops(json, t.(frames := t.frames[1..]), accepted - 1);
    }
  }

  /** For the frames of any sender, cut up in any way, the reader hands over exactly the valid messages that come
      before the first other frame, as many as the session takes, unchanged and in order; it names that frame, or tells
      the end of the connection when there is none or the session takes no more. */
  lemma ReaderOnSentFrames(json: Json, fs: seq<Frame>, pieces: seq<seq<byte>>, accepted: nat, i: nat)
    requires forall f :: f in fs ==> Sendable(f)
    requires Joined(pieces) == EncodeAll(fs)
    ensures var d := Session(json, Joined(pieces), accepted); var n := |d.messages|;
            && n <= Min(accepted, |fs|)
            && (i < n ==> Deliverable(json, fs[i]) && d.messages[i] == fs[i].payload)
            && (if n == |fs| then d.error == ConnectionEnded
                else if !Deliverable(json, fs[n]) then d.error == StopReason(json, fs[n])
                else n == accepted && d.error == ConnectionEnded)
  {
    DecodeInvertsEncode(fs);
    var t := Transcript(fs, EndOfStream);
    DeliverStops(json, t, accepted);
    if i < |Deliver(json, t, accepted).messages| { DeliverPayloads(json, t, accepted, i); }
  }
}
