/**
 * The base-protocol framing of the Language Server Protocol (3.17, "Base
 * Protocol / Header Part"): a `Content-Length` header, an empty line, then the
 * JSON-RPC 2.0 content. Outgoing messages are framed by `Frame`; incoming
 * bytes accumulate in a `MessageReader` buffer that is cut into contents one
 * header at a time.
 */
module LspFraming {
  import opened Wrappers
  import opened PyStr
  import opened Utf8

  /** `b"\r\n\r\n"`, the end of a header block. */
  const Terminator: seq<byte> := [13, 10, 13, 10]

  const ContentLengthField: string := "Content-Length:"

  /** The header `_send_message` writes for a content of `n` characters (any integer, so that a peer's negative length can be written too). */
  function HeaderText(n: int): string
  {
    "Content-Length: " + IntToString(n)
  }

  /**
   * A content the round trip holds for: not empty, and its character count
   * (what the header announces) equal to its UTF-8 length (what the reader
   * cuts). `json.dumps` escapes every non-ASCII character, so its output
   * always qualifies.
   */
  predicate Sendable(content: string)
  {
    |content| > 0 && |Encode(content)| == |content|
  }

  /**
   * The bytes `_send_message` writes for a JSON text: the header announces
   * `len(content)`, a character count, and the whole is encoded as UTF-8.
   */
  function Frame(content: string): seq<byte>
  {
    Encode(HeaderText(|content|) + "\r\n\r\n" + content)
  }

  /** The frames of several contents, back to back. */
  function Frames(contents: seq<string>): seq<byte>
  {
    if contents == [] then [] else Frame(contents[0]) + Frames(contents[1..])
  }

  // ---------------------------------------------------------------------------
  // Reading a header

  /** `int(line.split(':', 1)[1].strip())` for a line that starts with "Content-Length:"; None where `int` raises. */
  function FieldValue(line: string): (r: Option<int>)
    requires StartsWith(line, ContentLengthField)
  {
    assert OccursAt(line, ":", 14);
    ParseInt(Strip(SplitOnce(line, ":")[1]))
  }

  /** The value of the first header line that starts with "Content-Length:", 0 when there is none. */
  function FirstContentLength(lines: seq<string>): (r: Option<int>)
  {
    if lines == [] then Some(0)
    else if StartsWith(lines[0], ContentLengthField) then FieldValue(lines[0])
    else FirstContentLength(lines[1..])
  }

  function ContentLength(header: string): Option<int>
  {
    FirstContentLength(Split(header, "\r\n"))
  }

  /** What the start of the buffer holds. */
  datatype Header =
    | NoTerminator                                // no b"\r\n\r\n" yet
    | Unreadable(bodyStart: nat)                  // the header does not decode or its length is not an int
    | Announced(bodyStart: nat, length: int)      // the header announces `length` content bytes

  function ScanHeader(buffer: seq<byte>): (h: Header)
    ensures h.NoTerminator? <==> !Contains(buffer, Terminator)
    ensures !h.NoTerminator? ==> h.bodyStart == Find(buffer, Terminator) + 4 <= |buffer|
  {
    var i := Find(buffer, Terminator);
    if i < 0 then NoTerminator
    else
      match Decode(buffer[..i])
      case None => Unreadable(i + 4)
      case Some(header) =>
        match ContentLength(header)
        case None => Unreadable(i + 4)
        case Some(n) => Announced(i + 4, n)
  }

  /** One pass of the parse loop: stop until more data arrives, drop a header, or hand a content to `json.loads`. */
  datatype ParseStep = Stop | Skip(rest: seq<byte>) | Emit(content: string, rest: seq<byte>)

  /**
   * The parse step of `_read_messages` as written: only a length of exactly 0
   * is rejected, and the body is cut with Python slices, so a negative length
   * slices from the end of the buffer.
   */
  function StepAsWritten(buffer: seq<byte>): ParseStep
  {
    match ScanHeader(buffer)
    case NoTerminator => Stop
    case Unreadable(start) => Skip(buffer[start..])
    case Announced(start, n) =>
      if n == 0 then Skip(buffer[start..])
      else if |buffer| < start + n then Stop
      else
        match Decode(Slice(buffer, start, start + n))
        case None => Skip(buffer[start..])
        case Some(c) => Emit(c, Drop(buffer, start + n))
  }

  /** The parse step with the evidently intended check: a length that is not positive is rejected. */
  function Step(buffer: seq<byte>): (s: ParseStep)
    ensures !s.Stop? ==> |s.rest| < |buffer| && s.rest == buffer[|buffer| - |s.rest|..]
  {
    match ScanHeader(buffer)
    case NoTerminator => Stop
    case Unreadable(start) => Skip(buffer[start..])
    case Announced(start, n) =>
      if n <= 0 then Skip(buffer[start..])
      else if |buffer| < start + n then Stop
      else
        match Decode(buffer[start..start + n])
        case None => Skip(buffer[start..])
        case Some(c) => Emit(c, buffer[start + n..])
  }

  /** The step for a complete frame whose header announces a positive length. */
  lemma StepOfAnnounced(buffer: seq<byte>, start: nat, n: int)
    requires ScanHeader(buffer) == Announced(start, n) && n > 0 && start + n <= |buffer|
    ensures Step(buffer) == match Decode(buffer[start..start + n])
      case None => Skip(buffer[start..])
      case Some(c) => Emit(c, buffer[start + n..])
  {
  }

  /** Everything the parse loop hands on from `buffer`, and what it leaves in the buffer. */
  function Drain(buffer: seq<byte>): (seq<string>, seq<byte>)
    decreases |buffer|
  {
    match Step(buffer)
    case Stop => ([], buffer)
    case Skip(rest) => Drain(rest)
    case Emit(c, rest) => var (m, b) := Drain(rest); ([c] + m, b)
  }

  // ---------------------------------------------------------------------------
  // Properties of the framing

  /** The header text is ASCII and has no carriage return. */
  lemma HeaderTextChars(n: int)
    ensures IsAscii(HeaderText(n))
    ensures forall k :: 0 <= k < |HeaderText(n)| ==> HeaderText(n)[k] != '\r'
  {
    var ht := HeaderText(n);
    var d := IntToString(n);
    forall k | 0 <= k < |ht| ensures ht[k] as int < 0x80 && ht[k] != '\r' {
      if k >= 16 { assert ht[k] == d[k - 16]; }
    }
  }

  /** The value part of the header line is the decimal length. */
  lemma FieldValueOfHeader(n: int)
    ensures FieldValue(HeaderText(n)) == Some(n)
  {
    HeaderValuePart(n);
    ParseIntOfString(n);
  }

  /** What follows the first colon of the header line, stripped, is the decimal length. */
  lemma HeaderValuePart(n: int)
    ensures |SplitOnce(HeaderText(n), ":")| == 2 && Strip(SplitOnce(HeaderText(n), ":")[1]) == IntToString(n)
  {
    HeaderSplit(n);
    StripLeadingSpace(IntToString(n));
  }

  lemma HeaderSplit(n: int)
    ensures SplitOnce(HeaderText(n), ":") == ["Content-Length", [' '] + IntToString(n)]
  {
    var digits := IntToString(n);
    HeaderTextParts(digits);
    NameHasNoColon();
    SplitOnceAfterFree("Content-Length", ": " + digits, ":");
  }

  /** The header text is the field name, then the colon and the blank, then the digits. */
  lemma HeaderTextParts(digits: string)
    ensures "Content-Length: " + digits == "Content-Length" + (": " + digits)
    ensures ":" <= ": " + digits && (": " + digits)[1..] == [' '] + digits
  {
    SeqAssoc("Content-Length", ": ", digits);
  }

  /** The field name holds no colon. */
  lemma NameHasNoColon()
    ensures forall k :: 0 <= k < |"Content-Length"| ==> "Content-Length"[k] != ':'
  {
  }

  /** One leading blank before a signed run of digits is stripped. */
  lemma StripLeadingSpace(digits: string)
    requires forall k :: 0 <= k < |digits| ==> IsDigit(digits[k]) || digits[k] == '-'
    ensures Strip([' '] + digits) == digits
  {
    LStripSpace(' ', digits);
    if digits != [] {
      var first, last := digits[0], digits[|digits| - 1];
      VisibleNotSpace(first);
      VisibleNotSpace(last);
    }
    StripNoOp(digits);
  }

  /** A header line written by `_send_message` reads back as the length it announces. */
  lemma ContentLengthOfHeader(n: int)
    ensures ContentLength(HeaderText(n)) == Some(n)
  {
    var h := HeaderText(n);
    HeaderTextChars(n);
    AbsentFirst(h, "\r\n");
    SplitAbsent(h, "\r\n");
    FieldValueOfHeader(n);
    assert FirstContentLength([h]) == FieldValue(h);
  }

  /** The bytes of an ASCII string are its character codes. */
  lemma EncodeAsciiCodes(s: string)
    requires IsAscii(s)
    ensures |Encode(s)| == |s| && forall k :: 0 <= k < |s| ==> Encode(s)[k] as int == s[k] as int
  {
    EncodeLengthAscii(s);
  }

  /** The encoded header and terminator, and where the content starts. */
  lemma FrameLayout(content: string)
    ensures var h := Encode(HeaderText(|content|));
      Frame(content) == h + Terminator + Encode(content)
      && Find(Frame(content), Terminator) == |h|
      && Decode(h) == Some(HeaderText(|content|))
      && (forall k :: 0 <= k < |h| ==> h[k] != 13)
  {
    var ht := HeaderText(|content|);
    HeaderTextChars(|content|);
    EncodeAsciiCodes(ht);
    var h := Encode(ht);
    forall k | 0 <= k < |h| ensures h[k] != 13 {
      assert h[k] as int == ht[k] as int;
    }
    EncodeAppend(ht, "\r\n\r\n");
    EncodeAppend(ht + "\r\n\r\n", content);
    assert Encode("\r\n\r\n") == Terminator;
    assert Frame(content) == h + (Terminator + Encode(content));
    FindAfterFree(h, Terminator + Encode(content), Terminator);
    DecodeEncode(ht);
  }

  /** A buffer that starts with a header free of carriage returns, then the terminator. */
  lemma ScanFramed(h: seq<byte>, body: seq<byte>, header: string)
    requires forall k :: 0 <= k < |h| ==> h[k] != 13
    requires Decode(h) == Some(header)
    ensures ScanHeader(h + Terminator + body) == match ContentLength(header)
      case None => Unreadable(|h| + 4)
      case Some(n) => Announced(|h| + 4, n)
  {
    var b := h + Terminator + body;
    FramedFind(h, body);
    assert b[..|h|] == h;
    ScanHeaderAt(b, |h|, header);
  }

  /** The first terminator after a header free of carriage returns is the one that ends it. */
  lemma FramedFind(h: seq<byte>, body: seq<byte>)
    requires forall k :: 0 <= k < |h| ==> h[k] != 13
    ensures Find(h + Terminator + body, Terminator) == |h|
  {
    SeqAssoc(h, Terminator, body);
    FindAfterFree(h, Terminator + body, Terminator);
  }

  /** A buffer whose first terminator is at `i`, after a header that decodes. */
  lemma ScanHeaderAt(buffer: seq<byte>, i: nat, header: string)
    requires Find(buffer, Terminator) == i && Decode(buffer[..i]) == Some(header)
    ensures ScanHeader(buffer) == match ContentLength(header)
      case None => Unreadable(i + 4)
      case Some(n) => Announced(i + 4, n)
  {
  }

  /** Framing a non-empty content whose character count is its UTF-8 length and parsing it back gives the content and consumes the frame. */
  lemma StepFrame(content: string, rest: seq<byte>)
    requires Sendable(content)
    ensures Step(Frame(content) + rest) == Emit(content, rest)
  {
    FrameLayout(content);
    ContentLengthOfHeader(|content|);
    var h := Encode(HeaderText(|content|));
    var e := Encode(content);
    var f := Frame(content);
    assert f == h + Terminator + e;
    var b := f + rest;
    SeqAssoc(h + Terminator, e, rest);
    ScanFramed(h, e + rest, HeaderText(|content|));
    var start := |h| + 4;
    assert b[start..start + |content|] == e;
    DecodeEncode(content);
    assert b[start + |content|..] == rest;
  }

  /** The round trip of one frame: exactly the content comes out and the buffer is left empty. */
  lemma RoundTrip(content: string)
    requires Sendable(content)
    ensures Drain(Frame(content)) == ([content], [])
  {
    var f := Frame(content);
    StepFrame(content, []);
    assert f + [] == f;
    DrainEmpty();
    assert Drain(f) == ([content] + Drain([]).0, Drain([]).1);
    assert [content] + [] == [content];
    assert Drain(f) == ([content], []);
  }

  lemma DrainOfEmit(buffer: seq<byte>, c: string, rest: seq<byte>)
    requires Step(buffer) == Emit(c, rest)
    ensures Drain(buffer) == ([c] + Drain(rest).0, Drain(rest).1)
  {
  }

  /** An empty buffer yields nothing. */
  lemma DrainEmpty()
    ensures Drain([]) == ([], [])
  {
    FindAfterFree([], [], Terminator);
    assert Step([]) == Stop;
  }

  /** A frame followed by more bytes: its content is handed on first, then whatever the rest yields. */
  lemma DrainFrameThen(c: string, rest: seq<byte>)
    requires Sendable(c)
    ensures Drain(Frame(c) + rest) == ([c] + Drain(rest).0, Drain(rest).1)
  {
    StepFrame(c, rest);
    DrainOfEmit(Frame(c) + rest, c, rest);
  }

  /** Frames sent back to back come out in the order they were sent, with nothing left over. */
  lemma {:induction false} FramesInOrder(contents: seq<string>)
    requires forall k :: 0 <= k < |contents| ==> Sendable(contents[k])
    ensures Drain(Frames(contents)) == (contents, [])
  {
    if contents != [] {
      var c, tail := contents[0], contents[1..];
      assert Frames(contents) == Frame(c) + Frames(tail);
      DrainFrameThen(c, Frames(tail));
      forall k | 0 <= k < |tail| ensures Sendable(tail[k]) {
        assert tail[k] == contents[k + 1];
      }
      FramesInOrder(tail);
      assert Drain(Frames(contents)) == ([c] + tail, []);
      assert [c] + tail == contents;
    }
  }

  /** Any proper prefix of a frame — header incomplete or body short — produces nothing and stays in the buffer. */
  lemma PartialFrameWaits(content: string, p: seq<byte>)
    requires Sendable(content)
    requires p < Frame(content)
    ensures Step(p) == Stop && Drain(p) == ([], p)
  {
    FrameLayout(content);
    var h := Encode(HeaderText(|content|));
    FindInPrefix(p, Frame(content), Terminator);
    if |h| + 4 <= |p| {
      assert p[..|h|] == h;
      PartialBodyWaits(|content|, h, p);
    } else {
      assert ScanHeader(p).NoTerminator?;
    }
  }

  /** A buffer that holds a whole header announcing `n > 0` bytes, but fewer than `n` after it, waits for more. */
  lemma PartialBodyWaits(n: int, h: seq<byte>, p: seq<byte>)
    requires 0 < n && |h| + 4 <= |p| < |h| + 4 + n && p[..|h|] == h
    requires Find(p, Terminator) == |h| && Decode(h) == Some(HeaderText(n))
    ensures Step(p) == Stop
  {
    ContentLengthOfHeader(n);
    assert ScanHeader(p) == Announced(|h| + 4, n);
  }

  /** A header block without a positive Content-Length yields no message and is dropped with its terminator. */
  lemma NonPositiveLengthSkipped(header: string, rest: seq<byte>)
    requires forall k :: 0 <= k < |header| ==> header[k] != '\r'
    requires IsAscii(header)
    requires ContentLength(header).Some? && ContentLength(header).value <= 0
    ensures Step(Encode(header) + Terminator + rest) == Skip(rest)
  {
    EncodeAsciiCodes(header);
    var h := Encode(header);
    forall k | 0 <= k < |h| ensures h[k] != 13 {
      assert h[k] as int == header[k] as int;
    }
    DecodeEncode(header);
    ScanFramed(h, rest, header);
    var b := h + Terminator + rest;
    assert b[|h| + 4..] == rest;
  }

  /** Reading more data never changes a step that already made progress, so chunk boundaries do not matter. */
  lemma StepExtend(a: seq<byte>, b: seq<byte>)
    requires !Step(a).Stop?
    ensures Step(a).Skip? ==> Step(a + b) == Skip(Step(a).rest + b)
    ensures Step(a).Emit? ==> Step(a + b) == Emit(Step(a).content, Step(a).rest + b)
  {
    ScanExtend(a, b);
    var h := ScanHeader(a);
    DropAppend(a, b, h.bodyStart);
    if h.Announced? && h.length > 0 && h.bodyStart + h.length <= |a| {
      AnnouncedExtend(a, b, h.bodyStart, h.length);
    } else {
      assert Step(a) == Skip(a[h.bodyStart..]);
      assert Step(a + b) == Skip((a + b)[h.bodyStart..]);
    }
  }

  /** `StepExtend` for a complete frame announcing a positive length. */
  lemma AnnouncedExtend(a: seq<byte>, b: seq<byte>, start: nat, n: int)
    requires ScanHeader(a) == Announced(start, n) && ScanHeader(a + b) == Announced(start, n)
    requires n > 0 && start + n <= |a|
    ensures Step(a).Skip? ==> Step(a + b) == Skip(Step(a).rest + b)
    ensures Step(a).Emit? ==> Step(a + b) == Emit(Step(a).content, Step(a).rest + b)
  {
    StepOfAnnounced(a, start, n);
    StepOfAnnounced(a + b, start, n);
    assert (a + b)[start..start + n] == a[start..start + n];
    DropAppend(a, b, start);
    DropAppend(a, b, start + n);
  }

  /** Dropping a prefix of `a` from `a + b` leaves the rest of `a`, then `b`. */
  lemma DropAppend(a: seq<byte>, b: seq<byte>, i: nat)
    requires i <= |a|
    ensures (a + b)[i..] == a[i..] + b
  {
  }

  /** Once the buffer holds a terminator, more data does not change how its header reads. */
  lemma ScanExtend(a: seq<byte>, b: seq<byte>)
    requires Find(a, Terminator) >= 0
    ensures ScanHeader(a + b) == ScanHeader(a)
  {
    FindExtend(a, b, Terminator);
    var i := Find(a, Terminator);
    assert (a + b)[..i] == a[..i];
  }

  /** Feeding `a` and then `b` hands on the same contents as feeding `a + b` at once. */
  lemma {:induction false} DrainAppend(a: seq<byte>, b: seq<byte>)
    ensures Drain(a + b) == (Drain(a).0 + Drain(Drain(a).1 + b).0, Drain(Drain(a).1 + b).1)
    decreases |a|
  {
    var s := Step(a);
    if s.Stop? {
      assert Drain(a) == ([], a);
      assert [] + Drain(a + b).0 == Drain(a + b).0;
    } else if s.Skip? {
      StepExtend(a, b);
      assert Step(a + b) == Skip(s.rest + b);
      DrainAppend(s.rest, b);
    } else {
      StepExtend(a, b);
      assert Step(a + b) == Emit(s.content, s.rest + b);
      DrainAppend(s.rest, b);
      var m := Drain(s.rest).0;
      var m2 := Drain(Drain(s.rest).1 + b).0;
      SeqAssoc([s.content], m, m2);
    }
  }

  /** What the parse loop leaves in the buffer is a suffix of it: bytes are only ever dropped from the front. */
  lemma {:induction false} DrainLeavesSuffix(buffer: seq<byte>)
    ensures IsSuffix(Drain(buffer).1, buffer)
    decreases |buffer|
  {
    var s := Step(buffer);
    if !s.Stop? {
      DrainLeavesSuffix(s.rest);
      DrainPastStep(buffer);
      SuffixOfSuffix(buffer, s.rest, Drain(s.rest).1);
    } else {
      DrainOfStop(buffer);
      assert buffer[0..] == buffer;
    }
  }

  /** A pass that stops leaves the buffer as it is. */
  lemma DrainOfStop(buffer: seq<byte>)
    requires Step(buffer).Stop?
    ensures Drain(buffer) == ([], buffer)
  {
  }

  /** A step that does not stop hands the rest of the buffer on unchanged to the next pass. */
  lemma DrainPastStep(buffer: seq<byte>)
    requires !Step(buffer).Stop?
    ensures Drain(buffer).1 == Drain(Step(buffer).rest).1
  {
  }

  /** `c` is what remains of `a` once some leading part is cut off. */
  predicate IsSuffix(c: seq<byte>, a: seq<byte>)
  {
    |c| <= |a| && c == a[|a| - |c|..]
  }

  lemma SuffixOfSuffix(a: seq<byte>, b: seq<byte>, c: seq<byte>)
    requires IsSuffix(b, a) && IsSuffix(c, b)
    ensures IsSuffix(c, a)
  {
    assert b[|b| - |c|..] == a[|a| - |c|..];
  }

  /** What the parse loop leaves in the buffer yields nothing more until new data arrives. */
  lemma {:induction false} DrainLeavesStopped(buffer: seq<byte>)
    ensures Step(Drain(buffer).1).Stop?
    ensures Drain(Drain(buffer).1) == ([], Drain(buffer).1)
    decreases |buffer|
  {
    var s := Step(buffer);
    if !s.Stop? {
      DrainLeavesStopped(s.rest);
    }
  }

  // ---------------------------------------------------------------------------
  // The defect of the as-written step

  /** As written, a header whose negative length cancels the header size leaves the buffer as it was: the loop never ends. */
  lemma AsWrittenStallsOnNegativeLength(buffer: seq<byte>)
    requires ScanHeader(buffer).Announced?
    requires ScanHeader(buffer).bodyStart + ScanHeader(buffer).length == 0
    ensures StepAsWritten(buffer) == Emit("", buffer)
    ensures Step(buffer) == Skip(buffer[ScanHeader(buffer).bodyStart..])
  {
    assert Slice(buffer, ScanHeader(buffer).bodyStart, 0) == [];
  }

  /** The 23 bytes of `Content-Length: -23\r\n\r\n`: the header announces minus the size of the header block. */
  lemma NegativeLengthExample()
    ensures var b := Encode(HeaderText(-23)) + Terminator;
      |b| == 23 && StepAsWritten(b) == Emit("", b) && Step(b) == Skip([])
  {
    var ht := HeaderText(-23);
    HeaderTextChars(-23);
    EncodeAsciiCodes(ht);
    var h := Encode(ht);
    forall k | 0 <= k < |h| ensures h[k] != 13 {
      assert h[k] as int == ht[k] as int;
    }
    assert NatToString(23) == NatToString(2) + [DigitChar(3)];
    DecodeEncode(ht);
    ContentLengthOfHeader(-23);
    ScanFramed(h, [], ht);
    var b := h + Terminator;
    assert h + Terminator + [] == b;
    AsWrittenStallsOnNegativeLength(b);
  }

  // ---------------------------------------------------------------------------
  // The reader

  /** The byte buffer of `_read_messages`, kept between reads. */
  class MessageReader {
    var buffer: seq<byte>

    constructor ()
      ensures buffer == []
    {
      buffer := [];
    }

    /**
     * `buffer += data` and the parse loop: the contents handed to `json.loads`,
     * in order, and the bytes left waiting for more data.
     */
    method Feed(data: seq<byte>) returns (contents: seq<string>)
      modifies this
      ensures (contents, buffer) == Drain(old(buffer) + data)
    {
      buffer := buffer + data;
      contents := [];
      assert contents + Drain(buffer).0 == Drain(buffer).0;
      while Contains(buffer, Terminator)
        invariant Drain(old(buffer) + data) == (contents + Drain(buffer).0, Drain(buffer).1)
        decreases |buffer|
      {
        var step := ParsePass(buffer);
        if step.Stop? {
          break;
        }
        if step.Emit? {
          SeqAssoc(contents, [step.content], Drain(step.rest).0);
          contents := contents + [step.content];
        }
        buffer := step.rest;
      }
      if !Contains(buffer, Terminator) {
        DrainNoTerminator(buffer);
      }
      assert contents + [] == contents;
    }
  }

  /**
   * One pass of the parse loop over a buffer that holds a header terminator:
   * decode the header, read its Content-Length, and cut the body if it has
   * fully arrived.
   */
  method ParsePass(buffer: seq<byte>) returns (step: ParseStep)
    requires Contains(buffer, Terminator)
    ensures step == Step(buffer)
  {
    var headerEnd := Find(buffer, Terminator);
    var header := Decode(buffer[..headerEnd]);
    if header.None? {
      return Skip(buffer[headerEnd + 4..]);
    }
    var contentLength := ReadContentLength(header.value);
    if contentLength.None? {
      return Skip(buffer[headerEnd + 4..]);
    }
    var messageStart := headerEnd + 4;
    assert ScanHeader(buffer) == Announced(messageStart, contentLength.value);
    if contentLength.value <= 0 {
      return Skip(buffer[messageStart..]);
    }
    var messageEnd := messageStart + contentLength.value;
    if |buffer| < messageEnd {
      return Stop;
    }
    var content := Decode(buffer[messageStart..messageEnd]);
    StepOfAnnounced(buffer, messageStart, contentLength.value);
    if content.None? {
      return Skip(buffer[messageStart..]);
    }
    return Emit(content.value, buffer[messageEnd..]);
  }

  /** No terminator yet: nothing happens. */
  lemma DrainNoTerminator(buffer: seq<byte>)
    requires !Contains(buffer, Terminator)
    ensures Drain(buffer) == ([], buffer)
  {
    assert ScanHeader(buffer) == NoTerminator;
  }

  /** The `for line in header.split('\r\n')` loop: the value of the first Content-Length line, 0 without one. */
  method ReadContentLength(header: string) returns (contentLength: Option<int>)
    ensures contentLength == ContentLength(header)
  {
    var lines := Split(header, "\r\n");
    contentLength := Some(0);
    var i := 0;
    while i < |lines|
      invariant 0 <= i <= |lines|
      invariant FirstContentLength(lines) == FirstContentLength(lines[i..])
    {
      if StartsWith(lines[i], ContentLengthField) {
        contentLength := FieldValue(lines[i]);
        return;
      }
      assert lines[i..][1..] == lines[i + 1..];
      i := i + 1;
    }
    assert lines[i..] == [];
  }

  /** The stream a reader has seen: the chunks read, up to the first empty read (end of file). */
  function Concat(chunks: seq<seq<byte>>): seq<byte>
  {
    if chunks == [] then [] else chunks[0] + Concat(chunks[1..])
  }

  /** However the stream is cut into reads, the contents handed on are those of the whole stream. */
  lemma {:induction false} ChunkingIrrelevant(buffer: seq<byte>, chunks: seq<seq<byte>>)
    ensures FeedAll(buffer, chunks) == Drain(buffer + Concat(chunks))
    decreases |chunks|
  {
    if chunks == [] {
      assert buffer + [] == buffer;
    } else {
      var r1 := Drain(buffer + chunks[0]).1;
      ChunkingIrrelevant(r1, chunks[1..]);
      DrainAppend(buffer + chunks[0], Concat(chunks[1..]));
      SeqAssoc(buffer, chunks[0], Concat(chunks[1..]));
    }
  }

  /** The contents handed on by feeding `chunks` to the reader one after the other, and its final buffer. */
  function FeedAll(buffer: seq<byte>, chunks: seq<seq<byte>>): (seq<string>, seq<byte>)
    decreases |chunks|
  {
    if chunks == [] then Drain(buffer)
    else
      var (m1, r1) := Drain(buffer + chunks[0]);
      var (m2, r2) := FeedAll(r1, chunks[1..]);
      (m1 + m2, r2)
  }

  /** The chunks before the first empty read, which `_read_messages` takes for end of file. */
  function UntilEof(chunks: seq<seq<byte>>): (r: seq<seq<byte>>)
    ensures r <= chunks && (forall k :: 0 <= k < |r| ==> r[k] != [])
    ensures |r| < |chunks| ==> chunks[|r|] == []
  {
    if chunks == [] || chunks[0] == [] then [] else [chunks[0]] + UntilEof(chunks[1..])
  }

  lemma {:induction false} ConcatSnoc(chunks: seq<seq<byte>>, last: seq<byte>)
    ensures Concat(chunks + [last]) == Concat(chunks) + last
    decreases |chunks|
  {
    if chunks == [] {
      assert [] + [last] == [last];
      assert Concat([last]) == last + Concat([]);
      assert last + [] == last;
    } else {
      assert (chunks + [last])[1..] == chunks[1..] + [last];
      ConcatSnoc(chunks[1..], last);
      SeqAssoc(chunks[0], Concat(chunks[1..]), last);
    }
  }

  /**
   * The outer loop of `_read_messages`: read chunk after chunk until an empty
   * read, feeding each to the buffer. What is handed on is what the stream up
   * to end of file holds, however it was cut into reads.
   */
  method ReadMessages(reader: MessageReader, chunks: seq<seq<byte>>) returns (contents: seq<string>)
    requires reader.buffer == []
    modifies reader
    ensures (contents, reader.buffer) == Drain(Concat(UntilEof(chunks)))
  {
    contents := [];
    DrainEmpty();
    var n := 0;
    while n < |chunks| && chunks[n] != []
      invariant 0 <= n <= |chunks| && UntilEof(chunks) == chunks[..n] + UntilEof(chunks[n..])
      invariant (contents, reader.buffer) == Drain(Concat(chunks[..n]))
    {
      UntilEofNext(chunks, n);
      ghost var before := reader.buffer;
      var more := reader.Feed(chunks[n]);
      FeedNext(chunks, n, contents, before, more, reader.buffer);
      contents := contents + more;
      n := n + 1;
    }
    assert UntilEof(chunks[n..]) == [];
    assert chunks[..n] + [] == chunks[..n];
  }

  /** Reading chunk `n` continues from the buffer the earlier chunks left. */
  lemma FeedNext(chunks: seq<seq<byte>>, n: nat, contents: seq<string>, buffer: seq<byte>, more: seq<string>,
                  rest: seq<byte>)
    requires n < |chunks| && (contents, buffer) == Drain(Concat(chunks[..n]))
    requires (more, rest) == Drain(buffer + chunks[n])
    ensures (contents + more, rest) == Drain(Concat(chunks[..n + 1]))
  {
    assert chunks[..n + 1] == chunks[..n] + [chunks[n]];
    ConcatSnoc(chunks[..n], chunks[n]);
    DrainAppend(Concat(chunks[..n]), chunks[n]);
  }

  /** A non-empty chunk `n` belongs to what is read before end of file. */
  lemma UntilEofNext(chunks: seq<seq<byte>>, n: nat)
    requires n < |chunks| && chunks[n] != []
    requires UntilEof(chunks) == chunks[..n] + UntilEof(chunks[n..])
    ensures UntilEof(chunks) == chunks[..n + 1] + UntilEof(chunks[n + 1..])
  {
    assert chunks[n..][1..] == chunks[n + 1..];
    assert UntilEof(chunks[n..]) == [chunks[n]] + UntilEof(chunks[n + 1..]);
    SeqAssoc(chunks[..n], [chunks[n]], UntilEof(chunks[n + 1..]));
    assert chunks[..n + 1] == chunks[..n] + [chunks[n]];
  }
}
