/**
 The two stdio framings of a backend process: Content-Length packets and newline-delimited
 messages.  `Parse` and `ParseLines` say what a byte stream means; the capture methods are the
 read loops; the lemmas relate both to the printer `FormatPacket`.
 */
module Framing {
  import opened Common

  const LF: Byte := 10
  const CR: Byte := 13
  const MINUS: Byte := 45
  const PLUS: Byte := 43
  const ZERO: Byte := 48
  const NINE: Byte := 57

  /** "Content-Length: " */
  const HEADER: Bytes := [67, 111, 110, 116, 101, 110, 116, 45, 76, 101, 110, 103, 116, 104, 58, 32]

  /** The largest value of Go's 64-bit `int`. */
  const MAX_INT: int := 0x7fff_ffff_ffff_ffff

  // ---------- Text of a line ----------

  predicate IsDigit(b: Byte) {
    ZERO <= b <= NINE
  }

  predicate IsSpace(b: Byte) {
    9 <= b <= 13 || b == 32
  }

  predicate NoLF(s: Bytes) {
    forall k | 0 <= k < |s| :: s[k] != LF
  }

  /** Position of the first line feed, or the length of `s` when there is none. */
  function IndexOfLF(s: Bytes): (i: nat)
    ensures i <= |s|
    ensures forall k | 0 <= k < i :: s[k] != LF
    ensures i < |s| ==> s[i] == LF
  {
    if |s| == 0 || s[0] == LF then 0 else 1 + IndexOfLF(s[1..])
  }

  /** `strings.TrimRight(line, "\r\n")` */
  function TrimEnd(s: Bytes): Bytes {
    if |s| > 0 && (s[|s| - 1] == CR || s[|s| - 1] == LF) then TrimEnd(s[..|s| - 1]) else s
  }

  function TrimSpaceLeft(s: Bytes): Bytes {
    if |s| > 0 && IsSpace(s[0]) then TrimSpaceLeft(s[1..]) else s
  }

  function TrimSpaceRight(s: Bytes): Bytes {
    if |s| > 0 && IsSpace(s[|s| - 1]) then TrimSpaceRight(s[..|s| - 1]) else s
  }

  /** `strconv.Itoa`, as `fmt.Sprint` prints a length. */
  function Decimal(n: nat): Bytes {
    if n < 10 then [ZERO + n as Byte] else Decimal(n / 10) + [ZERO + (n % 10) as Byte]
  }

  /** The number a non-empty run of digits denotes. */
  function DigitsValue(s: Bytes): Option<int> {
    if |s| == 0 || !IsDigit(s[|s| - 1]) then None
    else
      var last := (s[|s| - 1] - ZERO) as nat;
      if |s| == 1 then Some(last)
      else
        match DigitsValue(s[..|s| - 1])
        case None => None
        case Some(v) => Some(10 * v + last)
  }

  /** `strconv.Atoi`: an optional sign, then digits, in the range of a 64-bit integer. */
  function Atoi(s: Bytes): Option<int> {
    var signed := |s| > 0 && (s[0] == MINUS || s[0] == PLUS);
    match DigitsValue(if signed then s[1..] else s)
    case None => None
    case Some(v) =>
      var n := if signed && s[0] == MINUS then -v else v;
      if -MAX_INT - 1 <= n <= MAX_INT then Some(n) else None
  }

  /** The length a header line announces; None for any line that announces no positive length. */
  function ContentLength(line: Bytes): (n: Option<nat>)
    ensures n.Some? ==> 0 < n.value <= MAX_INT
  {
    var text := TrimEnd(line);
    if HEADER <= text then
      match Atoi(TrimSpaceRight(TrimSpaceLeft(text[|HEADER|..])))
      case Some(v) => if v > 0 then Some(v) else None
      case None => None
    else
      None
  }

  // ---------- Content-Length framing ----------

  function FormatPacket(body: Bytes): Bytes {
    HEADER + Decimal(|body|) + [CR, LF, CR, LF] + body
  }

  /** What is left once a line has been read; nothing, when no line ends. */
  function AfterLine(s: Bytes): (rest: Bytes)
    ensures |rest| <= |s|
  {
    var i := IndexOfLF(s);
    if i == |s| then [] else s[i + 1..]
  }

  /**
   One turn of the read loop: a body or nothing, and the bytes then unread.  Cut when the stream ends
   before the turn completes.
   */
  datatype Read = Cut | Skip(unread: Bytes) | Deliver(body: Bytes, unread: Bytes)

  /** What a line leads to: after an announced length, a skipped line and that many bytes; else nothing. */
  function Delivery(announced: Option<nat>, rest: Bytes): (read: Read)
    ensures !read.Cut? ==> |read.unread| <= |rest|
  {
    match announced
    case None => Skip(rest)
    case Some(n) =>
      var body := AfterLine(rest);
      if |body| < n then Cut else Deliver(body[..n], body[n..])
  }

  function Turn(s: Bytes): (read: Read)
    ensures !read.Cut? ==> |read.unread| < |s|
  {
    var i := IndexOfLF(s);
    if i == |s| then Cut else Delivery(ContentLength(s[..i]), s[i + 1..])
  }

  /** The bodies that a byte stream delivers. */
  function Parse(s: Bytes): seq<Bytes>
    decreases |s|
  {
    match Turn(s)
    case Cut => []
    case Skip(unread) => Parse(unread)
    case Deliver(body, unread) => [body] + Parse(unread)
  }

  /** `bufio.Reader.ReadString('\n')` on the unread bytes: the line without its line feed. */
  method ReadLine(unread: Bytes) returns (line: Bytes, rest: Bytes, eof: bool)
    ensures eof <==> IndexOfLF(unread) == |unread|
    ensures line == unread[..IndexOfLF(unread)]
    ensures rest == AfterLine(unread)
  {
    var i := 0;
    while i < |unread| && unread[i] != LF
      invariant i <= |unread|
      invariant forall k | 0 <= k < i :: unread[k] != LF
    {
      i := i + 1;
    }
    FirstLF(unread, i);
    line := unread[..i];
    eof := i == |unread|;
    rest := if eof then [] else unread[i + 1..];
  }

  lemma FirstLF(s: Bytes, i: nat)
    requires i <= |s| && forall k | 0 <= k < i :: s[k] != LF
    requires i < |s| ==> s[i] == LF
    ensures IndexOfLF(s) == i
  {}

  lemma FirstLine(line: Bytes, tail: Bytes)
    requires NoLF(line)
    ensures var s := line + [LF] + tail;
            IndexOfLF(s) == |line| && s[..|line|] == line && AfterLine(s) == s[|line| + 1..] == tail
  {
    var s := line + [LF] + tail;
    assert forall k | 0 <= k < |line| :: s[k] == line[k];
    FirstLF(s, |line|);
  }

  /** One turn of the loop: reads a line and, after a header, a blank line and a body. */
  method ReadTurn(unread: Bytes) returns (read: Read)
    ensures read == Turn(unread)
  {
    var line, rest, eof := ReadLine(unread);
    if eof {
      return Cut;
    }
    var announced := ContentLength(line);
    if announced.None? {
      return Skip(rest);
    }
    var n := announced.value;
    var blank, body, cut := ReadLine(rest);
    if |body| < n {
      // io.ReadFull meets the end of the stream
      return Cut;
    }
    return Deliver(body[..n], body[n..]);
  }

  /** captureStdoutContentLength: the read loop delivers exactly what the stream means. */
  method CaptureContentLength(stream: Bytes) returns (bodies: seq<Bytes>)
    ensures bodies == Parse(stream)
  {
    bodies := [];
    var unread := stream;
    while true
      invariant bodies + Parse(unread) == Parse(stream)
      decreases |unread|
    {
      var read := ReadTurn(unread);
      if read.Cut? {
        break;
      }
      if read.Deliver? {
        Assoc(bodies, [read.body], Parse(read.unread));
        bodies := bodies + [read.body];
      }
      unread := read.unread;
    }
  }

  /** A backend's output: packets, and lines that announce no length. */
  datatype Item = Packet(body: Bytes) | Noise(line: Bytes)

  predicate Printable(item: Item) {
    match item
    case Packet(body) => |body| <= MAX_INT
    case Noise(line) => NoLF(line) && ContentLength(line).None?
  }

  function ItemWire(item: Item): Bytes {
    match item
    case Packet(body) => FormatPacket(body)
    case Noise(line) => line + [LF]
  }

  function Wire(items: seq<Item>): Bytes {
    if items == [] then [] else ItemWire(items[0]) + Wire(items[1..])
  }

  function ItemBodies(item: Item): seq<Bytes> {
    if item.Packet? && item.body != [] then [item.body] else []
  }

  /** The non-empty packet bodies, in order. */
  function Bodies(items: seq<Item>): seq<Bytes> {
    if items == [] then [] else ItemBodies(items[0]) + Bodies(items[1..])
  }

  /** The leading items whose bytes lie entirely within the first `k` bytes of the wire. */
  function Arrived(items: seq<Item>, k: nat): seq<Item> {
    if items == [] || k < |ItemWire(items[0])| then []
    else [items[0]] + Arrived(items[1..], k - |ItemWire(items[0])|)
  }

  lemma {:induction false} DecimalIsDigits(n: nat)
    ensures |Decimal(n)| > 0
    ensures forall k | 0 <= k < |Decimal(n)| :: IsDigit(Decimal(n)[k])
    ensures DigitsValue(Decimal(n)) == Some(n)
  {
    if n >= 10 {
      DecimalIsDigits(n / 10);
      var d := Decimal(n);
      assert d[..|d| - 1] == Decimal(n / 10);
    }
  }

  lemma {:induction false} TrimEndKeeps(s: Bytes)
    requires |s| > 0 && s[|s| - 1] != CR && s[|s| - 1] != LF
    ensures TrimEnd(s) == s
    ensures TrimEnd(s + [CR]) == s
  {
    assert (s + [CR])[..|s|] == s;
  }

  /** The header line that the printer writes announces the length of the body. */
  lemma HeaderAnnounces(n: nat)
    requires n <= MAX_INT
    ensures ContentLength(HEADER + Decimal(n) + [CR]) == if n > 0 then Some(n) else None
  {
    DecimalIsDigits(n);
    var d := Decimal(n);
    var line := HEADER + d;
    assert line[|line| - 1] == d[|d| - 1];
    assert d[|d| - 1] in d && d[0] in d;
    TrimEndKeeps(line);
    assert TrimEnd(line + [CR]) == line;
    assert line[|HEADER|..] == d;
    assert TrimSpaceLeft(d) == d && TrimSpaceRight(d) == d;
  }

  lemma HeaderLine(n: nat)
    ensures NoLF(HEADER + Decimal(n) + [CR])
  {
    DecimalIsDigits(n);
  }

  lemma TurnOf(line: Bytes, rest: Bytes)
    requires NoLF(line)
    ensures Turn(line + [LF] + rest) == Delivery(ContentLength(line), rest)
  {
    FirstLine(line, rest);
  }

  lemma DeliverBody(body: Bytes, tail: Bytes)
    ensures Delivery(Some(|body|), [CR] + [LF] + (body + tail)) == Deliver(body, tail)
  {
    FirstLine([CR], body + tail);
    assert (body + tail)[..|body|] == body && (body + tail)[|body|..] == tail;
  }

  lemma PacketShape(body: Bytes, tail: Bytes)
    ensures FormatPacket(body) + tail == HEADER + Decimal(|body|) + [CR] + [LF] + ([CR] + [LF] + (body + tail))
  {
    Regroup(HEADER + Decimal(|body|), body, tail);
  }

  lemma Regroup(h: Bytes, body: Bytes, tail: Bytes)
    ensures h + [CR, LF, CR, LF] + body + tail == h + [CR] + [LF] + ([CR] + [LF] + (body + tail))
  {}

  lemma TurnPacket(body: Bytes, tail: Bytes)
    requires 0 < |body| <= MAX_INT
    ensures Turn(FormatPacket(body) + tail) == Deliver(body, tail)
  {
    HeaderLine(|body|);
    HeaderAnnounces(|body|);
    PacketShape(body, tail);
    TurnOf(HEADER + Decimal(|body|) + [CR], [CR] + [LF] + (body + tail));
    DeliverBody(body, tail);
  }

  lemma ParseNoise(line: Bytes, tail: Bytes)
    requires NoLF(line) && ContentLength(line).None?
    ensures Parse(line + [LF] + tail) == Parse(tail)
  {
    TurnOf(line, tail);
  }

  /** One packet, whatever follows it. */
  lemma ParsePacket(body: Bytes, tail: Bytes)
    requires |body| <= MAX_INT
    ensures Parse(FormatPacket(body) + tail) == ItemBodies(Packet(body)) + Parse(tail)
  {
    if body == [] {
      var head := HEADER + Decimal(0) + [CR];
      HeaderLine(0);
      HeaderAnnounces(0);
      PacketShape(body, tail);
      assert body + tail == tail;
      ParseNoise(head, [CR] + [LF] + tail);
      assert TrimEnd([CR]) == TrimEnd([CR][..0]) == [];
      ParseNoise([CR], tail);
    } else {
      TurnPacket(body, tail);
    }
  }

  lemma ParseItem(item: Item, tail: Bytes)
    requires Printable(item)
    ensures Parse(ItemWire(item) + tail) == ItemBodies(item) + Parse(tail)
  {
    match item
    case Packet(body) => ParsePacket(body, tail);
    case Noise(line) => ParseNoise(line, tail);
  }

  lemma Assoc(a: seq<Bytes>, b: seq<Bytes>, c: seq<Bytes>)
    ensures a + (b + c) == (a + b) + c
  {}

  /** Round trip: packets and noise parse back to exactly the non-empty bodies, in order. */
  lemma {:induction false} RoundTrip(items: seq<Item>, tail: Bytes)
    requires forall item | item in items :: Printable(item)
    ensures Parse(Wire(items) + tail) == Bodies(items) + Parse(tail)
  {
    if items == [] {
      assert Wire(items) + tail == tail;
    } else {
      var more := Wire(items[1..]) + tail;
      assert Wire(items) + tail == ItemWire(items[0]) + more;
      RoundTrip(items[1..], tail);
      ParseItem(items[0], more);
      Assoc(ItemBodies(items[0]), Bodies(items[1..]), Parse(tail));
    }
  }

  /** A packet cut short delivers nothing. */
  lemma CutPacket(body: Bytes, k: nat)
    requires |body| <= MAX_INT && k < |FormatPacket(body)|
    ensures Parse(FormatPacket(body)[..k]) == []
  {
    var head := HEADER + Decimal(|body|) + [CR];
    HeaderLine(|body|);
    HeaderAnnounces(|body|);
    var s := FormatPacket(body)[..k];
    if k <= |head| {
      assert s == head[..k];
      FirstLF(s, k);
    } else {
      var rest := ([CR, LF] + body)[..k - |head| - 1];
      assert s == head + [LF] + rest;
      FirstLine(head, rest);
      if body == [] {
        FirstLF(rest, |rest|);
        ParseNoise(head, rest);
      } else {
        CutBody(rest, body, k - |head| - 1);
      }
    }
  }

  lemma CutBody(rest: Bytes, body: Bytes, k: nat)
    requires body != [] && k < |body| + 2 && rest == ([CR, LF] + body)[..k]
    ensures |AfterLine(rest)| < |body|
  {
    if k < 2 {
      FirstLF(rest, k);
    } else {
      FirstLF(rest, 1);
    }
  }

  lemma CutNoise(line: Bytes, k: nat)
    requires NoLF(line) && k <= |line|
    ensures Parse((line + [LF])[..k]) == []
  {
    assert (line + [LF])[..k] == line[..k];
    FirstLF(line[..k], k);
  }

  lemma CutAppend(a: Bytes, b: Bytes, k: nat)
    requires k <= |a| + |b|
    ensures (a + b)[..k] == if k < |a| then a[..k] else a + b[..k - |a|]
  {}

  lemma CutItem(item: Item, k: nat)
    requires Printable(item) && k < |ItemWire(item)|
    ensures Parse(ItemWire(item)[..k]) == []
  {
    match item
    case Packet(body) => CutPacket(body, k);
    case Noise(line) => CutNoise(line, k);
  }

  /** Truncation: a cut stream delivers exactly the packets that arrived whole, and no partial one. */
  lemma {:induction false} CutStream(items: seq<Item>, k: nat)
    requires forall item | item in items :: Printable(item)
    requires k <= |Wire(items)|
    ensures Parse(Wire(items)[..k]) == Bodies(Arrived(items, k))
  {
    if items != [] {
      var first := ItemWire(items[0]);
      assert Printable(items[0]);
      CutAppend(first, Wire(items[1..]), k);
      if k < |first| {
        CutItem(items[0], k);
      } else {
        CutStream(items[1..], k - |first|);
        var more := Wire(items[1..])[..k - |first|];
        assert Arrived(items, k)[1..] == Arrived(items[1..], k - |first|);
        ParseItem(items[0], more);
      }
    }
  }

  /** More bytes never change a line that has ended. */
  lemma LineIsStable(s: Bytes, t: Bytes)
    requires IndexOfLF(s) < |s|
    ensures var i := IndexOfLF(s);
            IndexOfLF(s + t) == i && (s + t)[..i] == s[..i] && (s + t)[i + 1..] == s[i + 1..] + t
    ensures AfterLine(s + t) == AfterLine(s) + t
  {
    FirstLF(s + t, IndexOfLF(s));
  }

  /** The same turn with more bytes behind it. */
  function Followed(read: Read, t: Bytes): Read
    requires !read.Cut?
  {
    read.(unread := read.unread + t)
  }

  lemma DeliveryIsStable(announced: Option<nat>, rest: Bytes, t: Bytes)
    requires !Delivery(announced, rest).Cut? && announced != Some(0)
    ensures Delivery(announced, rest + t) == Followed(Delivery(announced, rest), t)
  {
    if announced.Some? {
      LineIsStable(rest, t);
      SliceIsStable(AfterLine(rest), t, announced.value);
    }
  }

  lemma SliceIsStable(s: Bytes, t: Bytes, n: nat)
    requires n <= |s|
    ensures (s + t)[..n] == s[..n] && (s + t)[n..] == s[n..] + t
  {}

  lemma SplitLine(s: Bytes, t: Bytes)
    requires IndexOfLF(s) < |s|
    ensures var i := IndexOfLF(s);
            s == s[..i] + [LF] + s[i + 1..] && s + t == s[..i] + [LF] + (s[i + 1..] + t)
  {
    var i := IndexOfLF(s);
    SplitAt(s, i);
    AppendAfter(s[..i], [LF], s[i + 1..], t);
  }

  lemma SplitAt(s: Bytes, i: nat)
    requires i < |s|
    ensures s == s[..i] + [s[i]] + s[i + 1..]
  {}

  lemma AppendAfter(a: Bytes, b: Bytes, c: Bytes, d: Bytes)
    ensures a + b + c + d == a + b + (c + d)
  {}

  /** More bytes never change a turn that has completed. */
  lemma TurnIsStable(s: Bytes, t: Bytes)
    requires !Turn(s).Cut?
    ensures Turn(s + t) == Followed(Turn(s), t)
  {
    var i := IndexOfLF(s);
    var line, rest := s[..i], s[i + 1..];
    SplitLine(s, t);
    TurnOf(line, rest + t);
    DeliveryIsStable(ContentLength(line), rest, t);
  }

  /** Any stream at all: what a truncation delivers is a prefix of what the stream delivers. */
  lemma {:induction false} TruncationIsPrefix(s: Bytes, t: Bytes)
    ensures Parse(s) <= Parse(s + t)
    decreases |s|
  {
    if !Turn(s).Cut? {
      TurnIsStable(s, t);
      TruncationIsPrefix(Turn(s).unread, t);
    }
  }

  // ---------- The bytes on the wire ----------

  /** The bytes of an ASCII text. */
  function Ascii(s: string): Bytes
    requires forall i | 0 <= i < |s| :: s[i] as int < 128
  {
    seq(|s|, i requires 0 <= i < |s| => s[i] as int as Byte)
  }

  lemma HeaderSpells()
    ensures HEADER == Ascii("Content-Length: ")
  {}

  /** A packet is the header with the length in decimal, a carriage return and line feed twice, and the body. */
  lemma PacketOnTheWire()
    ensures FormatPacket(Ascii("{}")) == Ascii("Content-Length: 2\r\n\r\n{}")
  {
    HeaderSpells();
    assert Decimal(2) == [50];
  }

  /** Only a line that starts with the header announces a length. */
  lemma OnlyHeadersAnnounce(line: Bytes)
    ensures ContentLength(line).Some? ==> HEADER <= line
  {
    TrimEndShape(line);
  }

  predicate Blank(s: Bytes) {
    forall k | 0 <= k < |s| :: s[k] == 32 || s[k] == 9
  }

  lemma {:induction false} TrimLeftBlank(blank: Bytes, s: Bytes)
    requires Blank(blank) && s != [] && !IsSpace(s[0])
    ensures TrimSpaceLeft(blank + s) == s
  {
    if blank == [] {
      assert blank + s == s;
    } else {
      assert (blank + s)[1..] == blank[1..] + s;
      TrimLeftBlank(blank[1..], s);
    }
  }

  lemma {:induction false} TrimRightBlank(s: Bytes, blank: Bytes)
    requires Blank(blank) && s != [] && !IsSpace(s[|s| - 1])
    ensures TrimSpaceRight(s + blank) == s
  {
    if blank == [] {
      assert s + blank == s;
    } else {
      var n := |blank| - 1;
      assert (s + blank)[..|s| + n] == s + blank[..n];
      TrimRightBlank(s, blank[..n]);
    }
  }

  /** Blanks around the number do not matter. */
  lemma BlanksAreIgnored(n: nat, left: Bytes, right: Bytes)
    requires 0 < n <= MAX_INT && Blank(left) && Blank(right)
    ensures ContentLength(HEADER + (left + (Decimal(n) + right)) + [CR]) == Some(n)
  {
    DecimalIsDigits(n);
    var d := Decimal(n);
    assert d[0] in d && d[|d| - 1] in d;
    var field := left + (d + right);
    assert field[|field| - 1] == (d + right)[|d + right| - 1];
    assert (HEADER + field)[|HEADER + field| - 1] == field[|field| - 1];
    TrimEndKeeps(HEADER + field);
    assert (HEADER + field)[|HEADER|..] == field;
    TrimLeftBlank(left, d + right);
    TrimRightBlank(d, right);
  }

  /** A length is a run of digits, perhaps after a sign; a minus sign makes it negative, and so no length. */
  lemma {:induction false} NumbersAreDigits(s: Bytes)
    ensures DigitsValue(s).Some? ==> s != [] && forall k | 0 <= k < |s| :: IsDigit(s[k])
    ensures DigitsValue(s).Some? ==> DigitsValue(s).value >= 0
  {
    if |s| > 1 {
      NumbersAreDigits(s[..|s| - 1]);
    }
  }

  lemma SignsByName(n: int)
    requires 0 <= n <= MAX_INT
    ensures Atoi(Decimal(n)) == Atoi([PLUS] + Decimal(n)) == Some(n)
    ensures Atoi([MINUS] + Decimal(n)) == Some(-n)
  {
    DecimalIsDigits(n);
    var d := Decimal(n);
    assert d[0] in d;
    assert ([PLUS] + d)[1..] == d && ([MINUS] + d)[1..] == d;
  }

  // ---------- Newline framing ----------

  function LineMessages(line: Bytes): seq<Bytes> {
    if TrimEnd(line) == [] then [] else [TrimEnd(line)]
  }

  /** The messages that a newline-framed stream delivers: trimmed, empty lines dropped. */
  function ParseLines(s: Bytes): seq<Bytes>
    decreases |s|
  {
    var i := IndexOfLF(s);
    if i == |s| then [] else LineMessages(s[..i]) + ParseLines(AfterLine(s))
  }

  /** captureStdout: the read loop delivers exactly what the stream means. */
  method CaptureLines(stream: Bytes) returns (messages: seq<Bytes>)
    ensures messages == ParseLines(stream)
  {
    messages := [];
    var unread := stream;
    while true
      invariant messages + ParseLines(unread) == ParseLines(stream)
      decreases |unread|
    {
      var line, rest, eof := ReadLine(unread);
      if eof {
        break;
      }
      Assoc(messages, LineMessages(line), ParseLines(rest));
      ghost var before := messages;
      var data := TrimEnd(line);
      if |data| != 0 {
        messages := messages + [data];
      }
      assert messages == before + LineMessages(line);
      unread := rest;
    }
  }

  function Lines(messages: seq<Bytes>): Bytes {
    if messages == [] then [] else messages[0] + [LF] + Lines(messages[1..])
  }

  /** What newline framing can carry. */
  predicate LineSafe(message: Bytes) {
    message != [] && NoLF(message) && message[|message| - 1] != CR
  }

  lemma {:induction false} TrimEndShape(s: Bytes)
    ensures TrimEnd(s) <= s
    ensures TrimEnd(s) != [] ==> TrimEnd(s)[|TrimEnd(s)| - 1] != CR
  {
    if |s| > 0 && (s[|s| - 1] == CR || s[|s| - 1] == LF) {
      TrimEndShape(s[..|s| - 1]);
    }
  }

  lemma {:induction false} MessagesAreLineSafe(s: Bytes)
    ensures forall m | m in ParseLines(s) :: LineSafe(m)
    decreases |s|
  {
    var i := IndexOfLF(s);
    if i < |s| {
      TrimEndShape(s[..i]);
      MessagesAreLineSafe(AfterLine(s));
    }
  }

  /** Any number of line-safe messages come back in order, followed by what the rest delivers. */
  lemma {:induction false} LinesRoundTrip(messages: seq<Bytes>, tail: Bytes)
    requires forall m | m in messages :: LineSafe(m)
    ensures ParseLines(Lines(messages) + tail) == messages + ParseLines(tail)
  {
    if messages == [] {
      assert Lines(messages) + tail == tail;
    } else {
      var m := messages[0];
      assert m in messages;
      AppendAfter(m, [LF], Lines(messages[1..]), tail);
      LineThenRest(m, Lines(messages[1..]) + tail);
      LinesRoundTrip(messages[1..], tail);
      Assoc([m], messages[1..], ParseLines(tail));
      assert messages == [m] + messages[1..];
    }
  }

  lemma LineThenRest(m: Bytes, rest: Bytes)
    requires LineSafe(m)
    ensures ParseLines(m + [LF] + rest) == [m] + ParseLines(rest)
  {
    FirstLine(m, rest);
    TrimEndKeeps(m);
  }

  /** Newline framing carries one message unchanged exactly when the message is line safe. */
  lemma LineRoundTrip(message: Bytes)
    ensures ParseLines(message + [LF]) == [message] <==> LineSafe(message)
  {
    MessagesAreLineSafe(message + [LF]);
    if LineSafe(message) {
      LinesRoundTrip([message], []);
      assert Lines([message]) + [] == message + [LF];
      assert ParseLines([]) == [];
    } else {
      assert message !in ParseLines(message + [LF]);
      assert message in [message];
    }
  }
}
