/** The file protocol over two reliable byte streams: newline-framed control messages towards the
    server, the file towards the client, and the completion handshake. */
module FileTransfer {
  import opened Datagrams
  import opened Sequences

  const NEWLINE: byte := 10
  const MAX_REQUEST_SIZE: nat := 64 * 1024

  // ---------------------------------------------------------------------------------------------
  // Framing.

  /** Position of the first newline, or the length. */
  function Find(data: seq<byte>): (p: nat)
    ensures p <= |data| && (p < |data| ==> data[p] == NEWLINE)
    ensures forall i :: 0 <= i < p ==> data[i] != NEWLINE
  {
    if data == [] || data[0] == NEWLINE then 0 else 1 + Find(data[1..])
  }

  lemma FindIs(data: seq<byte>, p: nat)
    requires p < |data| && data[p] == NEWLINE && forall i :: 0 <= i < p ==> data[i] != NEWLINE
    ensures Find(data) == p
  {
  }

  /** What is read later does not move a newline that is already there. */
  lemma {:induction false} FindStable(front: seq<byte>, more: seq<byte>)
    ensures Find(front) < |front| ==> Find(front + more) == Find(front)
    ensures Find(front) == |front| ==> Find(front + more) >= |front|
  {
    if front != [] && front[0] != NEWLINE {
      FindStable(front[1..], more);
      assert (front + more)[1..] == front[1..] + more;
    }
  }

  datatype Line = Line(text: seq<byte>, rest: seq<byte>) | TooLarge(kept: seq<byte>) | Ended(kept: seq<byte>) | TimedOut

  /** What _receiveClientLine does with the bytes already buffered and the results of the coming
      receive() calls; `rest` and `kept` are all the bytes that are left for later. */
  ghost function ReadLine(buffer: seq<byte>, incoming: seq<seq<byte>>): Line
    decreases |incoming|
  {
    var p := Find(buffer);
    if p < |buffer| then Line(buffer[..p], buffer[p + 1..] + Join(incoming))
    else if |buffer| > MAX_REQUEST_SIZE then TooLarge(buffer + Join(incoming))
    else if incoming == [] then Ended(buffer)
    else ReadLine(buffer + incoming[0], incoming[1..])
  }

  lemma NextChunk(chunks: seq<seq<byte>>, k: nat)
    requires k < |chunks|
    ensures Join(chunks[..k + 1]) == Join(chunks[..k]) + chunks[k]
  {
    assert chunks[..k + 1] == chunks[..k] + [chunks[k]];
    JoinAppend(chunks[..k], [chunks[k]]);
    JoinOne(chunks[k]);
  }

  class ControlStream {
    var clientBuffer: seq<byte>
    var incoming: seq<seq<byte>>

    constructor (incoming: seq<seq<byte>>)
      ensures clientBuffer == [] && this.incoming == incoming
    {
      clientBuffer := [];
      this.incoming := incoming;
    }

    ghost function Contents(): seq<byte>
      reads this
    {
      clientBuffer + Join(incoming)
    }

    /** `patience` is how many receive() calls fit before the deadline.  No outcome loses a byte. */
    method ReceiveClientLine(patience: nat) returns (r: Line)
      modifies this
      ensures !r.TimedOut? ==> r == ReadLine(old(clientBuffer), old(incoming))
      ensures r.TimedOut? ==> patience < |old(incoming)| && Contents() == old(Contents())
      // A timeout means that everything received in time holds no whole line and is not too much.
      ensures r.TimedOut? ==>
        && clientBuffer == old(clientBuffer) + Join(old(incoming)[..patience])
        && NEWLINE !in clientBuffer && |clientBuffer| <= MAX_REQUEST_SIZE
      ensures r.Line? ==> r.text + [NEWLINE] + Contents() == old(Contents()) && r.rest == Contents()
      ensures r.TooLarge? || r.Ended? ==> Contents() == old(Contents()) == r.kept
    {
      hide Join;
      var left := patience;
      JoinHead([]);
      ghost var start, chunks := clientBuffer, incoming;
      assert start + [] == start && chunks[..0] == [] && chunks[0..] == chunks;
      while true
        invariant ReadLine(clientBuffer, incoming) == ReadLine(old(clientBuffer), old(incoming))
        invariant Contents() == old(Contents())
        invariant |incoming| + patience == |old(incoming)| + left && left <= patience
        invariant incoming == chunks[patience - left..]
        invariant clientBuffer == start + Join(chunks[..patience - left])
        decreases |incoming|
      {
        var newline := Find(clientBuffer);
        if newline < |clientBuffer| {
          var line := clientBuffer[..newline];
          ghost var before := clientBuffer;
          clientBuffer := clientBuffer[newline + 1..];
          assert before == line + [NEWLINE] + clientBuffer;
          assert line + [NEWLINE] + (clientBuffer + Join(incoming)) == before + Join(incoming);
          return Line(line, clientBuffer + Join(incoming));
        }
        if |clientBuffer| > MAX_REQUEST_SIZE {
          return TooLarge(clientBuffer + Join(incoming));
        }
        if incoming == [] {
          assert clientBuffer + [] == clientBuffer;
          return Ended(clientBuffer);
        }
        if left == 0 {
          return TimedOut;
        }
        left := left - 1;
        NextChunk(chunks, patience - left - 1);
        Regroup(start, Join(chunks[..patience - left - 1]), incoming[0]);
        JoinHead(incoming);
        Regroup(clientBuffer, incoming[0], Join(incoming[1..]));
        clientBuffer, incoming := clientBuffer + incoming[0], incoming[1..];
      }
    }
  }

  /** A line within the limit comes out the same for every chunking, and so do all later bytes. */
  lemma {:induction false} FramingWithinLimit(buffer: seq<byte>, incoming: seq<seq<byte>>)
    requires var all := buffer + Join(incoming); Find(all) < |all| && Find(all) <= MAX_REQUEST_SIZE
    ensures var all := buffer + Join(incoming);
            ReadLine(buffer, incoming) == Line(all[..Find(all)], all[Find(all) + 1..])
    decreases |incoming|
  {
    var all := buffer + Join(incoming);
    var p := Find(buffer);
    FindStable(buffer, Join(incoming));
    if p < |buffer| {
      assert all[..p] == buffer[..p] && all[p + 1..] == buffer[p + 1..] + Join(incoming);
    } else if incoming != [] {
      assert all == (buffer + incoming[0]) + Join(incoming[1..]);
      FramingWithinLimit(buffer + incoming[0], incoming[1..]);
    }
  }

  /** Without a newline every chunking ends the same way. */
  lemma {:induction false} FramingWithoutLine(buffer: seq<byte>, incoming: seq<seq<byte>>)
    requires var all := buffer + Join(incoming); Find(all) == |all|
    ensures var all := buffer + Join(incoming);
            ReadLine(buffer, incoming) == if |all| > MAX_REQUEST_SIZE then TooLarge(all) else Ended(all)
    decreases |incoming|
  {
    FindStable(buffer, Join(incoming));
    if |buffer| <= MAX_REQUEST_SIZE && incoming != [] {
      assert buffer + Join(incoming) == (buffer + incoming[0]) + Join(incoming[1..]);
      FramingWithoutLine(buffer + incoming[0], incoming[1..]);
    } else if incoming == [] {
      assert buffer + Join(incoming) == buffer;
    }
  }

  ghost predicate Chunking(incoming: seq<seq<byte>>, all: seq<byte>) {
    Join(incoming) == all
  }

  ghost predicate Independent(all: seq<byte>) {
    forall a, b :: Chunking(a, all) && Chunking(b, all) ==> ReadLine([], a) == ReadLine([], b)
  }

  /** The outcome depends on the bytes alone, not on how they are chunked, if and only if the first
      line is not longer than the limit. */
  lemma FramingIndependent(all: seq<byte>)
    ensures Independent(all) <==> Find(all) == |all| || Find(all) <= MAX_REQUEST_SIZE
  {
    hide ReadLine;
    if Find(all) == |all| || Find(all) <= MAX_REQUEST_SIZE {
      forall a, b | Chunking(a, all) && Chunking(b, all) ensures ReadLine([], a) == ReadLine([], b) {
        SameFraming(a, all);
        SameFraming(b, all);
      }
    } else {
      var a, b := LongLineDepends(all);
    }
  }

  /** A longer line is accepted when it comes in one piece and refused when it is split before its
      newline. */
  lemma LongLineDepends(all: seq<byte>) returns (whole: seq<seq<byte>>, parts: seq<seq<byte>>)
    requires MAX_REQUEST_SIZE < Find(all) < |all|
    ensures Chunking(whole, all) && Chunking(parts, all)
    ensures ReadLine([], whole).Line? && ReadLine([], parts).TooLarge?
  {
    hide ReadLine;
    var front, more := all[..Find(all)], all[Find(all)..];
    whole, parts := [all], [front, more];
    JoinOne(all);
    JoinTwo(front, more);
    assert front + more == all;
    WholeLine(all);
    SplitLine(front, more);
  }

  lemma SameFraming(a: seq<seq<byte>>, all: seq<byte>)
    requires Chunking(a, all) && (Find(all) == |all| || Find(all) <= MAX_REQUEST_SIZE)
    ensures ReadLine([], a) == if Find(all) < |all| then Line(all[..Find(all)], all[Find(all) + 1..])
                               else if |all| > MAX_REQUEST_SIZE then TooLarge(all) else Ended(all)
  {
    hide ReadLine; hide Join; hide Find;
    assert [] + Join(a) == all;
    if Find(all) < |all| {
      FramingWithinLimit([], a);
    } else {
      FramingWithoutLine([], a);
    }
  }

  lemma JoinTwo(a: seq<byte>, b: seq<byte>)
    ensures Join([a, b]) == a + b
  {
    assert [a, b][1..] == [b];
    JoinOne(b);
  }

  lemma WholeLine(all: seq<byte>)
    requires Find(all) < |all|
    ensures ReadLine([], [all]).Line?
  {
    assert [] + all == all;
  }

  lemma SplitLine(front: seq<byte>, more: seq<byte>)
    requires |front| > MAX_REQUEST_SIZE && Find(front) == |front|
    ensures ReadLine([], [front, more]).TooLarge?
  {
    assert [] + front == front;
  }

  // ---------------------------------------------------------------------------------------------
  // Control messages, in the form the client writes them.

  function ByteOf(c: char): byte {
    if c as int < 256 then c as int else 63
  }

  function Text(s: string): (t: seq<byte>)
    ensures |t| == |s|
  {
    seq(|s|, i requires 0 <= i < |s| => ByteOf(s[i]))
  }

  function Decimal(n: nat): (digits: seq<byte>)
    ensures digits != [] && forall i :: 0 <= i < |digits| ==> 48 <= digits[i] <= 57
  {
    if n < 10 then [(48 + n) as byte] else Decimal(n / 10) + [(48 + n % 10) as byte]
  }

  datatype Parsed = Number(value: nat) | Malformed

  function ParseDecimal(digits: seq<byte>): Parsed {
    if digits == [] then Malformed
    else
      var last := digits[|digits| - 1];
      if !(48 <= last <= 57) then Malformed
      else if |digits| == 1 then Number(last - 48)
      else
        match ParseDecimal(digits[..|digits| - 1])
        case Number(value) => Number(10 * value + last - 48)
        case Malformed => Malformed
  }

  lemma {:induction false} DecimalRoundTrip(n: nat)
    ensures ParseDecimal(Decimal(n)) == Number(n)
  {
    if n >= 10 {
      DecimalRoundTrip(n / 10);
      assert Decimal(n)[..|Decimal(n)| - 1] == Decimal(n / 10);
    }
  }

  const REQUEST_HEAD: string := "{\"protocol\":\"ffl-file/1\",\"offset\":"
  const COMPLETION_HEAD: string := "{\"protocol\":\"ffl-file/1\",\"status\":\"complete\",\"receivedBytes\":"

  /** A message is a fixed head, a number and a closing brace (byte 125). */
  function Message(head: string, n: nat): seq<byte> {
    Text(head) + Decimal(n) + [125]
  }

  function ParseMessage(head: string, line: seq<byte>): Parsed {
    if |line| > |head| && line[..|head|] == Text(head) && line[|line| - 1] == 125
    then ParseDecimal(line[|head|..|line| - 1]) else Malformed
  }

  lemma MessageRoundTrip(head: string, n: nat)
    ensures ParseMessage(head, Message(head, n)) == Number(n)
  {
    var line := Message(head, n);
    assert line[..|head|] == Text(head);
    assert line[|head|..|line| - 1] == Decimal(n);
    DecimalRoundTrip(n);
  }

  predicate OneLine(s: string) {
    '\n' !in s
  }

  /** A message is one line, so its newline is the first one. */
  lemma MessageIsOneLine(head: string, n: nat, more: seq<byte>)
    requires OneLine(head)
    ensures Find(Message(head, n) + [NEWLINE] + more) == |Message(head, n)|
  {
    var line := Message(head, n);
    var all := line + [NEWLINE] + more;
    forall i | 0 <= i < |line| ensures all[i] != NEWLINE {
      if i < |head| {
        assert line[i] == Text(head)[i] == ByteOf(head[i]);
        assert head[i] in head;
      } else if i < |line| - 1 {
        assert line[i] == Decimal(n)[i - |head|];
      }
    }
    FindIs(all, |line|);
  }

  lemma HeadsAreOneLine()
    ensures OneLine(REQUEST_HEAD) && OneLine(COMPLETION_HEAD)
  {
  }

  /** Numbers that Python's int() reads back: up to 4300 digits. */
  predicate Representable(n: nat) {
    |Decimal(n)| <= 4300
  }

  lemma MessageFits(head: string, n: nat)
    requires Representable(n) && |head| <= 1000
    ensures |Message(head, n)| <= MAX_REQUEST_SIZE
  {
  }

  // ---------------------------------------------------------------------------------------------
  // The two parties.  Bytes on their way are delivered in arbitrary pieces; timeouts and errors end
  // a run and are not steps.

  datatype Client = Connecting | Downloading | Completed

  datatype Server = AwaitRequest | Serving(offset: nat, chunks: seq<seq<byte>>) | AwaitCompletion(offset: nat)
                  | Served(offset: nat) | Failed

  /** `up` and `down` are the bytes sent and not delivered, `buffer` the server's _clientBuffer,
      `consumed` what the client's caller got. */
  datatype State = State(asked: nat, client: Client, server: Server, up: seq<byte>, buffer: seq<byte>,
                         down: seq<byte>, downFin: bool, sentBytes: nat, consumed: seq<byte>)

  datatype Step =
    | Request
    | ServerReceives(n: nat)
    | ServerReads
    | SendChunk
    | SendFin
    | ClientReceives(n: nat)
    | Complete

  predicate Init(s: State) {
    && s.client.Connecting? && s.server.AwaitRequest? && s.up == s.buffer == s.down == s.consumed == []
    && !s.downFin && s.sentBytes == 0
  }

  predicate AwaitsLine(s: State) {
    s.server.AwaitRequest? || s.server.AwaitCompletion?
  }

  /** The server looks at its buffer before it receives more: a line, or too much of one. */
  predicate Decides(s: State) {
    Find(s.buffer) < |s.buffer| || |s.buffer| > MAX_REQUEST_SIZE
  }

  predicate Enabled(s: State, step: Step) {
    match step
    case Request => s.client.Connecting?
    case ServerReceives(n) => AwaitsLine(s) && !Decides(s) && 0 < n <= |s.up|
    case ServerReads => AwaitsLine(s) && Decides(s)
    case SendChunk => s.server.Serving? && s.server.chunks != []
    case SendFin => s.server.Serving? && s.server.chunks == []
    case ClientReceives(n) => s.client.Downloading? && 0 < n <= |s.down|
    case Complete => s.client.Downloading? && s.down == [] && s.downFin
  }

  /** `content` is the chunkIterator of the server. */
  function Apply(content: nat -> seq<seq<byte>>, s: State, step: Step): State
    requires Enabled(s, step)
  {
    match step
    case Request => s.(client := Downloading, up := s.up + Message(REQUEST_HEAD, s.asked) + [NEWLINE])
    case ServerReceives(n) => s.(buffer := s.buffer + s.up[..n], up := s.up[n..])
    case ServerReads =>
      var p := Find(s.buffer);
      if p == |s.buffer| then s.(server := Failed)
      else s.(buffer := s.buffer[p + 1..], server := ServerAfter(content, s, s.buffer[..p]))
    case SendChunk =>
      var chunk := s.server.chunks[0];
      s.(server := s.server.(chunks := s.server.chunks[1..]), down := s.down + chunk, sentBytes := s.sentBytes + |chunk|)
    case SendFin => s.(server := AwaitCompletion(s.server.offset), downFin := true)
    case ClientReceives(n) => s.(consumed := s.consumed + s.down[..n], down := s.down[n..])
    case Complete =>
      s.(client := Completed, up := s.up + Message(COMPLETION_HEAD, |s.consumed|) + [NEWLINE])
  }

  /** _receiveRequest and _receiveCompletion on a whole line. */
  function ServerAfter(content: nat -> seq<seq<byte>>, s: State, line: seq<byte>): Server {
    if s.server.AwaitRequest? then
      match ParseMessage(REQUEST_HEAD, line)
      case Number(offset) => Serving(offset, content(offset))
      case Malformed => Failed
    else if s.server.AwaitCompletion? && ParseMessage(COMPLETION_HEAD, line) == Number(s.sentBytes)
    then Served(s.server.offset)
    else Failed
  }

  ghost function RequestLine(s: State): seq<byte> {
    Message(REQUEST_HEAD, s.asked) + [NEWLINE]
  }

  ghost function CompletionLine(s: State): seq<byte> {
    Message(COMPLETION_HEAD, |s.consumed|) + [NEWLINE]
  }

  /** Everything the client sent so far. */
  ghost function ClientSent(s: State): seq<byte> {
    match s.client
    case Connecting => []
    case Downloading => RequestLine(s)
    case Completed => RequestLine(s) + CompletionLine(s)
  }

  /** What the server has parsed of it. */
  ghost function ServerParsed(s: State): seq<byte> {
    match s.server
    case AwaitRequest => []
    case Serving(_, _) => RequestLine(s)
    case AwaitCompletion(_) => RequestLine(s)
    case Served(_) => RequestLine(s) + CompletionLine(s)
    case Failed => []
  }

  /** Control bytes are neither lost nor parsed twice. */
  ghost predicate ControlInv(s: State) {
    && !s.server.Failed?
    && ServerParsed(s) + (s.buffer + s.up) == ClientSent(s)
    && (s.server.Served? ==> s.client.Completed?)
    && (s.client.Connecting? ==> s.server.AwaitRequest?)
  }

  /** The chunks that the server still has to send. */
  ghost function Unsent(s: State): seq<seq<byte>> {
    if s.server.Serving? then s.server.chunks else []
  }

  /** File bytes: consumed, on their way, or still to be sent, they are the content at the offset
      that was asked for. */
  ghost predicate FileInv(content: nat -> seq<seq<byte>>, s: State) {
    && (s.server.AwaitRequest? ==> s.consumed == s.down == [] && s.sentBytes == 0)
    && (!s.server.AwaitRequest? && !s.server.Failed? ==>
         s.server.offset == s.asked && s.consumed + s.down + Join(Unsent(s)) == Join(content(s.asked)))
    && s.sentBytes == |s.consumed| + |s.down|
    && (s.downFin <==> s.server.AwaitCompletion? || s.server.Served?)
    && (s.client.Completed? ==> s.downFin && s.down == [])
  }

  ghost predicate Inv(content: nat -> seq<seq<byte>>, s: State) {
    ControlInv(s) && FileInv(content, s) && Representable(s.asked) && Representable(|Join(content(s.asked))|)
  }

  /** When the server decides, the line at the front of its buffer is the message the client sent. */
  lemma LineArrives(buffer: seq<byte>, up: seq<byte>, head: string, n: nat)
    requires buffer + up == Message(head, n) + [NEWLINE]
    requires OneLine(head) && |Message(head, n)| <= MAX_REQUEST_SIZE
    requires Find(buffer) < |buffer| || |buffer| > MAX_REQUEST_SIZE
    ensures Find(buffer) == |Message(head, n)| < |buffer|
    ensures buffer[..Find(buffer)] == Message(head, n) && buffer[Find(buffer) + 1..] == up == []
  {
    var line := Message(head, n);
    assert line + [NEWLINE] + [] == line + [NEWLINE];
    MessageIsOneLine(head, n, []);
    FindStable(buffer, up);
    assert |buffer| == |line| + 1 && up == [];
    assert buffer + up == buffer;
    assert buffer[..|line|] == line;
  }

  /** The server's control messages are the client's, and none is refused. */
  lemma ServerReadsWell(content: nat -> seq<seq<byte>>, s: State)
    requires Inv(content, s) && Enabled(s, ServerReads)
    ensures var s' := Apply(content, s, ServerReads);
            if s.server.AwaitRequest?
            then s' == s.(buffer := [], server := Serving(s.asked, content(s.asked))) && s.client.Downloading?
                 && s.up == []
            else s' == s.(buffer := [], server := Served(s.asked)) && s.client.Completed? && s.up == []
  {
    hide ParseMessage; hide Find; hide Message;
    HeadsAreOneLine();
    if s.server.AwaitRequest? {
      assert s.buffer != [] by { EmptyDecidesNothing(s); }
      MessageFits(REQUEST_HEAD, s.asked);
      LineArrives(s.buffer, s.up, REQUEST_HEAD, s.asked);
      MessageRoundTrip(REQUEST_HEAD, s.asked);
    } else {
      assert s.buffer != [] by { EmptyDecidesNothing(s); }
      Cancel(RequestLine(s), s.buffer + s.up, if s.client.Completed? then CompletionLine(s) else []);
      WholeContent(content, s);
      MessageFits(COMPLETION_HEAD, |s.consumed|);
      LineArrives(s.buffer, s.up, COMPLETION_HEAD, |s.consumed|);
      MessageRoundTrip(COMPLETION_HEAD, |s.consumed|);
    }
  }

  lemma EmptyDecidesNothing(s: State)
    requires Decides(s)
    ensures s.buffer != []
  {
  }

  /** Once the client saw the end, it has consumed the whole content. */
  lemma WholeContent(content: nat -> seq<seq<byte>>, s: State)
    requires FileInv(content, s) && s.client.Completed? && !s.server.Failed?
    ensures s.consumed == Join(content(s.asked)) && s.sentBytes == |s.consumed|
  {
    assert Join(Unsent(s)) == [];
    assert s.consumed + [] + [] == s.consumed;
  }

  lemma ControlStep(content: nat -> seq<seq<byte>>, s: State, step: Step)
    requires Inv(content, s) && Enabled(s, step)
    ensures ControlInv(Apply(content, s, step))
  {
    hide ParseMessage; hide Find; hide Message; hide Join;
    match step
    case Request =>
      assert s.buffer + s.up == [];
      assert [] + ([] + ([] + RequestLine(s))) == RequestLine(s);
      assert s.up + Message(REQUEST_HEAD, s.asked) + [NEWLINE] == [] + RequestLine(s);
    case ServerReceives(n) =>
      assert (s.buffer + s.up[..n]) + s.up[n..] == s.buffer + s.up;
    case ServerReads => ServerReadsWell(content, s);
    case SendChunk =>
    case SendFin =>
    case ClientReceives(_) =>
    case Complete =>
      var s' := Apply(content, s, Complete);
      assert s.buffer + s'.up == s.buffer + s.up + CompletionLine(s);
      assert ServerParsed(s) + (s.buffer + s.up + CompletionLine(s)) == ServerParsed(s) + (s.buffer + s.up) + CompletionLine(s);
  }

  lemma JoinHead(chunks: seq<seq<byte>>)
    ensures Join(chunks) == if chunks == [] then [] else chunks[0] + Join(chunks[1..])
  {
  }

  lemma Shift(a: seq<byte>, b: seq<byte>, c: seq<byte>, d: seq<byte>)
    ensures a + (b + c) + d == a + b + (c + d)
  {
  }

  lemma FileStep(content: nat -> seq<seq<byte>>, s: State, step: Step)
    requires Inv(content, s) && Enabled(s, step)
    ensures FileInv(content, Apply(content, s, step))
  {
    hide ParseMessage; hide Find; hide Message; hide Join;
    match step
    case Request =>
    case ServerReceives(_) =>
    case ServerReads => ServerReadsWell(content, s);
    case SendChunk =>
      JoinHead(s.server.chunks);
      Shift(s.consumed, s.down, s.server.chunks[0], Join(s.server.chunks[1..]));
    case SendFin => JoinHead([]);
    case ClientReceives(n) =>
      assert (s.consumed + s.down[..n]) + s.down[n..] == s.consumed + s.down;
    case Complete =>
  }

  ghost predicate Next(content: nat -> seq<seq<byte>>, s: State, s': State) {
    exists step :: Enabled(s, step) && s' == Apply(content, s, step)
  }

  ghost predicate Run(content: nat -> seq<seq<byte>>, states: seq<State>) {
    && states != [] && Init(states[0])
    && forall k :: 0 < k < |states| ==> Next(content, states[k - 1], states[k])
  }

  /** On every run the server never refuses a message of the client. */
  lemma {:induction false} EveryRun(content: nat -> seq<seq<byte>>, states: seq<State>, k: nat)
    requires Run(content, states) && k < |states|
    requires Representable(states[0].asked) && Representable(|Join(content(states[0].asked))|)
    ensures Inv(content, states[k]) && states[k].asked == states[0].asked
  {
    hide Inv; hide Next;
    if k == 0 {
      InvInit(content, states[0]);
    } else {
      EveryRun(content, states, k - 1);
      assert Next(content, states[k - 1], states[k]);
      InvNext(content, states[k - 1], states[k]);
    }
  }

  lemma InvInit(content: nat -> seq<seq<byte>>, s: State)
    requires Init(s) && Representable(s.asked) && Representable(|Join(content(s.asked))|)
    ensures Inv(content, s)
  {
    hide Join;
  }

  lemma InvNext(content: nat -> seq<seq<byte>>, s: State, s': State)
    requires Inv(content, s) && Next(content, s, s')
    ensures Inv(content, s') && s'.asked == s.asked
  {
    hide ControlInv; hide FileInv; hide Find; hide Message; hide ParseMessage; hide Join;
    var step :| Enabled(s, step) && s' == Apply(content, s, step);
    ControlStep(content, s, step);
    FileStep(content, s, step);
  }

  /** serve returns only after the client consumed exactly the bytes of chunkIterator(offset), for
      the offset it asked for; the count it confirmed is the number of bytes sent. */
  lemma ServedMeansConsumed(content: nat -> seq<seq<byte>>, states: seq<State>, k: nat)
    requires Run(content, states) && k < |states|
    requires Representable(states[0].asked) && Representable(|Join(content(states[0].asked))|)
    ensures !states[k].server.Failed?
    ensures states[k].server.Served? ==>
      && states[k].server.offset == states[0].asked && states[k].client.Completed?
      && states[k].consumed == Join(content(states[0].asked)) && states[k].sentBytes == |states[k].consumed|
  {
    EveryRun(content, states, k);
    if states[k].server.Served? {
      WholeContent(content, states[k]);
    }
  }

  /** And no run gets stuck before that: some party can always go on. */
  lemma NeverStuck(content: nat -> seq<seq<byte>>, s: State) returns (step: Step)
    requires Inv(content, s) && !s.server.Served?
    ensures Enabled(s, step)
  {
    hide Message; hide Find;
    if s.client.Connecting? {
      step := Request;
    } else if s.server.Serving? {
      step := if s.server.chunks == [] then SendFin else SendChunk;
    } else if Decides(s) {
      step := ServerReads;
    } else if s.up != [] {
      step := ServerReceives(|s.up|);
    } else {
      if s.server.AwaitRequest? || s.client.Completed? {
        NoLineWaits(s);
      }
      step := if s.down == [] then Complete else ClientReceives(|s.down|);
    }
  }

  /** A message that arrived whole makes the server decide. */
  lemma NoLineWaits(s: State)
    requires ControlInv(s) && AwaitsLine(s) && s.up == []
    requires if s.server.AwaitRequest? then s.client.Downloading? else s.client.Completed?
    ensures Decides(s)
  {
    HeadsAreOneLine();
    assert s.buffer + s.up == s.buffer;
    if s.server.AwaitRequest? {
      assert [] + (s.buffer + s.up) == s.buffer;
      assert RequestLine(s) + [] == RequestLine(s);
      MessageIsOneLine(REQUEST_HEAD, s.asked, []);
    } else {
      Cancel(RequestLine(s), s.buffer, CompletionLine(s));
      assert CompletionLine(s) + [] == CompletionLine(s);
      MessageIsOneLine(COMPLETION_HEAD, |s.consumed|, []);
    }
  }
}
