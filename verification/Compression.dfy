/** The buffering gzip writer (internal/middleware/compression.go).

    `Response` is the abstract state of one response: everything written so far and what has
    been decided about it. The class keeps the program's fields and a model of the underlying
    http.ResponseWriter, and is proved against the functions on `Response`; the theorems are
    about every sequence of calls a handler can make. The compressor is abstract: its output
    for a list of writes decodes to their concatenation once its trailer has been written. */
module Compression {
  import opened Digits

  newtype byte = x: int | 0 <= x < 0x100

  /** What the status line and the header block say when they are sent. */
  datatype Head = Head(status: int, gzip: bool, length: string)

  // ------------------------------------------------------------------ specification

  /** Nothing sent yet; header sent without compression; compressing. */
  datatype Stage = Deciding(status: int) | PlainHead(head: Head) | Zipping(head: Head)

  /** `length` is the Content-Length entry of the header map, "" when absent. */
  datatype Response = Response(threshold: nat, length: string, stage: Stage, written: seq<byte>)

  const STATUS_OK: int := 200

  function Fresh(threshold: nat, length: string): Response {
    Response(threshold, length, Deciding(STATUS_OK), [])
  }

  /** The size a parsable Content-Length declares. */
  function DeclaredSize(length: string): Option<int> {
    if length == "" then None else Atoi(length)
  }

  /** Compression starts; a header that was already sent stays as it was. */
  function Zip(r: Response): Response {
    match r.stage
    case Deciding(status) => r.(length := "", stage := Zipping(Head(status, true, "")))
    case PlainHead(head) => r.(length := "", stage := Zipping(head))
    case Zipping(_) => r
  }

  function AfterWrite(r: Response, b: seq<byte>): Response {
    var r' := r.(written := r.written + b);
    if |r'.written| > r.threshold then Zip(r') else r'
  }

  function AfterWriteHeader(r: Response, status: int): Response {
    if !r.stage.Deciding? then r
    else
      match DeclaredSize(r.length)
      case None => r.(stage := Deciding(status))
      case Some(size) =>
        if size > r.threshold then Zip(r.(stage := Deciding(status)))
        else r.(stage := PlainHead(Head(status, false, r.length)))
  }

  /** What a handler can do with its response. */
  datatype Op = Write(data: seq<byte>) | WriteHeader(status: int) | SetLength(length: string)

  function After(r: Response, op: Op): Response {
    match op
    case Write(data) => AfterWrite(r, data)
    case WriteHeader(status) => AfterWriteHeader(r, status)
    case SetLength(length) => r.(length := length)
  }

  function Run(r: Response, ops: seq<Op>): Response
    decreases ops
  {
    if ops == [] then r else Run(After(r, ops[0]), ops[1..])
  }

  /** What the client gets once the handler is done: the header, and a body that is all plain
      or all compressed. */
  datatype Sent = Sent(head: Head, zipped: bool, data: seq<byte>)

  function Closed(r: Response): Sent {
    match r.stage
    case Deciding(status) => Sent(Head(status, false, r.length), false, r.written)
    case PlainHead(head) => Sent(head, false, r.written)
    case Zipping(head) => Sent(head, true, r.written)
  }

  // ---------------------------------------------------------------------- the wire

  /** What leaves the server, in order: header blocks, plain bytes, compressor output. */
  datatype Item = StatusLine(head: Head) | Plain(data: seq<byte>) | Zipped(data: seq<byte>) | Trailer

  function Data(item: Item): seq<byte> {
    if item.Plain? || item.Zipped? then item.data else []
  }

  /** The bytes a client makes of the pieces it gets, decompressing the compressed ones. */
  function Decode(wire: seq<Item>): seq<byte> {
    if wire == [] then [] else Decode(wire[..|wire| - 1]) + Data(wire[|wire| - 1])
  }

  lemma DecodeAppend(wire: seq<Item>, item: Item)
    ensures Decode(wire + [item]) == Decode(wire) + Data(item)
  {
    assert (wire + [item])[..|wire|] == wire;
  }

  lemma DecodeHeader(item: Item)
    requires item.StatusLine?
    ensures Decode([item]) == []
  {
    assert [item][..0] == [];
  }

  /** The status line is sent once, before everything else. */
  predicate OneHeader(wire: seq<Item>) {
    && wire != [] && wire[0].StatusLine?
    && forall i :: 1 <= i < |wire| ==> !wire[i].StatusLine?
  }

  predicate AllPlain(wire: seq<Item>) {
    forall i :: 1 <= i < |wire| ==> wire[i].Plain?
  }

  /** A compressed body: only compressed pieces, and the compressor's trailer at the end. */
  predicate AllZipped(wire: seq<Item>) {
    && |wire| >= 2 && wire[|wire| - 1].Trailer?
    && forall i :: 1 <= i < |wire| - 1 ==> wire[i].Zipped?
  }

  /** The wire carries `sent`: one header block first, then a body of one kind. */
  predicate Delivers(wire: seq<Item>, sent: Sent) {
    && OneHeader(wire) && wire[0].head == sent.head
    && (if sent.zipped then AllZipped(wire) else AllPlain(wire))
    && Decode(wire) == sent.data
    && (!sent.zipped ==> |wire| == if sent.data == [] then 1 else 2)
  }

  /** The wire of a response whose handler made these calls; `Serve` makes it. */
  predicate Answers(wire: seq<Item>, threshold: nat, length: string, ops: seq<Op>) {
    Delivers(wire, Closed(Run(Fresh(threshold, length), ops)))
  }

  // ---------------------------------------------------------------------- theorems

  function Total(ops: seq<Op>): seq<byte> {
    if ops == [] then []
    else (if ops[0].Write? then ops[0].data else []) + Total(ops[1..])
  }

  lemma {:induction false} RunWritesAll(r: Response, ops: seq<Op>)
    ensures Run(r, ops).written == r.written + Total(ops) && Run(r, ops).threshold == r.threshold
    decreases ops
  {
    if ops == [] {
      assert r.written + [] == r.written;
    } else {
      RunWritesAll(After(r, ops[0]), ops[1..]);
      var first := if ops[0].Write? then ops[0].data else [];
      assert After(r, ops[0]).written == r.written + first;
      assert (r.written + first) + Total(ops[1..]) == r.written + (first + Total(ops[1..]));
    }
  }

  /** Compression is transparent: for any sequence of calls one status line goes out before
      any byte, the body is all plain or all compressed, and decodes to what was written. */
  lemma DecodesToWhatWasWritten(wire: seq<Item>, threshold: nat, length: string, ops: seq<Op>)
    requires Answers(wire, threshold, length, ops)
    ensures OneHeader(wire)
    ensures AllPlain(wire) != AllZipped(wire)
    ensures Decode(wire) == Total(ops)
  {
    RunWritesAll(Fresh(threshold, length), ops);
    assert [] + Total(ops) == Total(ops);
  }

  /** The size declared by the Content-Length in force at the WriteHeader call that settles
      the encoding, if a WriteHeader call does. */
  function SettledBy(r: Response, ops: seq<Op>): Option<int>
    decreases ops
  {
    if ops == [] || !r.stage.Deciding? then None
    else if ops[0].WriteHeader? && DeclaredSize(r.length).Some? then DeclaredSize(r.length)
    else SettledBy(After(r, ops[0]), ops[1..])
  }

  /** The stages as a run goes on, given what has been settled. */
  lemma {:induction false} ZippingStays(r: Response, ops: seq<Op>)
    requires r.stage.Zipping?
    ensures Run(r, ops).stage == r.stage
    decreases ops
  {
    if ops != [] {
      ZippingStays(After(r, ops[0]), ops[1..]);
    }
  }

  lemma {:induction false} PlainHeadZipsWhenLarge(r: Response, ops: seq<Op>)
    requires r.stage.PlainHead? && |r.written| <= r.threshold
    ensures Run(r, ops).stage
            == if |r.written + Total(ops)| > r.threshold then Zipping(r.stage.head) else PlainHead(r.stage.head)
    decreases ops
  {
    if ops != [] {
      var r1 := After(r, ops[0]);
      RunWritesAll(r, ops);
      RunWritesAll(r1, ops[1..]);
      assert r1.written + Total(ops[1..]) == r.written + Total(ops);
      if r1.stage.Zipping? {
        ZippingStays(r1, ops[1..]);
      } else {
        PlainHeadZipsWhenLarge(r1, ops[1..]);
      }
    }
  }

  lemma {:induction false} DecisionOfRun(r: Response, ops: seq<Op>)
    requires r.stage.Deciding? && |r.written| <= r.threshold
    ensures var end := Run(r, ops).stage;
            var large := |r.written + Total(ops)| > r.threshold;
            match SettledBy(r, ops)
            case None => if large then end.Zipping? && end.head.gzip else end.Deciding?
            case Some(size) =>
              if size > r.threshold then end.Zipping? && end.head.gzip
              else if large then end.Zipping? && !end.head.gzip
              else end.PlainHead? && !end.head.gzip
    ensures var end := Run(r, ops).stage; !end.Deciding? ==> (end.head.length == "" <==> end.head.gzip)
    decreases ops
  {
    if ops != [] {
      var r1 := After(r, ops[0]);
      RunWritesAll(r, ops);
      RunWritesAll(r1, ops[1..]);
      assert r1.written + Total(ops[1..]) == r.written + Total(ops);
      match r1.stage
      case Deciding(_) => DecisionOfRun(r1, ops[1..]);
      case PlainHead(_) => PlainHeadZipsWhenLarge(r1, ops[1..]);
      case Zipping(_) => ZippingStays(r1, ops[1..]);
    }
  }

  /** The body on the wire is compressed iff it is larger than the threshold, however it was
      chunked, except exactly when a WriteHeader call declared more than the threshold for a
      body that stayed within it. */
  lemma ZippedIffLarge(wire: seq<Item>, threshold: nat, length: string, ops: seq<Op>)
    requires Answers(wire, threshold, length, ops)
    ensures var settled := SettledBy(Fresh(threshold, length), ops);
            (AllZipped(wire) <==> |Total(ops)| > threshold)
            <==> !(settled.Some? && settled.value > threshold && |Total(ops)| <= threshold)
  {
    DecisionOfRun(Fresh(threshold, length), ops);
    assert [] + Total(ops) == Total(ops);
  }

  /** The Content-Encoding on the wire describes the body, and no Content-Length comes with a
      compressed one, except exactly when a WriteHeader call declared at most the threshold
      for a body that then exceeded it. */
  lemma EncodingMatchesBody(wire: seq<Item>, threshold: nat, length: string, ops: seq<Op>)
    requires Answers(wire, threshold, length, ops)
    ensures var settled := SettledBy(Fresh(threshold, length), ops);
            var lied := settled.Some? && settled.value <= threshold && |Total(ops)| > threshold;
            && ((wire[0].head.gzip <==> AllZipped(wire)) <==> !lied)
            && ((AllZipped(wire) ==> wire[0].head.length == "") <==> !lied)
  {
    DecisionOfRun(Fresh(threshold, length), ops);
    assert [] + Total(ops) == Total(ops);
  }

  /** With a Content-Length that is absent, unparsable or right, the response is right. */
  lemma HonestLengthsAreSafe(wire: seq<Item>, threshold: nat, length: string, ops: seq<Op>)
    requires Answers(wire, threshold, length, ops)
    requires var settled := SettledBy(Fresh(threshold, length), ops);
             settled.Some? ==> settled.value == |Total(ops)|
    ensures OneHeader(wire) && Decode(wire) == Total(ops)
    ensures AllZipped(wire) <==> |Total(ops)| > threshold
    ensures AllPlain(wire) <==> |Total(ops)| <= threshold
    ensures wire[0].head.gzip <==> AllZipped(wire)
    ensures AllZipped(wire) ==> wire[0].head.length == ""
  {
    DecodesToWhatWasWritten(wire, threshold, length, ops);
    ZippedIffLarge(wire, threshold, length, ops);
    EncodingMatchesBody(wire, threshold, length, ops);
  }

  /** A length that is absent, unparsable or right. */
  predicate Honest(length: string, total: nat) {
    DeclaredSize(length) == None || DeclaredSize(length) == Some(total)
  }

  predicate AllHonest(ops: seq<Op>, total: nat) {
    forall i :: 0 <= i < |ops| && ops[i].SetLength? ==> Honest(ops[i].length, total)
  }

  lemma {:induction false} HonestRun(r: Response, ops: seq<Op>, total: nat)
    requires Honest(r.length, total) && AllHonest(ops, total)
    requires !r.stage.Deciding? ==> Honest(r.stage.head.length, total)
    ensures var settled := SettledBy(r, ops); settled.Some? ==> settled.value == total
    ensures var end := Run(r, ops);
            Honest(end.length, total) && (!end.stage.Deciding? ==> Honest(end.stage.head.length, total))
    decreases ops
  {
    if ops != [] {
      HonestRun(After(r, ops[0]), ops[1..], total);
    }
  }

  /** When every Content-Length a handler sets is honest, so is the one the client gets, and
      it gets it with a plain body only. */
  lemma HonestLengthArrives(wire: seq<Item>, threshold: nat, length: string, ops: seq<Op>)
    requires Answers(wire, threshold, length, ops)
    requires Honest(length, |Total(ops)|) && AllHonest(ops, |Total(ops)|)
    ensures AllZipped(wire) <==> |Total(ops)| > threshold
    ensures wire[0].head.gzip <==> AllZipped(wire)
    ensures var declared := DeclaredSize(wire[0].head.length);
            declared.Some? ==> AllPlain(wire) && declared.value == |Decode(wire)|
  {
    HonestRun(Fresh(threshold, length), ops, |Total(ops)|);
    HonestLengthsAreSafe(wire, threshold, length, ops);
  }

  // the two dishonest cases, with a threshold of one byte

  /** One byte is declared and two are written: a compressed body under a header that
      announces one plain byte. */
  lemma TooSmallALengthMisleads(wire: seq<Item>)
    requires Answers(wire, 1, "1", [WriteHeader(STATUS_OK), Write([7, 7])])
    ensures AllZipped(wire) && wire[0] == StatusLine(Head(STATUS_OK, false, "1"))
  {
    OneDigit();
    var r := AfterWriteHeader(Fresh(1, "1"), STATUS_OK);
    var ops := [WriteHeader(STATUS_OK), Write([7, 7])];
    assert ops[1..] == [Write([7, 7])] && ops[1..][1..] == [];
    assert Run(Fresh(1, "1"), ops) == Run(AfterWrite(r, [7, 7]), []);
  }

  /** Two bytes are declared and one is written: a body within the threshold, compressed. */
  lemma TooLargeALengthCompresses(wire: seq<Item>)
    requires Answers(wire, 1, "2", [WriteHeader(STATUS_OK), Write([7])])
    ensures AllZipped(wire) && |Decode(wire)| == 1
  {
    OneDigit();
    var r := AfterWriteHeader(Fresh(1, "2"), STATUS_OK);
    var ops := [WriteHeader(STATUS_OK), Write([7])];
    assert ops[1..] == [Write([7])] && ops[1..][1..] == [];
    assert Run(Fresh(1, "2"), ops) == Run(AfterWrite(r, [7]), []);
  }

  lemma OneDigit()
    ensures DeclaredSize("1") == Some(1) && DeclaredSize("2") == Some(2)
  {
    assert "1"[..0] == "" && "2"[..0] == "";
    assert Value("1") == 1 && Value("2") == 2;
  }

  // ------------------------------------------------------------------------- status

  /** The last status a handler set, or the default. */
  function LastStatus(ops: seq<Op>): int {
    if ops == [] then STATUS_OK
    else if ops[|ops| - 1].WriteHeader? then ops[|ops| - 1].status
    else LastStatus(ops[..|ops| - 1])
  }

  lemma {:induction false} RunInTwo(r: Response, a: seq<Op>, b: seq<Op>)
    ensures Run(r, a + b) == Run(Run(r, a), b)
    decreases a
  {
    if a == [] {
      assert a + b == b;
    } else {
      assert (a + b)[0] == a[0] && (a + b)[1..] == a[1..] + b;
      RunInTwo(After(r, a[0]), a[1..], b);
    }
  }

  lemma RunOneMore(r: Response, ops: seq<Op>, op: Op)
    ensures Run(r, ops + [op]) == After(Run(r, ops), op)
  {
    RunInTwo(r, ops, [op]);
    assert [op][1..] == [];
  }

  lemma {:induction false} HeadStays(r: Response, ops: seq<Op>)
    requires !r.stage.Deciding?
    ensures Closed(Run(r, ops)).head == Closed(r).head
    decreases ops
  {
    if ops != [] {
      HeadStays(After(r, ops[0]), ops[1..]);
    }
  }

  /** While nothing has been sent, the status is the last one set. */
  lemma {:induction false} StatusSoFar(threshold: nat, length: string, ops: seq<Op>)
    requires Run(Fresh(threshold, length), ops).stage.Deciding?
    ensures Run(Fresh(threshold, length), ops).stage.status == LastStatus(ops)
    decreases |ops|
  {
    if ops != [] {
      var n := |ops| - 1;
      assert ops == ops[..n] + [ops[n]];
      RunOneMore(Fresh(threshold, length), ops[..n], ops[n]);
      StatusSoFar(threshold, length, ops[..n]);
    }
  }

  /** The header block is still to be sent after these calls. */
  predicate Undecided(threshold: nat, length: string, ops: seq<Op>) {
    SettledBy(Fresh(threshold, length), ops).None? && |Total(ops)| <= threshold
  }

  lemma UndecidedIsDeciding(threshold: nat, length: string, ops: seq<Op>)
    ensures Undecided(threshold, length, ops) <==> Run(Fresh(threshold, length), ops).stage.Deciding?
  {
    DecisionOfRun(Fresh(threshold, length), ops);
    assert [] + Total(ops) == Total(ops);
  }

  /** The status on the wire is the last one set up to the call that settles the encoding or
      exceeds the threshold, the `k`-th, and up to the end if none does; small writes before
      it do not fix the status. */
  lemma LastStatusWins(wire: seq<Item>, threshold: nat, length: string, ops: seq<Op>, k: nat)
    requires Answers(wire, threshold, length, ops)
    requires k <= |ops| && (k > 0 ==> Undecided(threshold, length, ops[..k - 1]))
    requires k < |ops| ==> !Undecided(threshold, length, ops[..k])
    ensures wire[0].head.status == LastStatus(ops[..k])
  {
    if Undecided(threshold, length, ops[..k]) {
      assert ops[..k] == ops;
      UndecidedIsDeciding(threshold, length, ops);
      StatusSoFar(threshold, length, ops);
    } else {
      HeaderSentBy(threshold, length, ops, k);
      UndecidedIsDeciding(threshold, length, ops[..k - 1]);
      StatusSoFar(threshold, length, ops[..k - 1]);
    }
  }

  /** The call that settles the encoding sends the header, which stays as it is. */
  lemma HeaderSentBy(threshold: nat, length: string, ops: seq<Op>, k: nat)
    requires 0 < k <= |ops| && Undecided(threshold, length, ops[..k - 1]) && !Undecided(threshold, length, ops[..k])
    ensures var r := Fresh(threshold, length);
            && Run(r, ops[..k]) == After(Run(r, ops[..k - 1]), ops[k - 1])
            && !Run(r, ops[..k]).stage.Deciding?
            && Run(r, ops) == Run(Run(r, ops[..k]), ops[k..])
            && Closed(Run(r, ops)).head == Closed(Run(r, ops[..k])).head
    ensures ops[..k][|ops[..k]| - 1] == ops[k - 1] && ops[..k][..|ops[..k]| - 1] == ops[..k - 1]
  {
    var r := Fresh(threshold, length);
    UndecidedIsDeciding(threshold, length, ops[..k]);
    assert ops[..k] == ops[..k - 1] + [ops[k - 1]];
    RunOneMore(r, ops[..k - 1], ops[k - 1]);
    assert ops == ops[..k] + ops[k..];
    RunInTwo(r, ops[..k], ops[k..]);
    HeadStays(Run(r, ops[..k]), ops[k..]);
  }

  /** The length a handler set last, or the one it found. */
  function LastLength(length: string, ops: seq<Op>): string {
    if ops == [] then length
    else if ops[|ops| - 1].SetLength? then ops[|ops| - 1].length
    else LastLength(length, ops[..|ops| - 1])
  }

  lemma {:induction false} LengthSoFar(threshold: nat, length: string, ops: seq<Op>)
    requires Run(Fresh(threshold, length), ops).stage.Deciding?
    ensures Run(Fresh(threshold, length), ops).length == LastLength(length, ops)
    decreases |ops|
  {
    if ops != [] {
      var n := |ops| - 1;
      assert ops == ops[..n] + [ops[n]];
      RunOneMore(Fresh(threshold, length), ops[..n], ops[n]);
      LengthSoFar(threshold, length, ops[..n]);
    }
  }

  lemma LengthOfHeader(threshold: nat, length: string, ops: seq<Op>, k: nat)
    requires 0 < k <= |ops| && Undecided(threshold, length, ops[..k - 1]) && !Undecided(threshold, length, ops[..k])
    ensures var end := Run(Fresh(threshold, length), ops[..k]);
            && (end.stage.Zipping? || (end.stage.PlainHead? && !end.stage.head.gzip))
            && Closed(end).head.length == if Closed(end).head.gzip then "" else LastLength(length, ops[..k])
  {
    HeaderSentBy(threshold, length, ops, k);
    UndecidedIsDeciding(threshold, length, ops[..k - 1]);
    LengthSoFar(threshold, length, ops[..k - 1]);
  }

  /** A length that is declared does arrive: a plain body comes with the Content-Length that
      was set last up to the call that sent the header block, the `k`-th, or to the end; a
      body that the header announces as compressed comes with none. */
  lemma LastLengthArrives(wire: seq<Item>, threshold: nat, length: string, ops: seq<Op>, k: nat)
    requires Answers(wire, threshold, length, ops)
    requires k <= |ops| && (k > 0 ==> Undecided(threshold, length, ops[..k - 1]))
    requires k < |ops| ==> !Undecided(threshold, length, ops[..k])
    ensures wire[0].head.length == if wire[0].head.gzip then "" else LastLength(length, ops[..k])
    ensures AllPlain(wire) ==> wire[0].head.length == LastLength(length, ops[..k])
  {
    if Undecided(threshold, length, ops[..k]) {
      assert ops[..k] == ops;
      UndecidedIsDeciding(threshold, length, ops);
      LengthSoFar(threshold, length, ops);
    } else {
      HeaderSentBy(threshold, length, ops, k);
      LengthOfHeader(threshold, length, ops, k);
      ZippedUnderItsHeader(Run(Fresh(threshold, length), ops[..k]), ops[k..]);
    }
  }

  /** A header that announces compression is followed by it. */
  lemma {:induction false} ZippedUnderItsHeader(r: Response, ops: seq<Op>)
    requires r.stage.Zipping? || (r.stage.PlainHead? && !r.stage.head.gzip)
    ensures Closed(Run(r, ops)).head.gzip ==> Closed(Run(r, ops)).zipped
    decreases ops
  {
    if ops != [] {
      ZippedUnderItsHeader(After(r, ops[0]), ops[1..]);
    }
  }

  // ------------------------------------------------------------------- the program

  /** The underlying http.ResponseWriter with the two header entries that matter. */
  class ResponseWriter {
    var length: string
    var encoding: string
    var wire: seq<Item>

    constructor (length: string)
      ensures this.length == length && encoding == "" && wire == []
    {
      this.length, encoding, wire := length, "", [];
    }

    /** Sends the header block as it is now. */
    method WriteHeader(status: int)
      modifies this`wire
      ensures wire == old(wire) + [StatusLine(Head(status, encoding == "gzip", length))]
    {
      wire := wire + [StatusLine(Head(status, encoding == "gzip", length))];
    }

    /** Sends a piece of the body; the first one sends a default header if none was sent. */
    method Send(item: Item)
      modifies this`wire
      ensures old(wire) != [] ==> wire == old(wire) + [item]
    {
      if wire == [] {
        WriteHeader(STATUS_OK);
      }
      wire := wire + [item];
    }
  }

  class GzipWriter {
    const w: ResponseWriter
    const threshold: nat
    var buffer: seq<byte>
    var started: bool
    var status: int
    var headers: bool

    ghost predicate Valid()
      reads this, w
    {
      && (started ==> headers && buffer == [])
      && (!started ==> |buffer| <= threshold && w.encoding == "")
      && (!headers ==> w.wire == [])
      && (headers ==> w.wire != [] && w.wire[0].StatusLine?)
      && (headers && !started ==> |w.wire| == 1)
      && (started ==> forall i :: 1 <= i < |w.wire| ==> w.wire[i].Zipped?)
    }

    ghost function View(): Response
      requires Valid()
      reads this, w
    {
      Response(threshold, w.length,
               if started then Zipping(w.wire[0].head)
               else if headers then PlainHead(w.wire[0].head)
               else Deciding(status),
               if started then Decode(w.wire) else buffer)
    }

    constructor (w: ResponseWriter, threshold: nat)
      requires w.wire == [] && w.encoding == ""
      ensures Valid() && View() == Fresh(threshold, w.length) && this.w == w
    {
      this.w, this.threshold, buffer := w, threshold, [];
      started, status, headers := false, STATUS_OK, false;
    }

    method Write(b: seq<byte>) returns (n: nat)
      requires Valid()
      modifies this, w
      ensures Valid() && View() == AfterWrite(old(View()), b) && n == |b|
    {
      if started {
        ZipperWrite(b);
        return |b|;
      }
      buffer := buffer + b;
      if |buffer| > threshold {
        StartGzip();
      }
      return |b|;
    }

    /** The compressor's Write, once started. */
    method ZipperWrite(b: seq<byte>)
      requires headers && started && w.wire != [] && w.wire[0].StatusLine?
      requires forall i :: 1 <= i < |w.wire| ==> w.wire[i].Zipped?
      modifies w`wire
      ensures w.wire == old(w.wire) + [Zipped(b)]
      ensures Decode(w.wire) == old(Decode(w.wire)) + b
    {
      w.Send(Zipped(b));
      DecodeAppend(old(w.wire), Zipped(b));
    }

    method WriteHeader(statusCode: int)
      requires Valid()
      modifies this, w
      ensures Valid() && View() == AfterWriteHeader(old(View()), statusCode)
    {
      if headers {
        return;
      }
      status := statusCode;
      if w.length != "" {
        var size := Atoi(w.length);
        if size.Some? {
          if size.value > threshold {
            StartGzip();
            return;
          }
          headers := true;
          w.WriteHeader(status);
        }
      }
    }

    method StartGzip()
      requires !started ==> w.encoding == ""
      requires !headers ==> w.wire == []
      requires headers && !started ==> |w.wire| == 1 && w.wire[0].StatusLine?
      modifies this, w
      ensures old(started) ==> unchanged(this) && unchanged(w)
      ensures !old(started) ==>
                && Valid() && started && w.length == ""
                && w.wire[0] == (if old(headers) then old(w.wire[0]) else StatusLine(Head(old(status), true, "")))
                && Decode(w.wire) == old(buffer)
    {
      if started {
        return;
      }
      started := true;
      w.length := "";
      w.encoding := "gzip";
      SendHeader();
      Flush();
    }

    /** The header block, unless it was sent before; nothing else is on the wire yet. */
    method SendHeader()
      requires if headers then |w.wire| == 1 && w.wire[0].StatusLine? else w.wire == []
      modifies this`headers, w`wire
      ensures headers && |w.wire| == 1 && Decode(w.wire) == []
      ensures w.wire[0] == if old(headers) then old(w.wire[0])
                           else StatusLine(Head(status, w.encoding == "gzip", w.length))
    {
      if !headers {
        w.WriteHeader(status);
        headers := true;
      }
      assert w.wire == [w.wire[0]];
      DecodeHeader(w.wire[0]);
    }

    /** What was buffered goes to the compressor. */
    method Flush()
      requires headers && started && |w.wire| == 1 && w.wire[0].StatusLine? && Decode(w.wire) == []
      modifies this`buffer, w`wire
      ensures buffer == [] && Decode(w.wire) == old(buffer)
      ensures w.wire != [] && w.wire[0] == old(w.wire[0])
      ensures forall i :: 1 <= i < |w.wire| ==> w.wire[i].Zipped?
    {
      if |buffer| > 0 {
        ZipperWrite(buffer);
        buffer := [];
      }
    }

    /** The trailer, or the plain buffer; the Content-Length set here comes after the header
        block and reaches nobody. */
    method Close()
      requires Valid()
      modifies this, w
      ensures Delivers(w.wire, Closed(old(View())))
    {
      if started {
        w.Send(Trailer);
        DecodeAppend(old(w.wire), Trailer);
        return;
      }
      if !headers {
        w.WriteHeader(status);
      }
      assert w.wire == [w.wire[0]];
      DecodeHeader(w.wire[0]);
      if |buffer| > 0 {
        w.length := Itoa(|buffer|);
        DecodeAppend(w.wire, Plain(buffer));
        w.Send(Plain(buffer));
      }
    }
  }

  /** One request through the middleware: the handler's calls, then the deferred Close. */
  method Serve(w: ResponseWriter, threshold: nat, ops: seq<Op>)
    requires w.wire == [] && w.encoding == ""
    modifies w
    ensures Answers(w.wire, threshold, old(w.length), ops)
    ensures OneHeader(w.wire) && AllPlain(w.wire) != AllZipped(w.wire)
    ensures Decode(w.wire) == Total(ops)
  {
    ghost var length := w.length;
    var g := new GzipWriter(w, threshold);
    for i := 0 to |ops|
      invariant fresh(g) && g.w == w && g.Valid()
      invariant Run(g.View(), ops[i..]) == Run(Fresh(threshold, length), ops)
    {
      assert ops[i..][0] == ops[i] && ops[i..][1..] == ops[i + 1..];
      match ops[i] {
        case Write(data) => var n := g.Write(data);
        case WriteHeader(status) => g.WriteHeader(status);
        case SetLength(declared) => w.length := declared;
      }
    }
    g.Close();
    DecodesToWhatWasWritten(w.wire, threshold, length, ops);
  }
}
