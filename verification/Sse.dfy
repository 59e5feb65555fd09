/** The Go SDK's tee over a server-sent-event stream: it splits what passes
    through into lines, reads usage from the data lines and reports once.

    It reads a subset of sections 9.2.5 and 9.2.6 of the WHATWG HTML Living
    Standard: every line ends in a line feed, and every data line is a whole
    event. */
module Sse {
  import opened Common

  const NEWLINE: byte := 10

  // ----------------------------------------------------------------- the wire

  datatype Usage = Usage(input: int, cached: int, output: int, reasoning: int, total: int)

  datatype WireUsage = WireUsage(
    promptTokens: int,
    completionTokens: int,
    totalTokens: int,
    promptCached: int,
    completionReasoning: int,
    inputTokens: int,
    outputTokens: int,
    inputCached: int,
    outputReasoning: int,
    cacheRead: int,
    cacheCreation: int)

  datatype Message = Message(model: string, usage: Option<WireUsage>)

  datatype Chunk = Chunk(model: string, usage: Option<WireUsage>, kind: string, message: Message)

  // What the JSON decoder makes of a payload; None is a decoding error.
  type Decoder = Bytes -> Option<Chunk>

  function FirstNonZero(a: int, b: int): (r: int)
    ensures r == 0 <==> a == 0 && b == 0
  {
    if a == 0 then b else a
  }

  function ToUsage(w: WireUsage): Usage {
    var input := FirstNonZero(w.promptTokens, w.inputTokens);
    var cached := FirstNonZero(FirstNonZero(w.promptCached, w.inputCached), w.cacheRead);
    var nonCached :=
      if (w.promptTokens > 0 || w.inputCached > 0) && input >= cached then input - cached else input;
    Usage(nonCached + w.cacheCreation, cached,
          FirstNonZero(w.completionTokens, w.outputTokens),
          FirstNonZero(w.completionReasoning, w.outputReasoning),
          w.totalTokens)
  }

  // OpenAI counts cached tokens inside its input, Anthropic apart from it.
  predicate CachedInside(w: WireUsage) {
    w.promptTokens > 0 || w.inputCached > 0
  }

  // All tokens on the input side, each once.
  function InputSide(w: WireUsage): int {
    FirstNonZero(w.promptTokens, w.inputTokens) + w.cacheCreation
    + if CachedInside(w) then 0 else ToUsage(w).cached
  }

  /** The input and cached counts that are billed add up to the input side, each
      token once, if and only if no more cached tokens are reported inside the
      input than the input has; none reported is no harm. */
  lemma InputIsBilledOnce(w: WireUsage)
    ensures var u := ToUsage(w);
            u.input + u.cached == InputSide(w)
            <==> (CachedInside(w) ==> u.cached == 0 || u.cached <= FirstNonZero(w.promptTokens, w.inputTokens))
  {
  }

  /** For an OpenAI prompt: exactly when there are at most as many cached tokens as
      the prompt has. */
  lemma PromptIsSplit(w: WireUsage)
    requires w.promptTokens > 0
    ensures var u := ToUsage(w);
            u.input + u.cached == w.promptTokens + w.cacheCreation <==> u.cached <= w.promptTokens
  {
  }

  /** Where a usage has the fields of both OpenAI styles, those of the chat style
      count, and OpenAI's count of cached tokens before Anthropic's. */
  lemma ChatFieldsWin(w: WireUsage)
    ensures w.completionTokens != 0 ==> ToUsage(w).output == w.completionTokens
    ensures w.completionReasoning != 0 ==> ToUsage(w).reasoning == w.completionReasoning
    ensures w.promptCached != 0 ==> ToUsage(w).cached == w.promptCached
    ensures w.promptCached == 0 && w.inputCached != 0 ==> ToUsage(w).cached == w.inputCached
    ensures w.promptTokens > 0 ==>
              ToUsage(w).input == w.cacheCreation + w.promptTokens
                - if ToUsage(w).cached <= w.promptTokens then ToUsage(w).cached else 0
  {
  }

  // ------------------------------------------------------------------ trimming

  predicate StartsWith(s: Bytes, p: Bytes) {
    |p| <= |s| && s[..|p|] == p
  }

  // The UTF-8 forms of the characters that Go's unicode.IsSpace accepts.
  predicate IsSpace1(a: byte) {
    9 <= a <= 13 || a == 32
  }

  predicate IsSpace2(a: byte, b: byte) {
    a == 0xC2 && (b == 0x85 || b == 0xA0)
  }

  predicate IsSpace3(a: byte, b: byte, c: byte) {
    || (a == 0xE1 && b == 0x9A && c == 0x80)
    || (a == 0xE2 && b == 0x80 && (0x80 <= c <= 0x8A || c == 0xA8 || c == 0xA9 || c == 0xAF))
    || (a == 0xE2 && b == 0x81 && c == 0x9F)
    || (a == 0xE3 && b == 0x80 && c == 0x80)
  }

  // The length of the space at the start, or 0.
  function LeadingSpace(s: Bytes): (n: nat)
    ensures n <= |s|
  {
    if |s| >= 1 && IsSpace1(s[0]) then 1
    else if |s| >= 2 && IsSpace2(s[0], s[1]) then 2
    else if |s| >= 3 && IsSpace3(s[0], s[1], s[2]) then 3
    else 0
  }

  function TrailingSpace(s: Bytes): (n: nat)
    ensures n <= |s|
  {
    var k := |s|;
    if k >= 1 && IsSpace1(s[k - 1]) then 1
    else if k >= 2 && IsSpace2(s[k - 2], s[k - 1]) then 2
    else if k >= 3 && IsSpace3(s[k - 3], s[k - 2], s[k - 1]) then 3
    else 0
  }

  function TrimLeft(s: Bytes): (t: Bytes)
    decreases |s|
  {
    var n := LeadingSpace(s);
    if n == 0 then s else TrimLeft(s[n..])
  }

  function TrimRight(s: Bytes): (t: Bytes)
    decreases |s|
  {
    var n := TrailingSpace(s);
    if n == 0 then s else TrimRight(s[..|s| - n])
  }

  function TrimSpace(s: Bytes): Bytes {
    TrimRight(TrimLeft(s))
  }

  // UTF-8 of the first 2^16 code points.
  function Utf8(cp: nat): Bytes
    requires cp < 0x10000
  {
    if cp < 0x80 then [cp as byte]
    else if cp < 0x800 then [(0xC0 + cp / 64) as byte, (0x80 + cp % 64) as byte]
    else [(0xE0 + cp / 4096) as byte, (0x80 + cp / 64 % 64) as byte, (0x80 + cp % 64) as byte]
  }

  // Unicode's white space.
  predicate IsWhiteSpace(cp: nat) {
    || 9 <= cp <= 13
    || cp == 0x20 || cp == 0x85 || cp == 0xA0 || cp == 0x1680
    || 0x2000 <= cp <= 0x200A
    || cp == 0x2028 || cp == 0x2029 || cp == 0x202F || cp == 0x205F || cp == 0x3000
  }

  /** A character at either end of some bytes is taken for a space exactly if it is
      white space, and then for the whole of its bytes. */
  lemma SpacesAreWhiteSpace(cp: nat, s: Bytes)
    requires cp < 0x10000
    ensures LeadingSpace(Utf8(cp) + s) == if IsWhiteSpace(cp) then |Utf8(cp)| else 0
    ensures TrailingSpace(s + Utf8(cp)) == if IsWhiteSpace(cp) then |Utf8(cp)| else 0
  {
    var u := Utf8(cp);
    assert forall i :: 0 <= i < |u| ==> (u + s)[i] == u[i] && (s + u)[|s| + i] == u[i];
  }

  // ------------------------------------------------------------------- one line

  datatype Totals = Totals(usage: Usage, model: string)

  const NO_TOTALS: Totals := Totals(Usage(0, 0, 0, 0, 0), "")

  // "data:" and "[DONE]".
  const DATA: Bytes := [100, 97, 116, 97, 58]
  const DONE: Bytes := [91, 68, 79, 78, 69, 93]

  function Payload(line: Bytes): Option<Bytes> {
    if !StartsWith(line, DATA) then None
    else
      var payload := TrimSpace(line[|DATA|..]);
      if payload == [] || payload == DONE then None else Some(payload)
  }

  // What a decoded chunk changes.
  function Absorb(t: Totals, c: Chunk): Totals {
    var model := if c.model != "" then c.model else t.model;
    if c.kind == "message_start" then
      var u := if c.message.usage.None? then t.usage
               else
                 var w := ToUsage(c.message.usage.value);
                 t.usage.(input := w.input, cached := w.cached, reasoning := w.reasoning);
      Totals(u, if c.message.model != "" then c.message.model else model)
    else if c.kind == "message_delta" then
      Totals(if c.usage.Some? && c.usage.value.outputTokens > 0
             then t.usage.(output := c.usage.value.outputTokens) else t.usage, model)
    else if c.usage.Some? && (var u := ToUsage(c.usage.value); u.input + u.cached + u.output > 0) then
      Totals(ToUsage(c.usage.value), model)
    else
      Totals(t.usage, model)
  }

  // What a line changes, the newline still on it.
  function AfterLine(decode: Decoder, t: Totals, line: Bytes): Totals {
    var payload := Payload(TrimSpace(line));
    if payload.None? then t
    else
      var c := decode(payload.value);
      if c.None? then t else Absorb(t, c.value)
  }

  // ----------------------------------------------------------- a stream of bytes

  // The place after the first newline; None if there is none.
  function LineEnd(s: Bytes, from: nat): (end: Option<nat>)
    requires from <= |s|
    requires forall k :: 0 <= k < from ==> s[k] != NEWLINE
    ensures end.Some? ==> 0 < end.value <= |s| && s[end.value - 1] == NEWLINE
    ensures end.Some? ==> forall k :: 0 <= k < end.value - 1 ==> s[k] != NEWLINE
    ensures end.None? ==> NEWLINE !in s
    decreases |s| - from
  {
    if from == |s| then None else if s[from] == NEWLINE then Some(from + 1) else LineEnd(s, from + 1)
  }

  // The totals after the complete lines of s, and the bytes that are left.
  function Consume(decode: Decoder, t: Totals, s: Bytes): Totals
    decreases |s|
  {
    var end := LineEnd(s, 0);
    if end.None? then t else Consume(decode, AfterLine(decode, t, s[..end.value]), s[end.value..])
  }

  function Rest(s: Bytes): (r: Bytes)
    ensures NEWLINE !in r
    decreases |s|
  {
    var end := LineEnd(s, 0);
    if end.None? then s else Rest(s[end.value..])
  }

  lemma LineConsumed(decode: Decoder, t: Totals, s: Bytes)
    requires LineEnd(s, 0).Some?
    ensures var e := LineEnd(s, 0).value;
            Consume(decode, t, s) == Consume(decode, AfterLine(decode, t, s[..e]), s[e..]) && Rest(s) == Rest(s[e..])
  {
  }

  lemma FirstNewline(s: Bytes, e: nat)
    requires 0 < e <= |s| && s[e - 1] == NEWLINE && forall k :: 0 <= k < e - 1 ==> s[k] != NEWLINE
    ensures LineEnd(s, 0) == Some(e)
  {
  }

  /** Bytes may be taken in two portions: the second one is read behind what was
      left of the first. */
  lemma {:induction false} TwoPortions(decode: Decoder, t: Totals, a: Bytes, b: Bytes)
    ensures Consume(decode, t, a + b) == Consume(decode, Consume(decode, t, a), Rest(a) + b)
    ensures Rest(a + b) == Rest(Rest(a) + b)
    decreases |a|
  {
    var end := LineEnd(a, 0);
    if end.Some? {
      var e := end.value;
      FirstNewline(a + b, e);
      assert (a + b)[..e] == a[..e] && (a + b)[e..] == a[e..] + b;
      TwoPortions(decode, AfterLine(decode, t, a[..e]), a[e..], b);
    }
  }

  /** What is kept is exactly what follows the last newline. */
  lemma {:induction false} RestIsAfterLastNewline(s: Bytes)
    ensures |Rest(s)| <= |s| && Rest(s) == s[|s| - |Rest(s)|..] && NEWLINE !in Rest(s)
    ensures |Rest(s)| < |s| ==> s[|s| - |Rest(s)| - 1] == NEWLINE
    decreases |s|
  {
    var end := LineEnd(s, 0);
    if end.Some? {
      RestIsAfterLastNewline(s[end.value..]);
    }
  }

  // ------------------------------------------------------------------- the tee

  // A tee: the bytes waiting for their newline, the totals so far, whether the
  // callback was called and what it was called with.
  datatype Tee = Tee(buf: Bytes, totals: Totals, fired: bool, reports: seq<Totals>)

  const FRESH_TEE: Tee := Tee([], NO_TOTALS, false, [])

  // A call by the reader of the body: a Read that returned some bytes, perhaps
  // with the end of the stream, or a Close.
  datatype Call = Read(data: Bytes, eof: bool) | Close

  function Fed(decode: Decoder, tee: Tee, data: Bytes): Tee {
    tee.(buf := Rest(tee.buf + data), totals := Consume(decode, tee.totals, tee.buf + data))
  }

  function Fired(tee: Tee): Tee {
    if tee.fired then tee else tee.(fired := true, reports := tee.reports + [tee.totals])
  }

  function AfterCall(decode: Decoder, tee: Tee, call: Call): Tee {
    match call
    case Read(data, eof) =>
      var fed := if data == [] then tee else Fed(decode, tee, data);
      if eof then Fired(fed) else fed
    case Close => Fired(tee)
  }

  function AfterCalls(decode: Decoder, calls: seq<Call>): Tee {
    if calls == [] then FRESH_TEE
    else AfterCall(decode, AfterCalls(decode, calls[..|calls| - 1]), calls[|calls| - 1])
  }

  class SseBody {
    const decode: Decoder
    var buf: Bytes
    var usage: Usage
    var model: string
    var fired: bool
    // The calls of onDone.
    var reports: seq<Totals>

    ghost function State(): Tee
      reads this
    {
      Tee(buf, Totals(usage, model), fired, reports)
    }

    constructor (decode: Decoder)
      ensures this.decode == decode && State() == FRESH_TEE
    {
      this.decode := decode;
      buf := [];
      usage := NO_TOTALS.usage;
      model := "";
      fired := false;
      reports := [];
    }

    method Read(data: Bytes, eof: bool)
      modifies this
      ensures State() == AfterCall(decode, old(State()), Call.Read(data, eof))
    {
      if |data| > 0 {
        Feed(data);
      }
      if eof {
        Fire();
      }
    }

    method Close()
      modifies this
      ensures State() == AfterCall(decode, old(State()), Call.Close)
    {
      Fire();
    }

    method Fire()
      modifies this
      ensures State() == Fired(old(State()))
    {
      if fired {
        return;
      }
      fired := true;
      reports := reports + [Totals(usage, model)];
    }

    // Scans the complete lines; a partial one stays for the next chunk.
    method Feed(chunk: Bytes)
      modifies this
      ensures State() == Fed(decode, old(State()), chunk)
    {
      buf := buf + chunk;
      ghost var all := buf;
      while true
        invariant Consume(decode, Totals(usage, model), buf) == Consume(decode, old(Totals(usage, model)), all)
        invariant Rest(buf) == Rest(all)
        invariant fired == old(fired) && reports == old(reports)
        decreases |buf|
      {
        var end := LineEnd(buf, 0);
        if end.None? {
          return;
        }
        LineConsumed(decode, Totals(usage, model), buf);
        var line := buf[..end.value];
        buf := buf[end.value..];
        ParseLine(line);
      }
    }

    method ParseLine(line: Bytes)
      modifies `usage, `model
      ensures Totals(usage, model) == AfterLine(decode, old(Totals(usage, model)), line)
    {
      var trimmed := TrimSpace(line);
      if !StartsWith(trimmed, DATA) {
        return;
      }
      var payload := TrimSpace(trimmed[|DATA|..]);
      if payload == [] || payload == DONE {
        return;
      }
      var decoded := decode(payload);
      if decoded.None? {
        return;
      }
      var c := decoded.value;
      if c.model != "" {
        model := c.model;
      }
      if c.kind == "message_start" {
        if c.message.model != "" {
          model := c.message.model;
        }
        if c.message.usage.Some? {
          var u := ToUsage(c.message.usage.value);
          usage := usage.(input := u.input, cached := u.cached, reasoning := u.reasoning);
        }
      } else if c.kind == "message_delta" {
        if c.usage.Some? && c.usage.value.outputTokens > 0 {
          usage := usage.(output := c.usage.value.outputTokens);
        }
      } else if c.usage.Some? {
        var u := ToUsage(c.usage.value);
        if u.input + u.cached + u.output > 0 {
          usage := u;
        }
      }
    }
  }

  // ------------------------------------------------------------------- theorems

  // All bytes that the calls handed over.
  function Stream(calls: seq<Call>): Bytes {
    if calls == [] then []
    else
      var last := calls[|calls| - 1];
      Stream(calls[..|calls| - 1]) + if last.Read? then last.data else []
  }

  predicate Ends(call: Call) {
    call.Close? || call.eof
  }

  // How many calls there are up to and including the first that ends the
  // stream.
  function FirstEnd(calls: seq<Call>): (n: Option<nat>)
    ensures n.Some? ==> 0 < n.value <= |calls| && Ends(calls[n.value - 1])
    ensures n.Some? ==> forall k :: 0 <= k < n.value - 1 ==> !Ends(calls[k])
    ensures n.None? ==> forall k :: 0 <= k < |calls| ==> !Ends(calls[k])
  {
    if calls == [] then None
    else
      var n := |calls| - 1;
      var earlier := FirstEnd(calls[..n]);
      if earlier.Some? then earlier else if Ends(calls[n]) then Some(n + 1) else None
  }

  // One more portion of bytes.
  lemma PortionRead(decode: Decoder, s: Bytes, data: Bytes, tee: Tee)
    requires tee.buf == Rest(s) && tee.totals == Consume(decode, NO_TOTALS, s)
    ensures Fed(decode, tee, data).buf == Rest(s + data)
    ensures Fed(decode, tee, data).totals == Consume(decode, NO_TOTALS, s + data)
  {
    TwoPortions(decode, NO_TOTALS, s, data);
  }

  /** Chunking does not matter: after any calls, the totals and the buffer are
      those of the whole stream read in one piece. */
  lemma {:induction false} ChunkingIsInvisible(decode: Decoder, calls: seq<Call>)
    ensures var tee := AfterCalls(decode, calls);
            tee.buf == Rest(Stream(calls)) && tee.totals == Consume(decode, NO_TOTALS, Stream(calls))
  {
    if calls != [] {
      var n := |calls| - 1;
      ChunkingIsInvisible(decode, calls[..n]);
      var data := if calls[n].Read? then calls[n].data else [];
      PortionRead(decode, Stream(calls[..n]), data, AfterCalls(decode, calls[..n]));
      assert data == [] ==> Stream(calls) == Stream(calls[..n]);
    }
  }

  /** So two ways of cutting the same bytes into reads end in the same state. */
  lemma SameBytesSameTotals(decode: Decoder, calls: seq<Call>, others: seq<Call>)
    requires Stream(calls) == Stream(others)
    ensures AfterCalls(decode, calls).totals == AfterCalls(decode, others).totals
    ensures AfterCalls(decode, calls).buf == AfterCalls(decode, others).buf
  {
    ChunkingIsInvisible(decode, calls);
    ChunkingIsInvisible(decode, others);
  }

  // Only a call that ends the stream reports, and only if none did before.
  lemma CallReports(decode: Decoder, tee: Tee, call: Call)
    ensures var next := AfterCall(decode, tee, call);
            && next.fired == (tee.fired || Ends(call))
            && next.reports == if !tee.fired && Ends(call) then tee.reports + [next.totals] else tee.reports
  {
  }

  lemma NextEnd(calls: seq<Call>)
    requires calls != []
    ensures var n := |calls| - 1;
            FirstEnd(calls)
            == if FirstEnd(calls[..n]).Some? then FirstEnd(calls[..n]) else if Ends(calls[n]) then Some(n + 1) else None
  {
  }

  // What the callback must have been called with after the calls.
  function Reports(decode: Decoder, calls: seq<Call>): seq<Totals> {
    var end := FirstEnd(calls);
    if end.None? then [] else [Consume(decode, NO_TOTALS, Stream(calls[..end.value]))]
  }

  lemma {:induction false} NoFurtherReport(decode: Decoder, calls: seq<Call>)
    requires calls != [] && FirstEnd(calls[..|calls| - 1]).Some?
    ensures FirstEnd(calls) == FirstEnd(calls[..|calls| - 1])
    ensures Reports(decode, calls) == Reports(decode, calls[..|calls| - 1])
  {
    var init := calls[..|calls| - 1];
    NextEnd(calls);
    assert init[..FirstEnd(init).value] == calls[..FirstEnd(init).value];
  }

  lemma {:induction false} FirstReport(decode: Decoder, calls: seq<Call>)
    requires calls != [] && FirstEnd(calls[..|calls| - 1]).None?
    ensures FirstEnd(calls).Some? <==> Ends(calls[|calls| - 1])
    ensures Reports(decode, calls) == if FirstEnd(calls).Some? then [AfterCalls(decode, calls).totals] else []
  {
    NextEnd(calls);
    ChunkingIsInvisible(decode, calls);
    assert calls[..|calls|] == calls;
  }

  /** The callback is called at most once, when the stream first ends or is
      closed, with the totals of the complete lines read by then.  A line that
      never got its newline is not among them. */
  lemma {:induction false} ReportsOnce(decode: Decoder, calls: seq<Call>)
    ensures AfterCalls(decode, calls).fired == FirstEnd(calls).Some?
    ensures AfterCalls(decode, calls).reports == Reports(decode, calls)
  {
    if calls != [] {
      var n := |calls| - 1;
      ReportsOnce(decode, calls[..n]);
      CallReports(decode, AfterCalls(decode, calls[..n]), calls[n]);
      if FirstEnd(calls[..n]).Some? {
        NoFurtherReport(decode, calls);
      } else {
        FirstReport(decode, calls);
      }
    }
  }

  // ---------------------------------------------------------- what the lines say

  function Joined(lines: seq<Bytes>): Bytes {
    if lines == [] then [] else lines[0] + Joined(lines[1..])
  }

  predicate IsLine(line: Bytes) {
    line != [] && line[|line| - 1] == NEWLINE && NEWLINE !in line[..|line| - 1]
  }

  function AfterLines(decode: Decoder, t: Totals, lines: seq<Bytes>): Totals
    decreases |lines|
  {
    if lines == [] then t else AfterLines(decode, AfterLine(decode, t, lines[0]), lines[1..])
  }

  /** However a stream is written as whole lines and a partial one, the totals are
      those of the lines in order and the partial line is what is kept. */
  lemma {:induction false} TotalsAreOfLines(decode: Decoder, t: Totals, lines: seq<Bytes>, partial: Bytes)
    requires (forall line :: line in lines ==> IsLine(line)) && NEWLINE !in partial
    ensures Consume(decode, t, Joined(lines) + partial) == AfterLines(decode, t, lines)
    ensures Rest(Joined(lines) + partial) == partial
    decreases |lines|
  {
    if lines == [] {
      assert Joined(lines) + partial == partial;
    } else {
      var line, tail := lines[0], Joined(lines[1..]) + partial;
      assert IsLine(line);
      assert Joined(lines) + partial == line + tail;
      forall k | 0 <= k < |line| - 1
        ensures (line + tail)[k] != NEWLINE
      {
        assert line[k] in line[..|line| - 1];
      }
      FirstNewline(line + tail, |line|);
      assert (line + tail)[..|line|] == line && (line + tail)[|line|..] == tail;
      TotalsAreOfLines(decode, AfterLine(decode, t, line), lines[1..], partial);
    }
  }

  lemma TrimRightDrops(s: Bytes, x: byte)
    requires IsSpace1(x)
    ensures TrimRight(s + [x]) == TrimRight(s)
  {
  }

  lemma LeadingSpaceKept(s: Bytes, x: byte)
    requires IsSpace1(x) && s != []
    ensures LeadingSpace(s + [x]) == LeadingSpace(s)
  {
  }

  lemma {:induction false} TrimLeftKeeps(s: Bytes, x: byte)
    requires IsSpace1(x)
    ensures TrimLeft(s + [x]) == if TrimLeft(s) == [] then [] else TrimLeft(s) + [x]
    decreases |s|
  {
    if s == [] {
      assert s + [x] == [x];
      assert [x][1..] == [];
    } else {
      LeadingSpaceKept(s, x);
      var n := LeadingSpace(s);
      if n > 0 {
        assert (s + [x])[n..] == s[n..] + [x];
        TrimLeftKeeps(s[n..], x);
      }
    }
  }

  lemma TrimIgnores(s: Bytes, x: byte)
    requires IsSpace1(x)
    ensures TrimSpace(s + [x]) == TrimSpace(s)
  {
    TrimLeftKeeps(s, x);
    if TrimLeft(s) != [] {
      TrimRightDrops(TrimLeft(s), x);
    }
  }

  /** A carriage return before the line feed changes nothing. */
  lemma CarriageReturnIsIgnored(decode: Decoder, t: Totals, line: Bytes)
    ensures AfterLine(decode, t, line + [13] + [NEWLINE]) == AfterLine(decode, t, line + [NEWLINE])
  {
    TrimIgnores(line + [13], NEWLINE);
    TrimIgnores(line, 13);
    TrimIgnores(line, NEWLINE);
  }

  // Bytes without space at either end.
  predicate Solid(s: Bytes) {
    s != [] && LeadingSpace(s) == 0 && TrailingSpace(s) == 0
  }

  lemma SolidBehindSpace(before: Bytes, s: Bytes)
    requires Solid(s)
    ensures TrailingSpace(before + [32] + s) == 0 && LeadingSpace([32] + s) == 1
    ensures TrimRight(before + [32] + s) == before + [32] + s && TrimSpace([32] + s) == s
  {
    var all, k := before + [32] + s, |before| + 1;
    assert all[k - 1] == 32 && forall i :: 0 <= i < |s| ==> all[k + i] == s[i];
    assert ([32] + s)[1..] == s;
    assert TrimLeft([32] + s) == TrimLeft(s) == s;
  }

  function Ascii(text: string): Bytes
    requires forall i :: 0 <= i < |text| ==> text[i] < 128 as char
  {
    seq(|text|, i requires 0 <= i < |text| => text[i] as byte)
  }

  /** A data line is "data:", perhaps a space, and a payload: the end mark "[DONE]" and
      an empty payload change nothing, and any other goes to the decoder as it is. */
  lemma DataLine(decode: Decoder, t: Totals, payload: Bytes)
    requires Solid(payload)
    ensures AfterLine(decode, t, Ascii("data:") + [32] + payload + [NEWLINE])
         == if payload == Ascii("[DONE]") || decode(payload).None? then t else Absorb(t, decode(payload).value)
    ensures AfterLine(decode, t, Ascii("data:") + [NEWLINE]) == t
  {
    assert Ascii("data:") == DATA && Ascii("[DONE]") == DONE;
    var line := DATA + [32] + payload;
    SolidBehindSpace(DATA, payload);
    TrimIgnores(line, NEWLINE);
    assert line[0] == 100 && TrimLeft(line) == line;
    assert line[..|DATA|] == DATA && line[|DATA|..] == [32] + payload;
    TrimIgnores(DATA, NEWLINE);
    assert TrimSpace(DATA) == DATA && DATA[|DATA|..] == [];
  }

  /** Any other line changes nothing. */
  lemma OtherLine(decode: Decoder, t: Totals, line: Bytes)
    requires Solid(line) && (|line| < 5 || line[..5] != Ascii("data:"))
    ensures AfterLine(decode, t, line + [NEWLINE]) == t
  {
    assert Ascii("data:") == DATA;
    TrimIgnores(line, NEWLINE);
  }

  // What a line decodes to, if it is a data line at all.
  function Decoded(decode: Decoder, line: Bytes): Option<Chunk> {
    var payload := Payload(TrimSpace(line));
    if payload.None? then None else decode(payload.value)
  }

  predicate IsDelta(c: Option<Chunk>) {
    c.None? || c.value.kind == "message_delta" || (c.value.kind != "message_start" && c.value.usage.None?)
  }

  // The last output count above zero that the lines' deltas report.
  function LastOutput(decode: Decoder, before: int, lines: seq<Bytes>): int {
    if lines == [] then before
    else
      var c := Decoded(decode, lines[|lines| - 1]);
      if c.Some? && c.value.kind == "message_delta" && c.value.usage.Some? && c.value.usage.value.outputTokens > 0
      then c.value.usage.value.outputTokens
      else LastOutput(decode, before, lines[..|lines| - 1])
  }

  lemma {:induction false} AfterLinesLast(decode: Decoder, t: Totals, lines: seq<Bytes>)
    requires lines != []
    ensures var n := |lines| - 1;
            AfterLines(decode, t, lines) == AfterLine(decode, AfterLines(decode, t, lines[..n]), lines[n])
    decreases |lines|
  {
    var n := |lines| - 1;
    if n > 0 {
      AfterLinesLast(decode, AfterLine(decode, t, lines[0]), lines[1..]);
      assert lines[1..][..n - 1] == lines[..n][1..];
    }
  }

  /** Anthropic: after message_start, deltas report the cumulative output and
      leave the input side as message_start gave it. */
  lemma {:induction false} DeltasOnlyCountOutput(decode: Decoder, t: Totals, lines: seq<Bytes>)
    requires forall line :: line in lines ==> IsDelta(Decoded(decode, line))
    ensures AfterLines(decode, t, lines).usage == t.usage.(output := LastOutput(decode, t.usage.output, lines))
    decreases |lines|
  {
    if lines != [] {
      var n := |lines| - 1;
      AfterLinesLast(decode, t, lines);
      assert lines[n] in lines;
      assert forall line :: line in lines[..n] ==> line in lines;
      DeltasOnlyCountOutput(decode, t, lines[..n]);
    }
  }

  // Usage in Anthropic's fields only.
  predicate IsAnthropic(w: WireUsage) {
    w.promptTokens == 0 && w.promptCached == 0 && w.inputCached == 0
  }

  /** So a whole Anthropic stream is billed for what message_start counted on the
      input side, cache writes as input and cache reads apart, and for the last
      output count of its deltas. */
  lemma {:induction false} AnthropicStream(decode: Decoder, start: Bytes, lines: seq<Bytes>, w: WireUsage)
    requires var c := Decoded(decode, start);
             c.Some? && c.value.kind == "message_start" && c.value.message.usage == Some(w)
    requires forall line :: line in lines ==> IsDelta(Decoded(decode, line))
    ensures AfterLines(decode, NO_TOTALS, [start] + lines).usage
         == Usage(ToUsage(w).input, ToUsage(w).cached, LastOutput(decode, 0, lines), ToUsage(w).reasoning, 0)
    ensures IsAnthropic(w) ==>
              var u := AfterLines(decode, NO_TOTALS, [start] + lines).usage;
              && u.input == w.inputTokens + w.cacheCreation && u.cached == w.cacheRead
              && u.input + u.cached == InputSide(w)
  {
    assert ([start] + lines)[1..] == lines;
    DeltasOnlyCountOutput(decode, AfterLine(decode, NO_TOTALS, start), lines);
  }

  // The usage of the last line that carries one above zero, OpenAI style.
  function LastUsage(decode: Decoder, before: Usage, lines: seq<Bytes>): Usage {
    if lines == [] then before
    else
      var c := Decoded(decode, lines[|lines| - 1]);
      if c.Some? && c.value.usage.Some? && HasTokens(ToUsage(c.value.usage.value)) then ToUsage(c.value.usage.value)
      else LastUsage(decode, before, lines[..|lines| - 1])
  }

  predicate HasTokens(u: Usage) {
    u.input + u.cached + u.output > 0
  }

  predicate IsPlain(c: Option<Chunk>) {
    c.None? || (c.value.kind != "message_start" && c.value.kind != "message_delta")
  }

  /** OpenAI: the totals are the last usage that counts any tokens. */
  lemma {:induction false} LastUsageWins(decode: Decoder, t: Totals, lines: seq<Bytes>)
    requires forall line :: line in lines ==> IsPlain(Decoded(decode, line))
    ensures AfterLines(decode, t, lines).usage == LastUsage(decode, t.usage, lines)
    decreases |lines|
  {
    if lines != [] {
      var n := |lines| - 1;
      AfterLinesLast(decode, t, lines);
      assert lines[n] in lines;
      assert forall line :: line in lines[..n] ==> line in lines;
      LastUsageWins(decode, t, lines[..n]);
    }
  }

  // Usage in OpenAI's fields only, one of its two styles.
  predicate IsOpenAi(w: WireUsage, chat: bool) {
    && w.cacheRead == 0 && w.cacheCreation == 0
    && if chat
       then w.inputTokens == 0 && w.outputTokens == 0 && w.inputCached == 0 && w.outputReasoning == 0
       else w.promptTokens == 0 && w.completionTokens == 0 && w.promptCached == 0 && w.completionReasoning == 0
  }

  /** So a whole OpenAI stream that ends in a usage of either style is billed for that
      usage's own counts: what is cached apart from the rest of the input, and the
      output, the reasoning and the total as they are. */
  lemma OpenAiStream(decode: Decoder, t: Totals, lines: seq<Bytes>, last: Bytes, w: WireUsage, chat: bool)
    requires forall line :: line in lines ==> IsPlain(Decoded(decode, line))
    requires var c := Decoded(decode, last);
             IsPlain(c) && c.Some? && c.value.usage == Some(w)
    requires IsOpenAi(w, chat)
    requires var (input, cached, output) :=
               if chat then (w.promptTokens, w.promptCached, w.completionTokens)
               else (w.inputTokens, w.inputCached, w.outputTokens);
             0 <= cached <= input && output >= 0 && input + output > 0
    ensures AfterLines(decode, t, lines + [last]).usage
         == if chat
            then Usage(w.promptTokens - w.promptCached, w.promptCached, w.completionTokens, w.completionReasoning,
                       w.totalTokens)
            else Usage(w.inputTokens - w.inputCached, w.inputCached, w.outputTokens, w.outputReasoning, w.totalTokens)
  {
    forall line | line in lines + [last]
      ensures IsPlain(Decoded(decode, line))
    {
    }
    LastIsLast(lines, last);
    LastUsageWins(decode, t, lines + [last]);
  }

  // The model that the last line to name one names; message_start may name it inside.
  function LastModel(decode: Decoder, before: string, lines: seq<Bytes>): string {
    if lines == [] then before
    else
      var c := Decoded(decode, lines[|lines| - 1]);
      if c.Some? && c.value.kind == "message_start" && |c.value.message.model| > 0 then c.value.message.model
      else if c.Some? && |c.value.model| > 0 then c.value.model
      else LastModel(decode, before, lines[..|lines| - 1])
  }

  /** The model reported is the last one named, whatever kinds of lines there are. */
  lemma {:induction false} LastModelWins(decode: Decoder, t: Totals, lines: seq<Bytes>)
    ensures AfterLines(decode, t, lines).model == LastModel(decode, t.model, lines)
    decreases |lines|
  {
    if lines != [] {
      AfterLinesLast(decode, t, lines);
      LastModelWins(decode, t, lines[..|lines| - 1]);
    }
  }
}
