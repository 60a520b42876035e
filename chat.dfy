// The streaming chat reader of vite-project/src/api/chat.js: each chunk the
// reader returns is split on its own into server-sent-event pieces, the
// `data: ` payloads are parsed and the first choice's delta is delivered, and
// every invocation ends in exactly one terminal callback. The module-level
// `abortController` slot and `stopGenerating` are the ChatApi class.
//
// The network, the UTF-8 decoder and JSON.parse are inputs: the fetch outcome
// with the already-decoded chunks, and a partial `parse` function. Callback
// invocations are recorded, in order, as a sequence of events.

module Chat {
  import opened Js
  import opened Strings
  import Seqs

  datatype JsError = JsError(name: string, message: string)

  /** How the reader's last `read()` settles once the chunks run out. */
  datatype StreamEnd = ReaderDone | ReaderFailed(error: JsError)

  /** What `fetch` gives: a rejection, or a response with its status and body. */
  datatype FetchResult =
    | FetchRejected(error: JsError)
    | Response(ok: bool, status: nat, errorBody: string, chunks: seq<string>, end: StreamEnd)

  /** One callback invocation: onStream(content), onFinish() or onError(message). */
  datatype Event = OnStream(content: Json) | OnFinish | OnError(message: string)

  predicate IsTerminal(e: Event)
  {
    e.OnFinish? || e.OnError?
  }

  const EventSeparator: string := "\n\n"
  const DataPrefix: string := "data: "
  const DoneMarker: string := "[DONE]"

  predicate IsNonBlank(s: string)
  {
    !IsBlank(s)
  }

  /**
   * `chunk.split("\n\n").filter((line) => line.trim() !== "")`: the pieces of
   * one chunk, computed from that chunk alone.
   */
  function Pieces(chunk: string): seq<string>
  {
    Seqs.Filter(Split(chunk, EventSeparator), IsNonBlank)
  }

  /**
   * The pieces of a chunk are non-blank, hold no separator, and are the
   * chunk's own non-blank segments, each as often as it occurs, in order:
   * nothing is carried over between chunks.
   */
  lemma PiecesOfChunk(chunk: string)
    ensures forall k :: 0 <= k < |Pieces(chunk)| ==> !IsBlank(Pieces(chunk)[k]) && !Contains(Pieces(chunk)[k], EventSeparator)
    ensures Seqs.IsSubsequence(Pieces(chunk), Split(chunk, EventSeparator))
    ensures forall k :: 0 <= k < |Split(chunk, EventSeparator)| && !IsBlank(Split(chunk, EventSeparator)[k])
              ==> Split(chunk, EventSeparator)[k] in Pieces(chunk)
    ensures forall p :: multiset(Pieces(chunk))[p] == if IsNonBlank(p) then multiset(Split(chunk, EventSeparator))[p] else 0
  {
    Seqs.FilterCount(Split(chunk, EventSeparator), IsNonBlank);
    SplitPiecesFree(chunk, EventSeparator);
    Seqs.FilterMembers(Split(chunk, EventSeparator), IsNonBlank);
    Seqs.FilterIsSubsequence(Split(chunk, EventSeparator), IsNonBlank);
  }

  /**
   * `parsed.choices[0]?.delta?.content || ""`: None when the expression throws
   * (parsed is null, or its `choices` is missing or null).
   */
  function DeltaContent(parsed: Json): (r: Option<Json>)
    ensures r.None? <==> !(parsed.Obj? && "choices" in parsed.fields && parsed.fields["choices"] != Null)
    ensures r.Some? ==> Truthy(Defined(r.value)) || r.value == Str("")
  {
    var choices := GetProp(Defined(parsed), "choices");
    if choices.None? then None
    else
      var first := First(choices.value);
      if first.None? then None
      else Some(OrDefault(OptProp(OptProp(first.value, "delta"), "content"), Str("")))
  }

  /** A well-formed chunk of an OpenAI-style stream delivers its first choice's delta content. */
  lemma DeltaContentOfChoice(parsed: Json, content: string)
    requires parsed.Obj? && "choices" in parsed.fields && parsed.fields["choices"].Arr?
    requires |parsed.fields["choices"].items| > 0
    requires var choice := parsed.fields["choices"].items[0];
             choice.Obj? && "delta" in choice.fields && choice.fields["delta"].Obj?
             && "content" in choice.fields["delta"].fields && choice.fields["delta"].fields["content"] == Str(content)
    ensures DeltaContent(parsed) == Some(Str(content))
  {
  }

  /** A delta without content, or with an empty one, delivers "". */
  lemma DeltaContentDefaultsToEmpty(parsed: Json)
    requires parsed.Obj? && "choices" in parsed.fields && parsed.fields["choices"].Arr?
    requires |parsed.fields["choices"].items| > 0
    requires var choice := parsed.fields["choices"].items[0];
             choice.Obj? && "delta" in choice.fields && choice.fields["delta"].Obj?
             && ("content" !in choice.fields["delta"].fields || !Truthy(Defined(choice.fields["delta"].fields["content"])))
    ensures DeltaContent(parsed) == Some(Str(""))
  {
  }

  /** What the loop does with one piece. */
  datatype PieceKind = NotData | Done | Delta(content: Json) | Skipped

  function Classify(piece: string, parse: string -> Option<Json>): (k: PieceKind)
    ensures !StartsWith(piece, DataPrefix) ==> k == NotData
    ensures StartsWith(piece, DataPrefix) && piece[|DataPrefix|..] == DoneMarker ==> k == Done
    ensures k.Delta? ==> StartsWith(piece, DataPrefix) && parse(piece[|DataPrefix|..]).Some?
                         && DeltaContent(parse(piece[|DataPrefix|..]).value) == Some(k.content)
  {
    if !StartsWith(piece, DataPrefix) then NotData
    else
      var payload := piece[|DataPrefix|..];
      if payload == DoneMarker then Done
      else match parse(payload)
        case None => Skipped
        case Some(parsed) =>
          match DeltaContent(parsed)
          case None => Skipped
          case Some(content) => Delta(content)
  }

  /** The callbacks one chunk produces, and whether `[DONE]` ended the stream. */
  datatype ChunkResult = ChunkResult(events: seq<Event>, finished: bool)

  function Prepend(acc: seq<Event>, r: ChunkResult): ChunkResult
  {
    ChunkResult(acc + r.events, r.finished)
  }

  /** The events of `pieces[j..]`, in piece order, stopping at the first `[DONE]`. */
  function ChunkTrace(pieces: seq<string>, j: nat, parse: string -> Option<Json>): ChunkResult
    requires j <= |pieces|
    decreases |pieces| - j
  {
    if j == |pieces| then ChunkResult([], false)
    else match Classify(pieces[j], parse)
      case Done => ChunkResult([OnFinish], true)
      case Delta(content) => Prepend([OnStream(content)], ChunkTrace(pieces, j + 1, parse))
      case _ => ChunkTrace(pieces, j + 1, parse)
  }

  /** One step of the chunk loop, with the events delivered so far in `acc`. */
  lemma ChunkStep(pieces: seq<string>, j: nat, parse: string -> Option<Json>, acc: seq<Event>)
    requires j < |pieces|
    ensures Classify(pieces[j], parse).Done? ==>
              Prepend(acc, ChunkTrace(pieces, j, parse)) == ChunkResult(acc + [OnFinish], true)
    ensures Classify(pieces[j], parse).Delta? ==>
              Prepend(acc, ChunkTrace(pieces, j, parse))
              == Prepend(acc + [OnStream(Classify(pieces[j], parse).content)], ChunkTrace(pieces, j + 1, parse))
    ensures Classify(pieces[j], parse).NotData? || Classify(pieces[j], parse).Skipped? ==>
              ChunkTrace(pieces, j, parse) == ChunkTrace(pieces, j + 1, parse)
  {
    var rest := ChunkTrace(pieces, j + 1, parse);
    if Classify(pieces[j], parse).Delta? {
      var e := OnStream(Classify(pieces[j], parse).content);
      assert acc + ([e] + rest.events) == (acc + [e]) + rest.events;
    }
  }

  /** The `catch` block: an AbortError finishes, any other error is reported. */
  function Caught(e: JsError): (r: Event)
    ensures IsTerminal(r)
    ensures r == OnFinish <==> e.name == "AbortError"
    ensures r.OnError? ==> r.message == e.message
  {
    if e.name == "AbortError" then OnFinish else OnError(e.message)
  }

  function EndEvent(end: StreamEnd): Event
  {
    match end
    case ReaderDone => OnFinish
    case ReaderFailed(e) => Caught(e)
  }

  /**
   * The events from read number `i` on. `stopAt == Some(k)` means the user
   * calls stopGenerating while read number k is pending: that read rejects
   * with an AbortError.
   */
  function ReadTrace(chunks: seq<string>, i: nat, end: StreamEnd, stopAt: Option<nat>,
                     parse: string -> Option<Json>): seq<Event>
    requires i <= |chunks|
    decreases |chunks| - i
  {
    if stopAt == Some(i) then [OnFinish]
    else if i == |chunks| then [EndEvent(end)]
    else
      var r := ChunkTrace(Pieces(chunks[i]), 0, parse);
      if r.finished then r.events else r.events + ReadTrace(chunks, i + 1, end, stopAt, parse)
  }

  function HttpErrorMessage(status: nat, body: string): string
  {
    "HTTP error! status: " + NatToString(status) + ", body: " + body
  }

  /** The callbacks one `fetchChatStream` invocation makes, in order. */
  function Trace(f: FetchResult, stopAt: Option<nat>, parse: string -> Option<Json>): seq<Event>
  {
    match f
    case FetchRejected(e) => [Caught(e)]
    case Response(ok, status, errorBody, chunks, end) =>
      if !ok then [OnError(HttpErrorMessage(status, errorBody))]
      else ReadTrace(chunks, 0, end, stopAt, parse)
  }

  /** A rejected `fetch` ends the call at once: onFinish for an AbortError, onError with its message otherwise. */
  lemma RejectedFetchTrace(e: JsError, stopAt: Option<nat>, parse: string -> Option<Json>)
    ensures e.name == "AbortError" ==> Trace(FetchRejected(e), stopAt, parse) == [OnFinish]
    ensures e.name != "AbortError" ==> Trace(FetchRejected(e), stopAt, parse) == [OnError(e.message)]
  {
  }

  // ---------------------------------------------------------------------
  // Exactly one terminal callback, and it comes last.

  predicate NoTerminal(events: seq<Event>)
  {
    forall k :: 0 <= k < |events| ==> !IsTerminal(events[k])
  }

  predicate EndsWithOneTerminal(events: seq<Event>)
  {
    |events| >= 1 && IsTerminal(events[|events| - 1]) && NoTerminal(events[..|events| - 1])
  }

  lemma {:induction false} ChunkTraceShape(pieces: seq<string>, j: nat, parse: string -> Option<Json>)
    requires j <= |pieces|
    ensures var r := ChunkTrace(pieces, j, parse);
            if r.finished then EndsWithOneTerminal(r.events) && r.events[|r.events| - 1] == OnFinish
            else NoTerminal(r.events)
    decreases |pieces| - j
  {
    if j < |pieces| {
      ChunkTraceShape(pieces, j + 1, parse);
      match Classify(pieces[j], parse)
      case Done =>
      case Delta(content) =>
        PrependDelta(content, ChunkTrace(pieces, j + 1, parse).events);
      case _ =>
    }
  }

  /** A delta in front keeps the shape of the events after it. */
  lemma PrependDelta(content: Json, evs: seq<Event>)
    ensures NoTerminal(evs) ==> NoTerminal([OnStream(content)] + evs)
    ensures EndsWithOneTerminal(evs) ==>
              EndsWithOneTerminal([OnStream(content)] + evs)
              && ([OnStream(content)] + evs)[|evs|] == evs[|evs| - 1]
  {
    var all := [OnStream(content)] + evs;
    if |evs| >= 1 {
      assert all[..|all| - 1] == [OnStream(content)] + evs[..|evs| - 1];
    }
  }

  lemma AppendTerminal(a: seq<Event>, b: seq<Event>)
    requires NoTerminal(a) && EndsWithOneTerminal(b)
    ensures EndsWithOneTerminal(a + b) && (a + b)[|a + b| - 1] == b[|b| - 1]
  {
    assert (a + b)[..|a + b| - 1] == a + b[..|b| - 1];
  }

  lemma {:induction false} ReadTraceShape(chunks: seq<string>, i: nat, end: StreamEnd, stopAt: Option<nat>,
                                          parse: string -> Option<Json>)
    requires i <= |chunks|
    ensures EndsWithOneTerminal(ReadTrace(chunks, i, end, stopAt, parse))
    decreases |chunks| - i
  {
    if stopAt != Some(i) && i < |chunks| {
      var r := ChunkTrace(Pieces(chunks[i]), 0, parse);
      ChunkTraceShape(Pieces(chunks[i]), 0, parse);
      if !r.finished {
        ReadTraceShape(chunks, i + 1, end, stopAt, parse);
        AppendTerminal(r.events, ReadTrace(chunks, i + 1, end, stopAt, parse));
      }
    }
  }

  /** Every invocation ends with exactly one onFinish or onError, after all deltas. */
  lemma TraceShape(f: FetchResult, stopAt: Option<nat>, parse: string -> Option<Json>)
    ensures EndsWithOneTerminal(Trace(f, stopAt, parse))
  {
    if f.Response? && f.ok {
      ReadTraceShape(f.chunks, 0, f.end, stopAt, parse);
    }
  }

  /** A non-ok response calls onError once, with a message naming the status, and nothing else. */
  lemma HttpErrorReported(f: FetchResult, stopAt: Option<nat>, parse: string -> Option<Json>)
    requires f.Response? && !f.ok
    ensures Trace(f, stopAt, parse) == [OnError(HttpErrorMessage(f.status, f.errorBody))]
    ensures Contains(HttpErrorMessage(f.status, f.errorBody), NatToString(f.status))
  {
    var prefix := "HTTP error! status: ";
    var rest := ", body: " + f.errorBody;
    assert HttpErrorMessage(f.status, f.errorBody) == prefix + NatToString(f.status) + rest;
    ContainsMiddle(prefix, NatToString(f.status), rest);
  }

  // ---------------------------------------------------------------------
  // Cancellation finishes and never reports an error.

  lemma {:induction false} StoppedReadFinishes(chunks: seq<string>, i: nat, end: StreamEnd, stop: nat,
                                               parse: string -> Option<Json>)
    requires i <= stop <= |chunks|
    ensures var t := ReadTrace(chunks, i, end, Some(stop), parse);
            |t| >= 1 && t[|t| - 1] == OnFinish && forall k :: 0 <= k < |t| ==> !t[k].OnError?
    decreases |chunks| - i
  {
    if i < stop {
      var r := ChunkTrace(Pieces(chunks[i]), 0, parse);
      ChunkTraceShape(Pieces(chunks[i]), 0, parse);
      if !r.finished {
        StoppedReadFinishes(chunks, i + 1, end, stop, parse);
        var rest := ReadTrace(chunks, i + 1, end, Some(stop), parse);
        assert ReadTrace(chunks, i, end, Some(stop), parse) == r.events + rest;
      }
    }
  }

  /**
   * Pressing stop while a read is pending (after any number of delivered
   * deltas) ends the invocation with onFinish; onError is never called.
   */
  lemma StopFinishesWithoutError(f: FetchResult, stop: nat, parse: string -> Option<Json>)
    requires f.Response? && f.ok && stop <= |f.chunks|
    ensures var t := Trace(f, Some(stop), parse);
            |t| >= 1 && t[|t| - 1] == OnFinish && forall k :: 0 <= k < |t| ==> !t[k].OnError?
  {
    StoppedReadFinishes(f.chunks, 0, f.end, stop, parse);
  }

  // ---------------------------------------------------------------------
  // The delivered deltas, against an independent reading of the chunks:
  // every `data: ` payload of every chunk in order, cut at the first
  // `[DONE]`, each contributing its content when it parses.

  /** The `data: ` payloads of `pieces[j..]`, in order. */
  function Payloads(pieces: seq<string>, j: nat): seq<string>
    requires j <= |pieces|
    decreases |pieces| - j
  {
    if j == |pieces| then []
    else if StartsWith(pieces[j], DataPrefix) then [pieces[j][|DataPrefix|..]] + Payloads(pieces, j + 1)
    else Payloads(pieces, j + 1)
  }

  /** The payloads of chunks `i` up to `n`, each chunk read on its own. */
  function StreamPayloads(chunks: seq<string>, i: nat, n: nat): seq<string>
    requires i <= n <= |chunks|
    decreases n - i
  {
    if i == n then [] else Payloads(Pieces(chunks[i]), 0) + StreamPayloads(chunks, i + 1, n)
  }

  /** The payloads before the first `[DONE]`. */
  function UpToDone(ps: seq<string>): seq<string>
  {
    if |ps| == 0 || ps[0] == DoneMarker then [] else [ps[0]] + UpToDone(ps[1..])
  }

  /** The content one payload carries: none when it does not parse or has no `choices`. */
  function ContentOf(p: string, parse: string -> Option<Json>): seq<Json>
  {
    if parse(p).Some? && DeltaContent(parse(p).value).Some? then [DeltaContent(parse(p).value).value] else []
  }

  function ContentsOf(parse: string -> Option<Json>): string -> seq<Json>
  {
    p => ContentOf(p, parse)
  }

  /** The content each parseable payload carries, in order. */
  function Contents(ps: seq<string>, parse: string -> Option<Json>): seq<Json>
  {
    Seqs.FlatMap(ps, ContentsOf(parse))
  }

  function DeltaOf(e: Event): seq<Json>
  {
    if e.OnStream? then [e.content] else []
  }

  /** The contents handed to onStream. */
  function Deltas(events: seq<Event>): seq<Json>
  {
    Seqs.FlatMap(events, DeltaOf)
  }

  lemma {:induction false} UpToDoneAppend(a: seq<string>, b: seq<string>)
    ensures DoneMarker in a ==> UpToDone(a + b) == UpToDone(a)
    ensures DoneMarker !in a ==> UpToDone(a + b) == a + UpToDone(b)
  {
    if |a| > 0 {
      UpToDoneAppend(a[1..], b);
      assert (a + b)[1..] == a[1..] + b;
      if a[0] != DoneMarker {
        assert (DoneMarker in a) == (DoneMarker in a[1..]);
      }
    } else {
      assert a + b == b;
    }
  }

  lemma {:induction false} UpToDoneWithout(a: seq<string>)
    requires DoneMarker !in a
    ensures UpToDone(a) == a
  {
    if |a| > 0 {
      UpToDoneWithout(a[1..]);
    }
  }

  /** Within one chunk: a `[DONE]` payload, and nothing else, ends the chunk. */
  lemma {:induction false} ChunkFinishes(pieces: seq<string>, j: nat, parse: string -> Option<Json>)
    requires j <= |pieces|
    ensures ChunkTrace(pieces, j, parse).finished <==> DoneMarker in Payloads(pieces, j)
    decreases |pieces| - j
  {
    if j < |pieces| {
      ChunkFinishes(pieces, j + 1, parse);
      if StartsWith(pieces[j], DataPrefix) {
        var p := pieces[j][|DataPrefix|..];
        assert Payloads(pieces, j) == [p] + Payloads(pieces, j + 1);
      }
    }
  }

  /** Within one chunk: the deltas are the contents of the payloads before `[DONE]`. */
  lemma {:induction false} ChunkDeltas(pieces: seq<string>, j: nat, parse: string -> Option<Json>)
    requires j <= |pieces|
    ensures Deltas(ChunkTrace(pieces, j, parse).events) == Contents(UpToDone(Payloads(pieces, j)), parse)
    decreases |pieces| - j
  {
    if j < |pieces| {
      ChunkDeltas(pieces, j + 1, parse);
      if StartsWith(pieces[j], DataPrefix) {
        DataPieceDeltas(pieces, j, parse);
      }
    }
  }

  /** One `data: ` piece: its payload comes first, and its content, if it has one, is the first delta. */
  lemma DataPieceDeltas(pieces: seq<string>, j: nat, parse: string -> Option<Json>)
    requires j < |pieces| && StartsWith(pieces[j], DataPrefix)
    requires Deltas(ChunkTrace(pieces, j + 1, parse).events) == Contents(UpToDone(Payloads(pieces, j + 1)), parse)
    ensures Deltas(ChunkTrace(pieces, j, parse).events) == Contents(UpToDone(Payloads(pieces, j)), parse)
  {
    var p := pieces[j][|DataPrefix|..];
    var ps := Payloads(pieces, j + 1);
    var rest := ChunkTrace(pieces, j + 1, parse);
    assert Payloads(pieces, j) == [p] + ps;
    assert ([p] + ps)[1..] == ps;
    var kind := Classify(pieces[j], parse);
    if kind.Done? {
      Seqs.FlatMapSingleton(OnFinish, DeltaOf);
    } else {
      assert UpToDone([p] + ps) == [p] + UpToDone(ps);
      Seqs.FlatMapCons(p, UpToDone(ps), ContentsOf(parse));
      if kind.Delta? {
        assert ChunkTrace(pieces, j, parse).events == [OnStream(kind.content)] + rest.events;
        Seqs.FlatMapCons(OnStream(kind.content), rest.events, DeltaOf);
      }
    }
  }

  /** The last read that can deliver: the stop point, or the end of the chunks. */
  function Horizon(n: nat, stopAt: Option<nat>): (h: nat)
    ensures h <= n
  {
    if stopAt.Some? && stopAt.value < n then stopAt.value else n
  }

  lemma {:induction false} ReadDeltas(chunks: seq<string>, i: nat, end: StreamEnd, stopAt: Option<nat>,
                                      parse: string -> Option<Json>)
    requires i <= Horizon(|chunks|, stopAt)
    ensures Deltas(ReadTrace(chunks, i, end, stopAt, parse))
            == Contents(UpToDone(StreamPayloads(chunks, i, Horizon(|chunks|, stopAt))), parse)
    decreases |chunks| - i
  {
    var h := Horizon(|chunks|, stopAt);
    if stopAt == Some(i) || i == |chunks| {
      assert h == i;
      Seqs.FlatMapSingleton(ReadTrace(chunks, i, end, stopAt, parse)[0], DeltaOf);
    } else {
      assert i < h;
      var pieces := Pieces(chunks[i]);
      var r := ChunkTrace(pieces, 0, parse);
      var p := Payloads(pieces, 0);
      var more := StreamPayloads(chunks, i + 1, h);
      ChunkDeltas(pieces, 0, parse);
      ChunkFinishes(pieces, 0, parse);
      UpToDoneAppend(p, more);
      assert StreamPayloads(chunks, i, h) == p + more;
      if !r.finished {
        ReadDeltas(chunks, i + 1, end, stopAt, parse);
        Seqs.FlatMapAppend(r.events, ReadTrace(chunks, i + 1, end, stopAt, parse), DeltaOf);
        UpToDoneWithout(p);
        Seqs.FlatMapAppend(p, UpToDone(more), ContentsOf(parse));
      }
    }
  }

  /**
   * The deltas handed to onStream are, in order, the contents of the
   * parseable `data: ` payloads of the chunks read before the stop, each chunk
   * split on its own, up to the first `[DONE]`. A failed fetch or a non-ok
   * response delivers none.
   */
  lemma StreamDeltas(f: FetchResult, stopAt: Option<nat>, parse: string -> Option<Json>)
    ensures !(f.Response? && f.ok) ==> Deltas(Trace(f, stopAt, parse)) == []
    ensures f.Response? && f.ok ==>
              Deltas(Trace(f, stopAt, parse))
              == Contents(UpToDone(StreamPayloads(f.chunks, 0, Horizon(|f.chunks|, stopAt))), parse)
  {
    if f.Response? && f.ok {
      ReadDeltas(f.chunks, 0, f.end, stopAt, parse);
    } else {
      Seqs.FlatMapSingleton(Trace(f, stopAt, parse)[0], DeltaOf);
    }
  }

  /** Read number `i` delivers its chunk's events, and the reads after it follow unless `[DONE]` came. */
  lemma ReadUnfold(chunks: seq<string>, i: nat, end: StreamEnd, stopAt: Option<nat>, parse: string -> Option<Json>,
                   r: ChunkResult)
    requires i < |chunks| && stopAt != Some(i)
    requires r == ChunkTrace(Pieces(chunks[i]), 0, parse)
    ensures r.finished ==> ReadTrace(chunks, i, end, stopAt, parse) == r.events
    ensures !r.finished ==> ReadTrace(chunks, i, end, stopAt, parse)
                            == r.events + ReadTrace(chunks, i + 1, end, stopAt, parse)
  {
  }

  /** A read that a stop interrupts gives onFinish; a read past the last chunk settles as the stream ends. */
  lemma ReadEnds(chunks: seq<string>, i: nat, end: StreamEnd, stopAt: Option<nat>, parse: string -> Option<Json>)
    requires i <= |chunks|
    ensures stopAt == Some(i) ==> ReadTrace(chunks, i, end, stopAt, parse) == [OnFinish]
    ensures stopAt != Some(i) && i == |chunks| ==> ReadTrace(chunks, i, end, stopAt, parse) == [EndEvent(end)]
  {
  }

  /** One iteration of the read loop, for a read that returns chunk number `i`; `total` is the whole trace. */
  lemma ReadStep(chunks: seq<string>, i: nat, end: StreamEnd, stopAt: Option<nat>, parse: string -> Option<Json>,
                 total: seq<Event>, events: seq<Event>, delivered: seq<Event>, finished: bool)
    requires i < |chunks| && stopAt != Some(i)
    requires ChunkResult(delivered, finished) == ChunkTrace(Pieces(chunks[i]), 0, parse)
    requires total == events + ReadTrace(chunks, i, end, stopAt, parse)
    ensures finished ==> total == events + delivered
    ensures !finished ==> total == (events + delivered) + ReadTrace(chunks, i + 1, end, stopAt, parse)
  {
    ReadUnfold(chunks, i, end, stopAt, parse, ChunkResult(delivered, finished));
    if !finished {
      var rest := ReadTrace(chunks, i + 1, end, stopAt, parse);
      assert events + (delivered + rest) == (events + delivered) + rest;
    }
  }

  /**
   * The `for (const line of lines)` loop over one chunk: the callbacks it
   * makes, and whether it met `[DONE]` (after which fetchChatStream returns).
   */
  method ProcessChunk(chunk: string, parse: string -> Option<Json>) returns (delivered: seq<Event>, finished: bool)
    ensures ChunkResult(delivered, finished) == ChunkTrace(Pieces(chunk), 0, parse)
  {
    var lines := Pieces(chunk);
    delivered, finished := [], false;
    var j := 0;
    while j < |lines|
      invariant 0 <= j <= |lines|
      invariant ChunkTrace(lines, 0, parse) == Prepend(delivered, ChunkTrace(lines, j, parse))
    {
      var line := lines[j];
      ChunkStep(lines, j, parse, delivered);
      if StartsWith(line, DataPrefix) {
        var jsonStr := line[|DataPrefix|..];
        if jsonStr == DoneMarker {
          delivered := delivered + [OnFinish];
          finished := true;
          return;
        }
        match parse(jsonStr) {
          case None =>
          case Some(parsed) =>
            var content := DeltaContent(parsed);
            if content.Some? {
              delivered := delivered + [OnStream(content.value)];
            }
        }
      }
      j := j + 1;
    }
  }

  // ---------------------------------------------------------------------
  // The module-level `abortController` slot.

  class AbortController {
    var aborted: bool

    constructor()
      ensures !aborted
    {
      aborted := false;
    }

    method Abort()
      modifies this
      ensures aborted
    {
      aborted := true;
    }
  }

  class ChatApi {
    /** `let abortController = null` */
    var abortController: AbortController?

    constructor()
      ensures abortController == null
    {
      abortController := null;
    }

    /** `stopGenerating()`: aborts the controller in the slot; a no-op when the slot is empty. */
    method StopGenerating()
      modifies abortController
      ensures abortController == old(abortController)
      ensures abortController != null ==> abortController.aborted
    {
      if abortController != null {
        abortController.Abort();
      }
    }

    /**
     * `fetchChatStream`: returns the callbacks it makes, in order. The slot
     * holds a fresh controller while the stream runs and is empty afterwards.
     */
    method FetchChatStream(response: FetchResult, stopAt: Option<nat>, parse: string -> Option<Json>)
      returns (events: seq<Event>)
      modifies this
      ensures events == Trace(response, stopAt, parse)
      ensures EndsWithOneTerminal(events)
      ensures abortController == null
    {
      abortController := new AbortController();
      match response {
      case FetchRejected(error) =>
        events := [Caught(error)];
      case Response(ok, status, errorBody, chunks, end) =>
        if !ok {
          events := [OnError(HttpErrorMessage(status, errorBody))];
        } else {
          events := ReadStream(chunks, end, stopAt, parse);
        }
      }
      abortController := null;
      TraceShape(response, stopAt, parse);
    }

    /** The `while (true)` read loop of fetchChatStream, run with the controller in the slot. */
    method ReadStream(chunks: seq<string>, end: StreamEnd, stopAt: Option<nat>, parse: string -> Option<Json>)
      returns (events: seq<Event>)
      requires abortController != null && !abortController.aborted
      modifies abortController
      ensures events == ReadTrace(chunks, 0, end, stopAt, parse)
    {
      events := [];
      var i := 0;
      ghost var total := ReadTrace(chunks, 0, end, stopAt, parse);
      var ctrl := abortController;
      while true
        invariant 0 <= i <= |chunks|
        invariant abortController == ctrl && !ctrl.aborted
        invariant total == events + ReadTrace(chunks, i, end, stopAt, parse)
        decreases |chunks| - i
      {
        ReadEnds(chunks, i, end, stopAt, parse);
        // a stopGenerating() call served while this read is pending
        if stopAt == Some(i) {
          StopGenerating();
        }
        if ctrl.aborted {
          // the read rejects with an AbortError
          events := events + [OnFinish];
          break;
        }
        if i == |chunks| {
          events := events + [EndEvent(end)];
          break;
        }
        var delivered, finished := ProcessChunk(chunks[i], parse);
        ReadStep(chunks, i, end, stopAt, parse, total, events, delivered, finished);
        events := events + delivered;
        if finished {
          // `return` after onFinish: the remaining pieces and reads are never looked at
          break;
        }
        i := i + 1;
      }
    }
  }
}
