/**
 A streamed completion: counting chunks, issuing receipts, closing the session.

 While the stream runs, other requests use the session manager, and the
 settlement loop may move this session's watermarks or close it. What happens at
 each point where the stream gives up the processor is given by `world`, an
 arbitrary function, so the results hold for every interleaving.
 */
module Streams {
  import opened Prelude
  import opened Sessions
  import opened Encoding
  import Scheduler

  // ---- The backend's lines ------------------------------------------------------------------

  /** Library functions the loop relies on: white space, JSON, whether a JSON text is an object or null, hashing. */
  datatype Library = Library(
    isSpace: char -> bool, isJson: string -> bool, isObjectOrNull: string -> bool, hash: string -> Bytes32)

  const DATA := "data: "
  const DONE := "[DONE]"

  /** Drops the prefix as often as it occurs. */
  function WithoutPrefix(line: string): string {
    if DATA <= line then WithoutPrefix(line[|DATA|..]) else line
  }

  datatype Line = Ignored | EndOfStream | Chunk(payload: string)

  function Parse(lib: Library, line: string): Line {
    if !(DATA <= line) then Ignored
    else
      var payload := Trim(lib.isSpace, WithoutPrefix(line));
      if payload == DONE then EndOfStream
      else if lib.isJson(payload) then Chunk(payload)
      else Ignored
  }

  /**
   What a line means. Without the prefix it is nothing. Behind the prefix, and up to
   white space around it, the text `[DONE]` ends the stream, other JSON is a chunk,
   and anything else is nothing.
   */
  lemma LineMeans(lib: Library, before: string, p: string, after: string)
    requires Blank(lib.isSpace, before) && Trimmed(lib.isSpace, p) && Blank(lib.isSpace, after)
    requires !("data: " <= before + p + after)
    ensures var line := "data: " + (before + p + after);
            && (Parse(lib, line) == EndOfStream <==> p == "[DONE]")
            && (forall q :: Parse(lib, line) == Chunk(q) <==> q == p && p != "[DONE]" && lib.isJson(p))
            && (Parse(lib, line) == Ignored <==> p != "[DONE]" && !lib.isJson(p))
  {
    hide Trim;
    var rest := before + p + after;
    var line := "data: " + rest;
    assert DATA <= line && line[|DATA|..] == rest && WithoutPrefix(rest) == rest;
    TrimIs(lib.isSpace, before, p, after);
  }

  lemma OtherLine(lib: Library, line: string)
    ensures !("data: " <= line) ==> Parse(lib, line) == Ignored
  {
  }

  /** The prefix is dropped as often as it is there. */
  lemma PrefixAgain(lib: Library, line: string)
    requires "data: " <= line
    ensures Parse(lib, "data: " + line) == Parse(lib, line)
  {
    var again := "data: " + line;
    assert DATA <= again && again[|DATA|..] == line;
  }

  /** What the backend sends: bodies of several lines, or an error. */
  datatype Item = Body(lines: seq<string>) | BackendError

  datatype Input = Text(line: string) | Broken

  function Texts(lines: seq<string>): seq<Input> {
    if lines == [] then [] else [Text(lines[0])] + Texts(lines[1..])
  }

  function Flat(items: seq<Item>): seq<Input> {
    if items == [] then []
    else (match items[0] case Body(lines) => Texts(lines) case BackendError => [Broken]) + Flat(items[1..])
  }

  /** The chunks the consumer is to receive, and how the session is to end. */
  datatype Expected = Expected(chunks: seq<string>, end: SessionState)

  function Expect(lib: Library, input: seq<Input>): Expected {
    if input == [] then Expected([], SessionState.Completed)
    else match input[0]
      case Broken => Expected([], SessionState.ProviderError)
      case Text(line) =>
        match Parse(lib, line)
        case Ignored => Expect(lib, input[1..])
        case EndOfStream => Expected([], SessionState.Completed)
        case Chunk(payload) =>
          var rest := Expect(lib, input[1..]);
          Expected([payload] + rest.chunks, rest.end)
  }

  // ---- What goes on meanwhile ----------------------------------------------------------------

  datatype Stamp = Stamp(timestampMs: nat, signature: Bytes)

  /** Other tasks' operations, and whether the consumer has gone. */
  datatype Pause = Pause(ops: seq<Op>, gone: bool)

  /** Other tasks leave the count and the receipts of session `id` alone. */
  predicate Elsewhere(id: Uuid, op: Op) {
    match op
    case Open(_, _, _, _, _, _, _) => true
    case Apply(u, change) =>
      (match change
       case AddTokens(_) => u != id
       case Attach(r) => u != id && r.sessionId == u
       case _ => true)
    case Restart => false
  }

  /** What other tasks leave alone in a record. */
  ghost predicate SameStream(a: Session, b: Session) {
    && b.id == a.id && b.tokensOutput == a.tokensOutput && b.receipts == a.receipts
    && b.lastReceiptSeq == a.lastReceiptSeq && b.teeQuoteHash == a.teeQuoteHash
  }

  ghost predicate ReceiptsKept(id: Uuid, a: map<(Uuid, nat), ChunkReceipt>, b: map<(Uuid, nat), ChunkReceipt>) {
    forall k :: (id, k) in a ==> (id, k) in b && b[(id, k)] == a[(id, k)]
  }

  method Others(manager: SessionManager, id: Uuid, ops: seq<Op>)
    requires manager.Valid() && id in manager.sessions
    modifies manager, manager.store
    ensures manager.Valid() && id in manager.sessions
    ensures SameStream(old(manager.sessions[id]), manager.sessions[id])
    ensures ReceiptsKept(id, old(manager.store.receipts), manager.store.receipts)
  {
    for i := 0 to |ops|
      invariant manager.Valid() && id in manager.sessions
      invariant SameStream(old(manager.sessions[id]), manager.sessions[id])
      invariant ReceiptsKept(id, old(manager.store.receipts), manager.store.receipts)
    {
      if Elsewhere(id, ops[i]) {
        PerformOp(manager, ops[i]);
      }
    }
  }

  // ---- One stream -------------------------------------------------------------------------------

  /** What is fixed for one stream; `signs(n)` is what signing a receipt for chunk n gives, if it works. */
  datatype Job = Job(
    id: Uuid, quoteHash: Option<Bytes32>, lib: Library, cadence: nat, peerId: string,
    signs: nat -> Option<Stamp>, world: nat -> Pause)

  /** Chunk n gets a receipt: one is due and signing works. */
  predicate Receipts(job: Job, n: nat)
    requires job.cadence >= 1
  {
    n % job.cadence == 0 && job.signs(n).Some?
  }

  /**
   Chunk n brings the stream down: it gets a receipt, and the receipt cannot be
   put into its JSON because that is an array, a string, a number or a boolean.
   */
  predicate Trips(job: Job, n: nat, payload: string)
    requires job.cadence >= 1
  {
    Receipts(job, n) && !job.lib.isObjectOrNull(payload)
  }

  /** None of the chunks brings the stream down. */
  ghost predicate Smooth(job: Job, chunks: seq<string>)
    requires job.cadence >= 1
  {
    forall i :: 0 <= i < |chunks| ==> !Trips(job, i + 1, chunks[i])
  }

  /** Due receipts among the first n chunks that could not be signed. */
  function Failures(job: Job, n: nat): nat
    requires job.cadence >= 1
  {
    if n == 0 then 0
    else Failures(job, n - 1) + if n % job.cadence == 0 && job.signs(n).None? then 1 else 0
  }

  lemma {:induction false} NoFailures(job: Job, n: nat)
    requires job.cadence >= 1 && forall k: nat :: job.signs(k).Some?
    ensures Failures(job, n) == 0
  {
    if n > 0 {
      NoFailures(job, n - 1);
    }
  }

  // ---- What the consumer sees -------------------------------------------------------------------

  /** A chunk, with the receipt it carries, if any. */
  datatype Event = Event(payload: string, receipt: Option<ChunkReceipt>)

  datatype Marker = UsageSummary | ErrorMessage | DoneMessage

  function Payloads(out: seq<Event>): seq<string> {
    seq(|out|, i requires 0 <= i < |out| => out[i].payload)
  }

  function ReceiptsOf(out: seq<Event>): seq<ChunkReceipt> {
    if out == [] then []
    else ReceiptsOf(out[..|out| - 1]) + (match out[|out| - 1].receipt case Some(r) => [r] case None => [])
  }

  /**
   The receipts of a session against the chunks counted so far: numbered from 1
   without gaps, one for every `cadence` chunks except where signing failed, each
   for the chunk it was made for, from this provider, as it was signed then, and with
   the session's quote hash.
   */
  ghost predicate Receipted(s: Session, out: seq<Event>, job: Job)
    requires job.cadence >= 1
  {
    && s.tokensOutput == |out|
    && |s.receipts| + Failures(job, |out|) == |out| / job.cadence
    && s.lastReceiptSeq == |s.receipts|
    && ReceiptsOf(out) == s.receipts
    && (forall n :: 0 <= n < |out| ==> (out[n].receipt.Some? <==> Receipts(job, n + 1)))
    && (forall i :: 0 <= i < |s.receipts| ==> ReceiptOk(s, i, out, job))
    && (forall i, j :: 0 <= i < j < |s.receipts| ==> s.receipts[i].tokenCount < s.receipts[j].tokenCount)
  }

  ghost predicate ReceiptOk(s: Session, i: nat, out: seq<Event>, job: Job)
    requires i < |s.receipts| && job.cadence >= 1
  {
    var r := s.receipts[i];
    && r.seqNo == i + 1 && r.sessionId == s.id && r.teeQuoteHash == s.teeQuoteHash
    && 0 < r.tokenCount <= |out| && r.tokenCount % job.cadence == 0
    && r.providerId == job.peerId && job.signs(r.tokenCount) == Some(Stamp(r.timestampMs, r.providerSig))
    && out[r.tokenCount - 1].receipt == Some(r) && r.contentHash == job.lib.hash(out[r.tokenCount - 1].payload)
  }

  /** Every receipt of the session is in the store under its number. */
  ghost predicate ReceiptsStored(s: Session, stored: map<(Uuid, nat), ChunkReceipt>) {
    forall i :: 0 <= i < |s.receipts| ==> s.receipts[i].seqNo == i + 1 && IsStored(stored, s.id, s.receipts[i])
  }

  ghost predicate IsStored(stored: map<(Uuid, nat), ChunkReceipt>, id: Uuid, r: ChunkReceipt) {
    (id, r.seqNo) in stored && stored[(id, r.seqNo)] == r
  }

  /** The session belongs to this stream and its receipts are in order, in memory and in the store. */
  ghost predicate InOrder(s: Session, stored: map<(Uuid, nat), ChunkReceipt>, job: Job, out: seq<Event>) {
    && s.id == job.id && s.teeQuoteHash == job.quoteHash && job.cadence >= 1
    && Receipted(s, out, job) && ReceiptsStored(s, stored)
  }

  lemma StoredStays(s: Session, s': Session, a: map<(Uuid, nat), ChunkReceipt>, b: map<(Uuid, nat), ChunkReceipt>)
    requires ReceiptsStored(s, a) && ReceiptsKept(s.id, a, b) && s'.id == s.id && s'.receipts == s.receipts
    ensures ReceiptsStored(s', b)
  {
    forall i | 0 <= i < |s'.receipts| ensures IsStored(b, s.id, s'.receipts[i]) {
      assert IsStored(a, s.id, s.receipts[i]);
    }
  }

  lemma StoredMore(s: Session, s': Session, a: map<(Uuid, nat), ChunkReceipt>, r: ChunkReceipt)
    requires ReceiptsStored(s, a) && r.sessionId == s.id && r.seqNo == |s.receipts| + 1
    requires s'.id == s.id && s'.receipts == s.receipts + [r]
    ensures ReceiptsStored(s', a[(r.sessionId, r.seqNo) := r])
  {
    var b := a[(r.sessionId, r.seqNo) := r];
    forall i | 0 <= i < |s'.receipts| ensures s'.receipts[i].seqNo == i + 1 && IsStored(b, s.id, s'.receipts[i]) {
      if i < |s.receipts| {
        assert s.receipts[i].seqNo == i + 1 && IsStored(a, s.id, s.receipts[i]);
      }
    }
  }

  lemma CountUp(n: nat, cadence: nat)
    requires cadence >= 1
    ensures (n + 1) / cadence == n / cadence + if (n + 1) % cadence == 0 then 1 else 0
  {
    Scheduler.CountGrows(cadence, n + 1);
  }

  /** One more chunk is counted, with its receipt where it gets one. */
  lemma Counted(s: Session, s': Session, out: seq<Event>, e: Event, job: Job)
    requires job.cadence >= 1 && Receipted(s, out, job)
    requires s'.id == s.id && s'.teeQuoteHash == s.teeQuoteHash && s'.tokensOutput == s.tokensOutput + 1
    requires e.receipt.Some? <==> Receipts(job, s'.tokensOutput)
    requires match e.receipt
             case None => s'.receipts == s.receipts && s'.lastReceiptSeq == s.lastReceiptSeq
             case Some(r) => s'.receipts == s.receipts + [r] && s'.lastReceiptSeq == r.seqNo == s.lastReceiptSeq + 1
                             && r.sessionId == s.id && r.teeQuoteHash == s.teeQuoteHash
                             && r.tokenCount == s'.tokensOutput && r.providerId == job.peerId
                             && job.signs(r.tokenCount) == Some(Stamp(r.timestampMs, r.providerSig))
                             && r.contentHash == job.lib.hash(e.payload)
    ensures Receipted(s', out + [e], job)
  {
    CountUp(|out|, job.cadence);
    assert (out + [e])[..|out|] == out;
    forall i | 0 <= i < |s'.receipts| ensures ReceiptOk(s', i, out + [e], job) {
      if i < |s.receipts| {
        assert ReceiptOk(s, i, out, job);
      }
    }
    forall i, j | 0 <= i < j < |s'.receipts| ensures s'.receipts[i].tokenCount < s'.receipts[j].tokenCount {
      assert ReceiptOk(s, i, out, job);
    }
  }

  lemma StillInOrder(s: Session, s': Session, a: map<(Uuid, nat), ChunkReceipt>, b: map<(Uuid, nat), ChunkReceipt>,
                     job: Job, out: seq<Event>)
    requires InOrder(s, a, job, out) && SameStream(s, s') && ReceiptsKept(job.id, a, b)
    ensures InOrder(s', b, job, out)
  {
    StoredStays(s, s', a, b);
    forall i | 0 <= i < |s'.receipts| ensures ReceiptOk(s', i, out, job) {
      assert ReceiptOk(s, i, out, job);
    }
  }

  lemma CountIs(s: Session, stored: map<(Uuid, nat), ChunkReceipt>, job: Job, out: seq<Event>)
    requires InOrder(s, stored, job, out)
    ensures s.tokensOutput == |out| && s.lastReceiptSeq == |s.receipts| && ReceiptsStored(s, stored)
    ensures job.cadence >= 1 && Receipted(s, out, job) && s.id == job.id && s.teeQuoteHash == job.quoteHash
  {
  }

  // ---- One chunk ----------------------------------------------------------------------------------

  /** The receipt for the session as it was just read; signing may fail. */
  function GenerateReceipt(s: Session, peerId: string, contentHash: Bytes32, stamp: Option<Stamp>)
    : Result<ChunkReceipt>
  {
    match stamp
    case None => Err("signing failed")
    case Some(Stamp(timestampMs, signature)) =>
      Ok(ChunkReceipt(s.id, peerId, s.lastReceiptSeq + 1, s.tokensOutput, contentHash, timestampMs,
                      signature, s.teeQuoteHash))
  }

  /**
   Counts a chunk, issues a receipt when one is due, and makes the event to
   forward. The panic comes where the receipt is put into the JSON: by then count
   and receipt are on record.
   */
  method HandleChunk(manager: SessionManager, job: Job, payload: string, before: Pause, during: Pause,
                     ghost out: seq<Event>)
    returns (event: Event, panicked: bool)
    requires manager.Valid() && job.id in manager.sessions
    requires InOrder(manager.sessions[job.id], manager.store.receipts, job, out)
    modifies manager, manager.store
    ensures manager.Valid() && job.id in manager.sessions
    ensures event.payload == payload && InOrder(manager.sessions[job.id], manager.store.receipts, job, out + [event])
    ensures job.cadence >= 1 && (panicked <==> Trips(job, |out| + 1, payload))
  {
    hide Receipted, ReceiptsStored, ReceiptsKept;
    var id := job.id;
    ghost var s, stored := manager.sessions[id], manager.store.receipts;
    CountIs(s, stored, job, out);
    var contentHash := job.lib.hash(payload);
    manager.RecordChunk(id, 1);
    Others(manager, id, before.ops);
    var session := manager.sessions[id];
    StoredStays(s, session, stored, manager.store.receipts);
    event, panicked := Event(payload, None), false;
    if session.tokensOutput % job.cadence == 0 {
      var generated := GenerateReceipt(session, job.peerId, contentHash, job.signs(session.tokensOutput));
      if generated.Ok? {
        Attached(manager, id, generated.value, during.ops);
        event := Event(payload, Some(generated.value));
        panicked := !job.lib.isObjectOrNull(payload);
      }
    }
    Counted(s, manager.sessions[id], out, event, job);
  }

  /** Others run, and then the receipt is added. */
  method Attached(manager: SessionManager, id: Uuid, receipt: ChunkReceipt, ops: seq<Op>)
    requires manager.Valid() && id in manager.sessions && manager.sessions[id].id == id
    requires ReceiptsStored(manager.sessions[id], manager.store.receipts)
    requires receipt.sessionId == id && receipt.seqNo == |manager.sessions[id].receipts| + 1
    modifies manager, manager.store
    ensures manager.Valid() && id in manager.sessions
    ensures var s, s' := old(manager.sessions[id]), manager.sessions[id];
            && s'.id == s.id && s'.teeQuoteHash == s.teeQuoteHash && s'.tokensOutput == s.tokensOutput
            && s'.receipts == s.receipts + [receipt] && s'.lastReceiptSeq == receipt.seqNo
    ensures ReceiptsStored(manager.sessions[id], manager.store.receipts)
  {
    hide ReceiptsStored, ReceiptsKept;
    ghost var s, stored := manager.sessions[id], manager.store.receipts;
    Others(manager, id, ops);
    ghost var t, kept := manager.sessions[id], manager.store.receipts;
    StoredStays(s, t, stored, kept);
    manager.AddReceipt(id, receipt);
    StoredMore(t, manager.sessions[id], kept, receipt);
  }

  // ---- The whole stream -------------------------------------------------------------------------------

  /** How the reading of the backend ends; a panic leaves one chunk counted that is never forwarded. */
  datatype Ending = Finished(state: SessionState) | Dropped | Panicked(lost: Event)

  /** The chunks counted: those forwarded, and the one lost in a panic. */
  function CountedOf(out: seq<Event>, lost: Option<Event>): seq<Event> {
    if lost.Some? then out + [lost.value] else out
  }

  function LostOf(ending: Option<Ending>): Option<Event> {
    if ending.Some? && ending.value.Panicked? then Some(ending.value.lost) else None
  }

  /** The chunks forwarded so far and those still expected make up all that is expected, and none has tripped. */
  ghost predicate OnCourse(job: Job, all: seq<Input>, out: seq<Event>, rest: seq<Input>)
    requires job.cadence >= 1
  {
    && Expect(job.lib, all).chunks == Payloads(out) + Expect(job.lib, rest).chunks
    && Expect(job.lib, all).end == Expect(job.lib, rest).end
    && Smooth(job, Payloads(out))
  }

  /** How far a stream got: to its end, to where the consumer went away, or to the first chunk that trips it. */
  ghost predicate Ended(job: Job, all: seq<Input>, out: seq<Event>, ending: Ending)
    requires job.cadence >= 1
  {
    var chunks := Expect(job.lib, all).chunks;
    && Payloads(out) <= chunks && Smooth(job, Payloads(out))
    && match ending
       case Finished(state) => Payloads(out) == chunks && state == Expect(job.lib, all).end
       case Dropped => true
       case Panicked(lost) =>
         |out| < |chunks| && lost.payload == chunks[|out|] && Trips(job, |out| + 1, chunks[|out|])
  }

  ghost predicate NeverGone(world: nat -> Pause) {
    forall k: nat :: !world(k).gone
  }

  /** The stream gives up the processor; it may never get it back. */
  method Yield(manager: SessionManager, job: Job, turn: nat, ghost out: seq<Event>) returns (gone: bool)
    requires manager.Valid() && job.id in manager.sessions
    requires InOrder(manager.sessions[job.id], manager.store.receipts, job, out)
    modifies manager, manager.store
    ensures manager.Valid() && job.id in manager.sessions
    ensures InOrder(manager.sessions[job.id], manager.store.receipts, job, out)
    ensures gone == job.world(turn).gone
  {
    hide InOrder, SameStream, ReceiptsKept;
    ghost var s, stored := manager.sessions[job.id], manager.store.receipts;
    Others(manager, job.id, job.world(turn).ops);
    StillInOrder(s, manager.sessions[job.id], stored, manager.store.receipts, job, out);
    gone := job.world(turn).gone;
  }

  /** One line of a body: ignored, the end, or a chunk. The consumer may go away where the chunk is forwarded. */
  method HandleLine(manager: SessionManager, job: Job, line: string, turn: nat,
                    ghost all: seq<Input>, ghost rest: seq<Input>, out: seq<Event>)
    returns (out': seq<Event>, turn': nat, ending: Option<Ending>)
    requires manager.Valid() && job.id in manager.sessions && job.cadence >= 1
    requires InOrder(manager.sessions[job.id], manager.store.receipts, job, out)
    requires OnCourse(job, all, out, [Text(line)] + rest)
    modifies manager, manager.store
    ensures manager.Valid() && job.id in manager.sessions
    ensures InOrder(manager.sessions[job.id], manager.store.receipts, job, CountedOf(out', LostOf(ending)))
    ensures if ending.Some? then Ended(job, all, out', ending.value) else OnCourse(job, all, out', rest)
    ensures ending == Some(Dropped) ==> !NeverGone(job.world)
  {
    hide InOrder, OnCourse, Ended, Smooth;
    out', turn', ending := out, turn, None;
    match Parse(job.lib, line)
    case Ignored =>
      OnCourseIgnored(job, all, out, line, rest);
    case EndOfStream =>
      EndOfCourse(job, all, out, line, rest);
      ending := Some(Finished(SessionState.Completed));
    case Chunk(payload) =>
      out', turn', ending := Forward(manager, job, payload, turn, out);
      ChunkOnCourse(job, all, out, line, payload, rest, out', ending);
  }

  /** A chunk is counted and forwarded, unless it brings the stream down. */
  method Forward(manager: SessionManager, job: Job, payload: string, turn: nat, out: seq<Event>)
    returns (out': seq<Event>, turn': nat, ending: Option<Ending>)
    requires manager.Valid() && job.id in manager.sessions && job.cadence >= 1
    requires InOrder(manager.sessions[job.id], manager.store.receipts, job, out)
    modifies manager, manager.store
    ensures manager.Valid() && job.id in manager.sessions
    ensures InOrder(manager.sessions[job.id], manager.store.receipts, job, CountedOf(out', LostOf(ending)))
    ensures if Trips(job, |out| + 1, payload)
            then out' == out && ending.Some? && ending.value.Panicked? && ending.value.lost.payload == payload
            else |out'| == |out| + 1 && out' == out + [out'[|out|]] && out'[|out|].payload == payload
                 && (ending == None || (ending == Some(Dropped) && !NeverGone(job.world)))
  {
    hide InOrder;
    var event, panicked := HandleChunk(manager, job, payload, job.world(turn), job.world(turn + 1), out);
    turn' := turn + 3;
    if panicked {
      out', ending := out, Some(Panicked(event));
    } else {
      out' := out + [event];
      var gone := Yield(manager, job, turn + 2, out');
      ending := if gone then Some(Dropped) else None;
    }
  }

  lemma OnCourseIgnored(job: Job, all: seq<Input>, out: seq<Event>, line: string, rest: seq<Input>)
    requires job.cadence >= 1 && OnCourse(job, all, out, [Text(line)] + rest) && Parse(job.lib, line).Ignored?
    ensures OnCourse(job, all, out, rest)
  {
    assert ([Text(line)] + rest)[1..] == rest;
  }

  lemma EndOfCourse(job: Job, all: seq<Input>, out: seq<Event>, line: string, rest: seq<Input>)
    requires job.cadence >= 1 && OnCourse(job, all, out, [Text(line)] + rest) && Parse(job.lib, line).EndOfStream?
    ensures Ended(job, all, out, Finished(SessionState.Completed))
  {
  }

  lemma ChunkOnCourse(job: Job, all: seq<Input>, out: seq<Event>, line: string, payload: string, rest: seq<Input>,
                      out': seq<Event>, ending: Option<Ending>)
    requires job.cadence >= 1 && OnCourse(job, all, out, [Text(line)] + rest) && Parse(job.lib, line) == Chunk(payload)
    requires if Trips(job, |out| + 1, payload)
             then out' == out && ending.Some? && ending.value.Panicked? && ending.value.lost.payload == payload
             else |out'| == |out| + 1 && out' == out + [out'[|out|]] && out'[|out|].payload == payload
                  && (ending == None || ending == Some(Dropped))
    ensures if ending.Some? then Ended(job, all, out', ending.value) else OnCourse(job, all, out', rest)
  {
    assert ([Text(line)] + rest)[1..] == rest;
    var chunks := Expect(job.lib, all).chunks;
    assert chunks == Payloads(out) + ([payload] + Expect(job.lib, rest).chunks);
    assert chunks[|out|] == payload;
    if !Trips(job, |out| + 1, payload) {
      assert Payloads(out') == Payloads(out) + [payload];
      assert chunks == Payloads(out') + Expect(job.lib, rest).chunks;
    }
  }

  /** Reads the backend to its end, to an error, to a chunk that trips, or until the consumer goes away. */
  method Pump(manager: SessionManager, job: Job, items: seq<Item>)
    returns (out: seq<Event>, turn: nat, ending: Ending)
    requires manager.Valid() && job.id in manager.sessions && job.cadence >= 1
    requires InOrder(manager.sessions[job.id], manager.store.receipts, job, [])
    modifies manager, manager.store
    ensures manager.Valid() && job.id in manager.sessions
    ensures InOrder(manager.sessions[job.id], manager.store.receipts, job, CountedOf(out, LostOf(Some(ending))))
    ensures Ended(job, Flat(items), out, ending)
    ensures NeverGone(job.world) ==> !ending.Dropped?
  {
    hide InOrder, OnCourse, Ended, Expect, Smooth;
    out, turn := [], 0;
    Started(job, Flat(items));
    assert items[0..] == items;
    for i := 0 to |items|
      invariant manager.Valid() && job.id in manager.sessions
      invariant InOrder(manager.sessions[job.id], manager.store.receipts, job, out)
      invariant OnCourse(job, Flat(items), out, Flat(items[i..]))
    {
      ghost var later := Flat(items[i + 1..]);
      assert items[i..][1..] == items[i + 1..];
      var gone := Yield(manager, job, turn, out);
      turn := turn + 1;
      if gone {
        CutShort(job, Flat(items), out, Flat(items[i..]));
        return out, turn, Dropped;
      }
      match items[i]
      case BackendError =>
        BreaksOff(job, Flat(items), out, later);
        return out, turn, Finished(SessionState.ProviderError);
      case Body(lines) =>
        var end;
        out, turn, end := PumpBody(manager, job, lines, turn, Flat(items), later, out);
        if end.Some? {
          return out, turn, end.value;
        }
    }
    RunsOut(job, Flat(items), out);
    ending := Finished(SessionState.Completed);
  }

  /** The lines of one body. */
  method PumpBody(manager: SessionManager, job: Job, lines: seq<string>, start: nat,
                  ghost all: seq<Input>, ghost later: seq<Input>, before: seq<Event>)
    returns (out: seq<Event>, turn: nat, ending: Option<Ending>)
    requires manager.Valid() && job.id in manager.sessions && job.cadence >= 1
    requires InOrder(manager.sessions[job.id], manager.store.receipts, job, before)
    requires OnCourse(job, all, before, Texts(lines) + later)
    modifies manager, manager.store
    ensures manager.Valid() && job.id in manager.sessions
    ensures InOrder(manager.sessions[job.id], manager.store.receipts, job, CountedOf(out, LostOf(ending)))
    ensures if ending.Some? then Ended(job, all, out, ending.value) else OnCourse(job, all, out, later)
    ensures ending == Some(Dropped) ==> !NeverGone(job.world)
  {
    hide InOrder, OnCourse, Ended, Expect, Smooth;
    out, turn, ending := before, start, None;
    assert lines[0..] == lines;
    for j := 0 to |lines|
      invariant manager.Valid() && job.id in manager.sessions
      invariant InOrder(manager.sessions[job.id], manager.store.receipts, job, out)
      invariant OnCourse(job, all, out, Texts(lines[j..]) + later)
      invariant ending == None
    {
      ghost var rest := Texts(lines[j + 1..]) + later;
      assert lines[j..][1..] == lines[j + 1..];
      assert Texts(lines[j..]) + later == [Text(lines[j])] + rest;
      out, turn, ending := HandleLine(manager, job, lines[j], turn, all, rest, out);
      if ending.Some? {
        return;
      }
    }
    assert Texts(lines[|lines|..]) + later == later;
  }

  lemma Started(job: Job, all: seq<Input>)
    requires job.cadence >= 1
    ensures OnCourse(job, all, [], all)
  {
    assert Payloads([]) == [];
  }

  lemma CutShort(job: Job, all: seq<Input>, out: seq<Event>, rest: seq<Input>)
    requires job.cadence >= 1 && OnCourse(job, all, out, rest)
    ensures Ended(job, all, out, Dropped)
  {
  }

  lemma BreaksOff(job: Job, all: seq<Input>, out: seq<Event>, later: seq<Input>)
    requires job.cadence >= 1 && OnCourse(job, all, out, [Broken] + later)
    ensures Ended(job, all, out, Finished(SessionState.ProviderError))
  {
  }

  lemma RunsOut(job: Job, all: seq<Input>, out: seq<Event>)
    requires job.cadence >= 1 && OnCourse(job, all, out, [])
    ensures Ended(job, all, out, Finished(SessionState.Completed))
  {
  }

  /** `drop` of the clean-up guard: a stream that has not finished closes its session, panics included. */
  method CleanUp(manager: SessionManager, id: Uuid, finished: bool, now: int, closings: seq<SessionState>)
    returns (closings': seq<SessionState>)
    requires manager.Valid() && id in manager.sessions
    requires finished ==> closings == [manager.sessions[id].state]
    requires !finished ==> closings == []
    modifies manager, manager.store
    ensures manager.Valid() && id in manager.sessions && SameStream(old(manager.sessions[id]), manager.sessions[id])
    ensures manager.store.receipts == old(manager.store.receipts)
    ensures closings' == [manager.sessions[id].state]
    ensures manager.sessions[id].state == if finished then old(manager.sessions[id].state)
                                          else SessionState.ConsumerDisconnected
  {
    closings' := closings;
    if !finished {
      manager.Close(id, SessionState.ConsumerDisconnected, now);
      closings' := closings' + [SessionState.ConsumerDisconnected];
    }
  }

  /** The end of the backend: a usage summary if anything was produced, then the close and the last message. */
  method Conclude(manager: SessionManager, job: Job, state: SessionState, turn: nat, now: int, ghost out: seq<Event>)
    returns (markers: seq<Marker>, closings: seq<SessionState>, finished: bool)
    requires manager.Valid() && job.id in manager.sessions
    requires InOrder(manager.sessions[job.id], manager.store.receipts, job, out)
    modifies manager, manager.store
    ensures manager.Valid() && job.id in manager.sessions
    ensures InOrder(manager.sessions[job.id], manager.store.receipts, job, out)
    ensures finished ==> closings == [state] && manager.sessions[job.id].state == state
    ensures !finished ==> closings == [] && job.world(turn).gone
    ensures markers == (if state.Completed? && |out| > 0 then [UsageSummary] else [])
                       + (if !finished then [] else if state.Completed? then [DoneMessage] else [ErrorMessage])
  {
    hide InOrder, Receipted, ReceiptsStored;
    markers, closings, finished := [], [], true;
    CountIs(manager.sessions[job.id], manager.store.receipts, job, out);
    if state.Completed? && manager.sessions[job.id].tokensOutput > 0 {
      markers := [UsageSummary];
      var gone := Yield(manager, job, turn, out);
      finished := !gone;
    }
    if finished {
      ghost var s := manager.sessions[job.id];
      manager.Close(job.id, state, now);
      StillInOrder(s, manager.sessions[job.id], manager.store.receipts, manager.store.receipts, job, out);
      closings := [state];
      markers := markers + [if state.Completed? then DoneMessage else ErrorMessage];
    }
  }

  /** What the consumer of `items` is promised; an absent identity or backend promises nothing but an error. */
  function Promise(lib: Library, identityOk: bool, items: Option<seq<Item>>): Expected {
    if identityOk && items.Some? then Expect(lib, Flat(items.value)) else Expected([], SessionState.ProviderError)
  }

  /** What a whole stream leaves behind. */
  ghost predicate Kept(job: Job, promise: Expected, out: seq<Event>, lost: Option<Event>, state: SessionState)
    requires job.cadence >= 1
  {
    && Payloads(out) <= promise.chunks
    && (lost.Some? ==>
          && state.ConsumerDisconnected? && |out| < |promise.chunks|
          && lost.value.payload == promise.chunks[|out|] && Trips(job, |out| + 1, promise.chunks[|out|]))
    && (!state.ConsumerDisconnected? ==> Expected(Payloads(out), state) == promise && Smooth(job, promise.chunks))
    && (NeverGone(job.world) ==> (state.ConsumerDisconnected? <==> !Smooth(job, promise.chunks)))
  }

  /**
   A whole stream. Whatever other tasks do meanwhile, the session is closed exactly
   once by it, the forwarded chunks are a prefix of the promised ones, and the
   receipts of the counted chunks are in order. If the consumer stays, the stream
   gets through, with all chunks and in the promised state, if and only if no
   promised chunk brings it down; otherwise the first such chunk is counted, with
   its receipt, and lost.
   */
  method ChatStream(manager: SessionManager, job: Job, receiptCadenceTokens: nat, now: int, model: string,
                    consumer: Option<Bytes32>, tier: SecurityTier, evmSessionId: Option<u64>,
                    identityOk: bool, items: Option<seq<Item>>)
    returns (out: seq<Event>, lost: Option<Event>, markers: seq<Marker>, closings: seq<SessionState>)
    requires manager.Valid() && job.id !in manager.sessions && job.id !in manager.store.sessions
    requires job.cadence == Max(receiptCadenceTokens, 1)
    modifies manager, manager.store
    ensures manager.Valid() && job.id in manager.sessions
    ensures closings == [manager.sessions[job.id].state]
    ensures InOrder(manager.sessions[job.id], manager.store.receipts, job, CountedOf(out, lost))
    ensures (forall k: nat :: job.signs(k).Some?) ==>
              |manager.sessions[job.id].receipts| == manager.sessions[job.id].tokensOutput / job.cadence
    ensures Kept(job, Promise(job.lib, identityOk, items), out, lost, manager.sessions[job.id].state)
  {
    hide InOrder, Receipted, Expect, Smooth, Ended, Kept;
    manager.OpenWithTee(job.id, now, model, consumer, tier, job.quoteHash, evmSessionId);
    out, lost := [], None;
    var turn, ending := 0, Finished(SessionState.ProviderError);
    OpenedInOrder(manager.sessions[job.id], manager.store.receipts, job);
    ghost var input: seq<Input> := [Broken];
    ErrorAtOnce(job);
    if identityOk && items.Some? {
      out, turn, ending := Pump(manager, job, items.value);
      input := Flat(items.value);
      lost := LostOf(Some(ending));
    }
    var finished := false;
    markers, closings := [], [];
    if ending.Finished? {
      markers, closings, finished := Conclude(manager, job, ending.state, turn, now, out);
    }
    ghost var s := manager.sessions[job.id];
    closings := CleanUp(manager, job.id, finished, now, closings);
    StillInOrder(s, manager.sessions[job.id], manager.store.receipts, manager.store.receipts, job,
                 CountedOf(out, lost));
    AllCounted(manager.sessions[job.id], manager.store.receipts, job, CountedOf(out, lost));
    Conclusion(job, input, out, ending, finished, manager.sessions[job.id].state);
  }

  lemma ErrorAtOnce(job: Job)
    requires job.cadence >= 1
    ensures Expect(job.lib, [Broken]) == Expected([], SessionState.ProviderError)
    ensures Ended(job, [Broken], [], Finished(SessionState.ProviderError))
  {
    assert Payloads([]) == [];
  }

  lemma Conclusion(job: Job, input: seq<Input>, out: seq<Event>, ending: Ending, finished: bool, state: SessionState)
    requires job.cadence >= 1 && Ended(job, input, out, ending)
    requires finished ==> ending.Finished? && state == ending.state
    requires !finished ==> state.ConsumerDisconnected?
    requires NeverGone(job.world) ==> (finished <==> ending.Finished?) && !ending.Dropped?
    ensures Kept(job, Expect(job.lib, input), out, LostOf(Some(ending)), state)
  {
    ChunksOnly(job.lib, input);
    if ending.Panicked? {
      assert Trips(job, |out| + 1, Expect(job.lib, input).chunks[|out|]);
    }
  }

  lemma AllCounted(s: Session, stored: map<(Uuid, nat), ChunkReceipt>, job: Job, out: seq<Event>)
    requires InOrder(s, stored, job, out)
    ensures (forall k: nat :: job.signs(k).Some?) ==> |s.receipts| == s.tokensOutput / job.cadence
  {
    if forall k: nat :: job.signs(k).Some? {
      NoFailures(job, |out|);
    }
  }

  lemma OpenedInOrder(s: Session, stored: map<(Uuid, nat), ChunkReceipt>, job: Job)
    requires s.id == job.id && s.teeQuoteHash == job.quoteHash && job.cadence >= 1
    requires s.tokensOutput == 0 && s.receipts == [] && s.lastReceiptSeq == 0
    ensures InOrder(s, stored, job, [])
  {
  }

  lemma {:induction false} ChunksOnly(lib: Library, input: seq<Input>)
    ensures Expect(lib, input).end.Completed? || Expect(lib, input).end.ProviderError?
  {
    if input != [] {
      ChunksOnly(lib, input[1..]);
    }
  }

  // ---- An ordinary backend ------------------------------------------------------------------------

  /** A JSON payload as a completion backend sends it. */
  ghost predicate Proper(lib: Library, p: string) {
    lib.isJson(p) && p != "[DONE]" && Trimmed(lib.isSpace, p) && !("data: " <= p)
  }

  /** The lines carry these payloads in order, one a line; between them are lines without the prefix. */
  ghost predicate Sends(lib: Library, lines: seq<string>, payloads: seq<string>) {
    if lines == [] then payloads == []
    else if "data: " <= lines[0]
    then payloads != [] && Proper(lib, payloads[0]) && lines[0] == "data: " + payloads[0]
         && Sends(lib, lines[1..], payloads[1..])
    else Sends(lib, lines[1..], payloads)
  }

  lemma {:induction false} Promised(lib: Library, lines: seq<string>, payloads: seq<string>, rest: seq<Input>)
    requires Sends(lib, lines, payloads)
    ensures var later := Expect(lib, rest);
            Expect(lib, Texts(lines) + rest) == Expected(payloads + later.chunks, later.end)
  {
    hide Parse, Expect, Proper;
    if lines == [] {
      assert Texts(lines) + rest == rest;
    } else {
      var more := Texts(lines[1..]) + rest;
      assert Texts(lines) + rest == [Text(lines[0])] + more;
      if "data: " <= lines[0] {
        Promised(lib, lines[1..], payloads[1..], rest);
        ProperLine(lib, payloads[0], more);
        FirstOf(payloads, Expect(lib, rest).chunks);
      } else {
        Promised(lib, lines[1..], payloads, rest);
        SkippedLine(lib, lines[0], more);
      }
    }
  }

  lemma FirstOf(a: seq<string>, b: seq<string>)
    requires a != []
    ensures [a[0]] + (a[1..] + b) == a + b
  {
  }

  lemma ProperLine(lib: Library, p: string, more: seq<Input>)
    requires Proper(lib, p)
    ensures var later := Expect(lib, more);
            Expect(lib, [Text("data: " + p)] + more) == Expected([p] + later.chunks, later.end)
  {
    hide Parse;
    assert "" + p + "" == p && ([Text("data: " + p)] + more)[1..] == more;
    LineMeans(lib, "", p, "");
  }

  lemma SkippedLine(lib: Library, line: string, more: seq<Input>)
    requires !("data: " <= line)
    ensures Expect(lib, [Text(line)] + more) == Expect(lib, more)
  {
    hide Parse;
    assert ([Text(line)] + more)[1..] == more;
    OtherLine(lib, line);
  }

  /** After `[DONE]` nothing is read; without it the stream ends with the backend, or with its error. */
  lemma PromisedEnd(lib: Library, rest: seq<Input>)
    requires Trimmed(lib.isSpace, "[DONE]")
    ensures Expect(lib, [Text("data: [DONE]")] + rest) == Expected([], SessionState.Completed)
    ensures Expect(lib, [Broken] + rest) == Expected([], SessionState.ProviderError)
    ensures Expect(lib, []) == Expected([], SessionState.Completed)
  {
    hide Parse;
    assert "" + "[DONE]" + "" == "[DONE]" && "data: " + "[DONE]" == "data: [DONE]";
    LineMeans(lib, "", "[DONE]", "");
  }

  /**
   An ordinary stream: the backend sends JSON payloads, in any bodies and with any
   other lines between them, and then `[DONE]`, its end, or an error. A consumer that
   stays receives exactly these payloads, in order, if none trips the stream, and the
   session ends as Completed, or as ProviderError after an error.
   */
  lemma OrdinaryStream(job: Job, items: seq<Item>, lines: seq<string>, payloads: seq<string>, tail: seq<Input>,
                       rest: seq<Input>, out: seq<Event>, lost: Option<Event>, state: SessionState)
    requires job.cadence >= 1 && Trimmed(job.lib.isSpace, "[DONE]") && Sends(job.lib, lines, payloads)
    requires tail == [Text("data: [DONE]")] + rest || tail == [Broken] + rest || tail == []
    requires Flat(items) == Texts(lines) + tail
    requires NeverGone(job.world) && Smooth(job, payloads)
    requires Kept(job, Promise(job.lib, true, Some(items)), out, lost, state)
    ensures Payloads(out) == payloads && lost == None
    ensures state == if tail == [Broken] + rest then SessionState.ProviderError else SessionState.Completed
  {
    hide Smooth, Payloads, Sends, Parse;
    Promised(job.lib, lines, payloads, tail);
    PromisedEnd(job.lib, rest);
    assert payloads + [] == payloads;
  }

  // ---- The failing input ------------------------------------------------------------------------------

  /** A single line with a number in it, at cadence 1: the first chunk already brings the stream down. */
  lemma NumberTrips(job: Job)
    requires job.cadence == 1 && job.signs(1).Some? && SaneSpace(job.lib.isSpace)
    requires job.lib.isJson("1") && !job.lib.isObjectOrNull("1")  // as for any JSON library
    ensures Promise(job.lib, true, Some([Body(["data: 1"])])).chunks == ["1"]
    ensures Trips(job, 1, "1") && !Smooth(job, ["1"])
  {
    var line := "data: 1";
    assert DATA <= line && line[6..] == "1" && WithoutPrefix("1") == "1";
    TrimNothing(job.lib.isSpace, "1");
    assert Parse(job.lib, line) == Chunk("1");
    OneChunk(job.lib, line, "1");
    assert Trips(job, 1, ["1"][0]);
  }

  lemma OneChunk(lib: Library, line: string, payload: string)
    requires Parse(lib, line) == Chunk(payload)
    ensures Expect(lib, Flat([Body([line])])) == Expected([payload], SessionState.Completed)
  {
    hide Parse;
    var items := [Body([line])];
    assert items[1..] == [] && [line][1..] == [];
    assert Texts([line]) == [Text(line)];
    assert Flat(items) == [Text(line)];
    assert [Text(line)][1..] == [];
    assert Expect(lib, []) == Expected([], SessionState.Completed);
  }
}
