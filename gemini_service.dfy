/** The live voice session of src/services/geminiService.ts: the tool list a
    session declares, the tool-call dispatcher, the playback scheduler, the
    teardown, and the small pure helpers of the chat stream.

    The module-level variables of the source (`liveSession`,
    `inputAudioContext`, `outputAudioContext`, `inputSource`, `processor`,
    `nextStartTime`, `sources`) are the fields of one `LiveSession` object.
    Browser objects (audio contexts, nodes, the remote session) are opaque
    handles; what the outside world sees of them is kept in logs: tool
    responses sent, host handlers invoked, buffers started, sources stopped,
    resources released, audio frames sent. */
module GeminiService {
  import opened Types
  import opened Text
  import PcmCodec

  // ---------------------------------------------------------------------
  // Tool declarations

  /** A function declaration offered to the remote model: its name, its
      parameter names and the required subset. */
  datatype ToolDeclaration = ToolDeclaration(name: string, parameters: seq<string>, required: seq<string>)

  const UpdateProfileTool := ToolDeclaration("updateProfile", ["name", "email", "mobile"], [])
  const BookAppointmentTool := ToolDeclaration("bookAppointment",
    ["doctorName", "specialty", "date", "time", "type"],
    ["doctorName", "specialty", "date", "time", "type"])
  const AddDoctorTool := ToolDeclaration("addDoctor",
    ["name", "specialty", "price", "rating"], ["name", "specialty"])
  const UpdateAppointmentTool := ToolDeclaration("updateAppointment",
    ["appointmentId", "date", "time", "status"], ["appointmentId"])
  const DeleteAppointmentTool := ToolDeclaration("deleteAppointment",
    ["appointmentId"], ["appointmentId"])

  /** The names the dispatcher treats as administrator-only. */
  predicate IsAdminToolName(name: string) {
    name == "addDoctor" || name == "updateAppointment" || name == "deleteAppointment"
  }

  predicate IsUserToolName(name: string) {
    name == "updateProfile" || name == "bookAppointment"
  }

  /** `activeTools`: the two user tools, followed by the three admin tools
      for an administrator session. */
  function ActiveTools(isAdmin: bool): (tools: seq<ToolDeclaration>)
    ensures |tools| == if isAdmin then 5 else 2
    ensures tools[..2] == [UpdateProfileTool, BookAppointmentTool]
    ensures isAdmin ==> tools[2..] == [AddDoctorTool, UpdateAppointmentTool, DeleteAppointmentTool]
    ensures forall t :: t in tools ==> forall p :: p in t.required ==> p in t.parameters
  {
    var base := [UpdateProfileTool, BookAppointmentTool];
    if isAdmin then base + [AddDoctorTool, UpdateAppointmentTool, DeleteAppointmentTool] else base
  }

  function ToolNames(tools: seq<ToolDeclaration>): (names: seq<string>)
    ensures |names| == |tools|
    ensures forall i :: 0 <= i < |tools| ==> names[i] == tools[i].name
  {
    seq(|tools|, i requires 0 <= i < |tools| => tools[i].name)
  }

  // ---------------------------------------------------------------------
  // Tool-call dispatch

  /** Argument values as the remote model sends them. */
  datatype Value = Str(s: string) | Num(n: real)

  /** One entry of `message.toolCall.functionCalls`. */
  datatype FunctionCall = FunctionCall(id: string, name: string, args: map<string, Value>)

  /** The host callbacks a tool can reach. */
  datatype Handler = OnUpdateProfile | OnBookAppointment | OnAddDoctor | OnUpdateAppointment | OnDeleteAppointment

  /** Which optional administrator callbacks the host supplied
      (`onUpdateProfile` and `onBookAppointment` are mandatory). */
  datatype Callbacks = Callbacks(addDoctor: bool, updateAppointment: bool, deleteAppointment: bool)

  /** The tool name each handler serves. */
  function HandlerTool(h: Handler): string {
    match h
    case OnUpdateProfile => "updateProfile"
    case OnBookAppointment => "bookAppointment"
    case OnAddDoctor => "addDoctor"
    case OnUpdateAppointment => "updateAppointment"
    case OnDeleteAppointment => "deleteAppointment"
  }

  /** What the dispatcher decides for one call before running anything:
      invoke a handler (and report `done` if it returns), or reply at once. */
  datatype Route = Invoke(handler: Handler, done: string) | Reply(status: string)

  const StatusOk := "ok"
  const StatusUnavailable := "error: capability not available"
  const StatusFailed := "error executing action"

  predicate Supplied(cb: Callbacks, name: string) {
    (name == "addDoctor" ==> cb.addDoctor)
    && (name == "updateAppointment" ==> cb.updateAppointment)
    && (name == "deleteAppointment" ==> cb.deleteAppointment)
  }

  /** The names a session declares are the user tools, plus the admin
      tools for an administrator. */
  lemma DeclaredNames(isAdmin: bool, name: string)
    ensures name in ToolNames(ActiveTools(isAdmin)) <==> IsUserToolName(name) || (isAdmin && IsAdminToolName(name))
  {
    var names := ToolNames(ActiveTools(isAdmin));
    assert names[0] == "updateProfile" && names[1] == "bookAppointment";
    if isAdmin {
      assert names[2] == "addDoctor" && names[3] == "updateAppointment" && names[4] == "deleteAppointment";
    }
    if name in names {
      var k :| 0 <= k < |names| && names[k] == name;
    }
  }

  /** The if-chain of `onmessage` over the call name and `context.isAdmin`. */
  function RouteCall(name: string, isAdmin: bool, cb: Callbacks): Route {
    if name == "updateProfile" then Invoke(OnUpdateProfile, "profile updated successfully")
    else if name == "bookAppointment" then Invoke(OnBookAppointment, "appointment booked successfully")
    else if name == "addDoctor" && isAdmin then
      (if cb.addDoctor then Invoke(OnAddDoctor, "doctor added successfully") else Reply(StatusUnavailable))
    else if name == "updateAppointment" && isAdmin then
      (if cb.updateAppointment then Invoke(OnUpdateAppointment, "appointment updated successfully") else Reply(StatusUnavailable))
    else if name == "deleteAppointment" && isAdmin then
      (if cb.deleteAppointment then Invoke(OnDeleteAppointment, "appointment deleted successfully") else Reply(StatusUnavailable))
    else Reply(StatusOk)
  }

  /** The dispatcher against the declared tool list: a handler runs exactly
      for a declared tool whose callback was supplied, and it is that tool's
      handler; an undeclared name (unknown, or admin-only in a user session)
      is answered "ok"; an admin tool without its callback is answered
      "error: capability not available". */
  lemma RouteCallDecisionTable(name: string, isAdmin: bool, cb: Callbacks)
    ensures var r := RouteCall(name, isAdmin, cb);
      && (r.Invoke? <==> name in ToolNames(ActiveTools(isAdmin)) && Supplied(cb, name))
      && (r.Invoke? ==> HandlerTool(r.handler) == name)
      && (r.Reply? ==> r.status == StatusOk || r.status == StatusUnavailable)
      && (r == Reply(StatusOk) <==> name !in ToolNames(ActiveTools(isAdmin)))
      && (r == Reply(StatusUnavailable) <==> isAdmin && IsAdminToolName(name) && !Supplied(cb, name))
  {
    DeclaredNames(isAdmin, name);
    assert StatusOk != StatusUnavailable;
  }

  /** The reply `{id, name, response: {result: {status}}}` of one call. */
  datatype ToolResponse = ToolResponse(id: string, name: string, status: string)

  /** A host handler invocation with the call's arguments. */
  datatype HandlerCall = HandlerCall(handler: Handler, args: map<string, Value>)

  /** The status reported for one call, given whether its handler threw. */
  function ResultStatus(r: Route, threw: bool): (status: string)
    ensures r.Reply? ==> status == r.status
    ensures r.Invoke? ==> status == (if threw then StatusFailed else r.done)
  {
    match r
    case Reply(s) => s
    case Invoke(_, done) => if threw then StatusFailed else done
  }

  /** "error executing action" is reported exactly when a handler ran and
      threw; no route's own status is that text. */
  lemma FailedIffHandlerThrew(name: string, isAdmin: bool, cb: Callbacks, threw: bool)
    ensures var r := RouteCall(name, isAdmin, cb);
      ResultStatus(r, threw) == StatusFailed <==> r.Invoke? && threw
  {
    var r := RouteCall(name, isAdmin, cb);
    if r.Reply? {
      assert r.status == StatusOk || r.status == StatusUnavailable;
      assert StatusOk != StatusFailed && StatusUnavailable != StatusFailed;
    } else if !threw {
      assert r.done != StatusFailed;
    }
  }

  /** The reply to one call, given whether its handler threw: it echoes the
      call's id and name. */
  function Answer(fc: FunctionCall, isAdmin: bool, cb: Callbacks, threw: bool): (r: ToolResponse)
    ensures r.id == fc.id && r.name == fc.name
  {
    ToolResponse(fc.id, fc.name, ResultStatus(RouteCall(fc.name, isAdmin, cb), threw))
  }

  /** The replies sent for the first `n` calls of a tool-call message, in
      loop order; `throws(k)` says whether the handler run for call `k`
      throws. */
  function Responses(calls: seq<FunctionCall>, n: nat, isAdmin: bool, cb: Callbacks, throws: nat -> bool): (rs: seq<ToolResponse>)
    requires n <= |calls|
    ensures |rs| == n
  {
    if n == 0 then [] else Responses(calls, n - 1, isAdmin, cb, throws) + [Answer(calls[n - 1], isAdmin, cb, throws(n - 1))]
  }

  /** Reply `k` answers call `k`: same id, same name, and the status its
      route and its handler's outcome give. */
  lemma {:induction false} ResponsesAnswerCalls(calls: seq<FunctionCall>, n: nat, isAdmin: bool, cb: Callbacks, throws: nat -> bool, k: nat)
    requires k < n <= |calls|
    ensures var r := Responses(calls, n, isAdmin, cb, throws)[k];
      r == ToolResponse(calls[k].id, calls[k].name, ResultStatus(RouteCall(calls[k].name, isAdmin, cb), throws(k)))
  {
    if k < n - 1 {
      ResponsesAnswerCalls(calls, n - 1, isAdmin, cb, throws, k);
    }
  }

  /** The handler run for one call, if its route runs one. */
  function Invoked(fc: FunctionCall, isAdmin: bool, cb: Callbacks): (hs: seq<HandlerCall>)
    ensures |hs| <= 1
  {
    var r := RouteCall(fc.name, isAdmin, cb);
    if r.Invoke? then [HandlerCall(r.handler, fc.args)] else []
  }

  /** The host handlers run for the first `n` calls, in loop order. */
  function Invocations(calls: seq<FunctionCall>, n: nat, isAdmin: bool, cb: Callbacks): seq<HandlerCall>
    requires n <= |calls|
  {
    if n == 0 then [] else Invocations(calls, n - 1, isAdmin, cb) + Invoked(calls[n - 1], isAdmin, cb)
  }

  /** At most one handler runs per call, and each handler run serves a tool
      the session declared, for a call with that name and the same
      arguments. */
  lemma {:induction false} InvocationsAreDeclared(calls: seq<FunctionCall>, n: nat, isAdmin: bool, cb: Callbacks)
    requires n <= |calls|
    ensures |Invocations(calls, n, isAdmin, cb)| <= n
    ensures forall h :: h in Invocations(calls, n, isAdmin, cb) ==>
      HandlerTool(h.handler) in ToolNames(ActiveTools(isAdmin))
      && exists k :: 0 <= k < n && calls[k].name == HandlerTool(h.handler) && calls[k].args == h.args
  {
    if n > 0 {
      InvocationsAreDeclared(calls, n - 1, isAdmin, cb);
      RouteCallDecisionTable(calls[n - 1].name, isAdmin, cb);
      forall h | h in Invocations(calls, n, isAdmin, cb)
        ensures exists k :: 0 <= k < n && calls[k].name == HandlerTool(h.handler) && calls[k].args == h.args
      {
        if h !in Invocations(calls, n - 1, isAdmin, cb) {
          assert calls[n - 1].name == HandlerTool(h.handler);
        }
      }
    }
  }

  /** A message none of whose calls names a declared tool runs no handler. */
  lemma {:induction false} UndeclaredCallsRunNothing(calls: seq<FunctionCall>, n: nat, isAdmin: bool, cb: Callbacks)
    requires n <= |calls|
    requires forall k :: 0 <= k < n ==> calls[k].name !in ToolNames(ActiveTools(isAdmin))
    ensures Invocations(calls, n, isAdmin, cb) == []
  {
    if n > 0 {
      UndeclaredCallsRunNothing(calls, n - 1, isAdmin, cb);
      RouteCallDecisionTable(calls[n - 1].name, isAdmin, cb);
    }
  }

  /** In a non-admin session no message runs an administrator handler,
      whatever names the remote model sends. */
  lemma {:induction false} NonAdminRunsOnlyUserHandlers(calls: seq<FunctionCall>, n: nat, cb: Callbacks)
    requires n <= |calls|
    ensures forall h :: h in Invocations(calls, n, false, cb) ==>
      h.handler == OnUpdateProfile || h.handler == OnBookAppointment
  {
    if n > 0 {
      NonAdminRunsOnlyUserHandlers(calls, n - 1, cb);
    }
  }

  // ---------------------------------------------------------------------
  // Playback scheduling, as a function of the arrivals

  /** An inbound audio chunk: the output clock when it arrived and its
      duration in seconds. */
  datatype Chunk = Chunk(arrival: real, duration: real)

  function Max(a: real, b: real): real {
    if a >= b then a else b
  }

  /** Start times the scheduler gives a run of chunks, from `next` on. */
  function Starts(next: real, chunks: seq<Chunk>): (ts: seq<real>)
    ensures |ts| == |chunks|
    decreases |chunks|
  {
    if chunks == [] then []
    else
      var t := Max(next, chunks[0].arrival);
      [t] + Starts(t + chunks[0].duration, chunks[1..])
  }

  function TotalDuration(chunks: seq<Chunk>): real
    decreases |chunks|
  {
    if chunks == [] then 0.0 else chunks[0].duration + TotalDuration(chunks[1..])
  }

  /** The played length of a non-empty prefix: its first chunk, then the
      rest of the prefix. */
  lemma TotalDurationCons(chunks: seq<Chunk>, k: nat)
    requires 0 < k <= |chunks|
    ensures TotalDuration(chunks[..k]) == chunks[0].duration + TotalDuration(chunks[1..][..k - 1])
  {
    assert chunks[..k][0] == chunks[0];
    assert chunks[..k][1..] == chunks[1..][..k - 1];
  }

  /** Gap-free playback: when every chunk arrives before the audio queued
      ahead of it has finished, chunk k starts exactly when the chunks before
      it have played, counted from the first chunk's start. */
  lemma {:induction false} BackToBack(next: real, chunks: seq<Chunk>, k: nat)
    requires k < |chunks|
    requires forall j :: 0 < j < |chunks| ==>
      chunks[j].arrival <= Max(next, chunks[0].arrival) + TotalDuration(chunks[..j])
    ensures Starts(next, chunks)[k] == Max(next, chunks[0].arrival) + TotalDuration(chunks[..k])
    decreases k
  {
    var t0 := Max(next, chunks[0].arrival);
    if k == 0 {
      assert chunks[..0] == [];
    } else {
      var rest := chunks[1..];
      var t1 := t0 + chunks[0].duration;
      assert TotalDuration(chunks[..1]) == chunks[0].duration by {
        assert chunks[..1][1..] == [];
      }
      assert Max(t1, rest[0].arrival) == t1;
      forall j | 0 < j < |rest|
        ensures rest[j].arrival <= Max(t1, rest[0].arrival) + TotalDuration(rest[..j])
      {
        TotalDurationCons(chunks, j + 1);
      }
      BackToBack(t1, rest, k - 1);
      TotalDurationCons(chunks, k);
    }
  }

  // ---------------------------------------------------------------------
  // Small pure helpers

  /** Statuses the service reports through `onStatusChange`. */
  datatype ServiceStatus = Connected | Disconnected | Error | PermissionDenied

  /** Microphone failure name → reported status. */
  function MicErrorStatus(errorName: string): (s: ServiceStatus)
    ensures s == PermissionDenied || s == Error
    ensures s == PermissionDenied <==> errorName == "NotAllowedError" || errorName == "PermissionDismissedError"
  {
    if errorName == "NotAllowedError" || errorName == "PermissionDismissedError" then PermissionDenied else Error
  }

  /** The quota test of the chat stream's error path. */
  predicate IsQuotaError(errString: string) {
    Contains(errString, "429") || Contains(errString, "RESOURCE_EXHAUSTED") || Contains(errString, "quota")
  }

  /** The error text is built by appending the error's messages to its JSON
      form; appending never hides a quota marker already present. */
  lemma QuotaSurvivesAppend(errString: string, more: string)
    requires IsQuotaError(errString)
    ensures IsQuotaError(errString + more)
  {
    if Contains(errString, "429") {
      ContainsAppend(errString, more, "429");
    } else if Contains(errString, "RESOURCE_EXHAUSTED") {
      ContainsAppend(errString, more, "RESOURCE_EXHAUSTED");
    } else {
      ContainsAppend(errString, more, "quota");
    }
  }

  /** The error text of the chat stream's catch: the error's JSON form, then
      its `message` and its nested `error.message`, each appended after a
      space when non-empty; when `JSON.stringify` throws, `String(error)`. */
  function ErrorText(json: Option<string>, asString: string, message: string, nested: string): string {
    match json
    case None => asString
    case Some(j) =>
      var withMessage := if message == [] then j else j + " " + message;
      if nested == [] then withMessage else withMessage + " " + nested
  }

  /** A quota marker in the error's JSON form yields the quota notice,
      whatever its messages are. */
  lemma QuotaInJsonGivesQuotaNotice(j: string, asString: string, message: string, nested: string)
    requires IsQuotaError(j)
    ensures ErrorNoticeFor(ErrorText(Some(j), asString, message, nested)) == QuotaNotice
  {
    var withMessage := if message == [] then j else j + " " + message;
    if message != [] {
      QuotaSurvivesAppend(j, " " + message);
      assert withMessage == j + (" " + message);
    }
    if nested != [] {
      QuotaSurvivesAppend(withMessage, " " + nested);
      assert withMessage + " " + nested == withMessage + (" " + nested);
    }
  }

  /** Which notice the stream yields when the chat request fails (the notice
      texts themselves are not modelled). */
  datatype ErrorNotice = QuotaNotice | ConnectionNotice

  function ErrorNoticeFor(errString: string): (n: ErrorNotice)
    ensures n == QuotaNotice <==> IsQuotaError(errString)
  {
    if IsQuotaError(errString) then QuotaNotice else ConnectionNotice
  }

  /** One grounding chunk; `web` is absent for non-web chunks. */
  datatype GroundingChunk = GroundingChunk(web: Option<Source>)

  /** `.map(c => c.web).filter(w => w).map(w => ({title, uri}))`. */
  function WebSources(chunks: seq<GroundingChunk>): (s: seq<Source>)
    ensures |s| <= |chunks|
    decreases |chunks|
  {
    if chunks == [] then []
    else (match chunks[0].web case Some(w) => [w] case None => []) + WebSources(chunks[1..])
  }

  /** The extraction keeps the web entries in order: it distributes over
      concatenation. */
  lemma {:induction false} WebSourcesAppend(a: seq<GroundingChunk>, b: seq<GroundingChunk>)
    ensures WebSources(a + b) == WebSources(a) + WebSources(b)
  {
    if a != [] {
      assert (a + b)[0] == a[0];
      assert (a + b)[1..] == a[1..] + b;
      WebSourcesAppend(a[1..], b);
    } else {
      assert a + b == b;
    }
  }

  /** A source is extracted exactly when some chunk carries it. */
  lemma {:induction false} WebSourcesMembership(chunks: seq<GroundingChunk>, x: Source)
    ensures x in WebSources(chunks) <==> exists k :: 0 <= k < |chunks| && chunks[k].web == Some(x)
  {
    if chunks != [] {
      WebSourcesMembership(chunks[1..], x);
      if exists k :: 0 <= k < |chunks[1..]| && chunks[1..][k].web == Some(x) {
        var k :| 0 <= k < |chunks[1..]| && chunks[1..][k].web == Some(x);
        assert chunks[k + 1].web == Some(x);
      }
      if exists k :: 0 <= k < |chunks| && chunks[k].web == Some(x) {
        var k :| 0 <= k < |chunks| && chunks[k].web == Some(x);
        if k > 0 {
          assert chunks[1..][k - 1].web == Some(x);
        }
      }
    }
  }

  /** The `sources` of a stream update: present only when grounding chunks
      exist and at least one of them carries a web source. */
  function UpdateSources(grounding: Option<seq<GroundingChunk>>): (r: Option<seq<Source>>)
    ensures r.Some? <==> grounding.Some? && exists k :: 0 <= k < |grounding.value| && grounding.value[k].web.Some?
    ensures r.Some? ==> r.value == WebSources(grounding.value) && |r.value| > 0
  {
    match grounding
    case None => None
    case Some(chunks) =>
      var s := WebSources(chunks);
      WebSourcesNonEmpty(chunks);
      if |s| > 0 then Some(s) else None
  }

  /** Some web source is extracted exactly when some chunk carries one. */
  lemma WebSourcesNonEmpty(chunks: seq<GroundingChunk>)
    ensures |WebSources(chunks)| > 0 <==> exists k :: 0 <= k < |chunks| && chunks[k].web.Some?
  {
    var s := WebSources(chunks);
    if |s| > 0 {
      WebSourcesMembership(chunks, s[0]);
    }
    if exists k :: 0 <= k < |chunks| && chunks[k].web.Some? {
      var k :| 0 <= k < |chunks| && chunks[k].web.Some?;
      WebSourcesMembership(chunks, chunks[k].web.value);
    }
  }

  /** The update one streamed chunk yields: its text when non-empty, and the
      extracted sources. */
  function ChunkUpdate(text: string, grounding: Option<seq<GroundingChunk>>): (u: StreamUpdate)
    ensures u.text.Some? <==> text != []
    ensures u.text.Some? ==> u.text.value == text
    ensures u.sources == UpdateSources(grounding)
  {
    StreamUpdate(if text == [] then None else Some(text), UpdateSources(grounding))
  }

  /** The word a metric's trend becomes in the insight prompt. */
  function TrendWord(t: Trend): (w: string)
    ensures w in {"increasing", "decreasing", "stable"}
    ensures w == "increasing" <==> t == Up
    ensures w == "decreasing" <==> t == Down
    ensures w == "stable" <==> t == Neutral
  {
    match t
    case Up => "increasing"
    case Down => "decreasing"
    case Neutral => "stable"
  }

  lemma TrendWordInjective(a: Trend, b: Trend)
    ensures TrendWord(a) == TrendWord(b) ==> a == b
  {
  }

  // ---------------------------------------------------------------------
  // The live session state

  /** An opaque browser object (audio context, node, remote session). */
  datatype Handle = Handle(id: nat)

  /** A resource released by teardown, in the order it is released. */
  datatype Resource = Microphone | Processor | InputContext | OutputContext | RemoteSession

  /** How `getUserMedia` settles. */
  datatype MicOutcome = Granted | Refused(errorName: string)

  /** The inline audio of a server message, after `atob`: absent (or the
      empty string), malformed base64, or PCM bytes. */
  datatype InlineAudio = Absent | Malformed | Pcm(bytes: seq<PcmCodec.byte>)

  /** A server message: optional tool calls, optional audio, the
      interrupted flag. */
  datatype ServerMessage = ServerMessage(toolCalls: Option<seq<FunctionCall>>, audio: InlineAudio, interrupted: bool)

  /** A `source.start(when)` call: the source, when, and for how long. */
  datatype Playback = Playback(source: nat, start: real, duration: real)

  const OutputSampleRate := 24000

  function Held(h: Option<Handle>, r: Resource): seq<Resource> {
    if h.Some? then [r] else []
  }

  /** The handles teardown releases, in the order `disconnectLive` does. */
  function Releases(inputSource: Option<Handle>, processor: Option<Handle>, inputContext: Option<Handle>,
                    outputContext: Option<Handle>, session: Option<Handle>): seq<Resource>
  {
    Held(inputSource, Microphone) + Held(processor, Processor) + Held(inputContext, InputContext)
    + Held(outputContext, OutputContext) + Held(session, RemoteSession)
  }

  function Count(h: Option<Handle>): nat {
    if h.Some? then 1 else 0
  }

  /** Teardown releases a resource exactly when its handle is held, and
      releases as many resources as there are held handles, so none twice. */
  lemma ReleasesExactlyHeld(inputSource: Option<Handle>, processor: Option<Handle>, inputContext: Option<Handle>,
                            outputContext: Option<Handle>, session: Option<Handle>)
    ensures var rs := Releases(inputSource, processor, inputContext, outputContext, session);
      && (Microphone in rs <==> inputSource.Some?) && (Processor in rs <==> processor.Some?)
      && (InputContext in rs <==> inputContext.Some?) && (OutputContext in rs <==> outputContext.Some?)
      && (RemoteSession in rs <==> session.Some?)
      && |rs| == Count(inputSource) + Count(processor) + Count(inputContext) + Count(outputContext) + Count(session)
  {
  }

  class LiveSession {
    var liveSession: Option<Handle>
    var inputAudioContext: Option<Handle>
    var outputAudioContext: Option<Handle>
    var inputSource: Option<Handle>
    var processor: Option<Handle>
    var nextStartTime: real
    var sources: set<nat>

    // What the open session's closures captured at connect time.
    var isAdmin: bool
    var callbacks: Callbacks

    // Observable effects.
    var declaredTools: seq<ToolDeclaration>
    var toolResponses: seq<ToolResponse>
    var handlerCalls: seq<HandlerCall>
    var playbacks: seq<Playback>
    var stopped: set<nat>
    var released: seq<Resource>
    var audioSent: seq<PcmCodec.Blob>

    // Counter naming fresh handles and sources.
    var created: nat

    ghost predicate Valid()
      reads this
    {
      && nextStartTime >= 0.0
      && (forall s :: s in sources ==> s < created)
    }

    /** No handle is held and no source is scheduled. */
    predicate TornDown()
      reads this
    {
      liveSession.None? && inputAudioContext.None? && outputAudioContext.None?
      && inputSource.None? && processor.None? && sources == {}
    }

    /** The state at module load. */
    constructor ()
      ensures Valid() && TornDown()
      ensures nextStartTime == 0.0
      ensures toolResponses == [] && handlerCalls == [] && playbacks == [] && released == [] && audioSent == []
      ensures stopped == {} && declaredTools == []
    {
      liveSession, inputAudioContext, outputAudioContext := None, None, None;
      inputSource, processor := None, None;
      nextStartTime, sources := 0.0, {};
      isAdmin, callbacks := false, Callbacks(false, false, false);
      declaredTools, toolResponses, handlerCalls, playbacks := [], [], [], [];
      stopped, released, audioSent := {}, [], [];
      created := 0;
    }

    method NewHandle() returns (h: Handle)
      modifies this`created
      ensures h == Handle(old(created)) && created == old(created) + 1
    {
      h := Handle(created);
      created := created + 1;
    }

    /** `connectLive`. Both audio contexts are created first (any previous
        ones are overwritten, not closed). A missing API key makes `getClient`
        throw outside the try block: the promise rejects and no status is
        reported. A refused microphone reports the mapped status and opens
        nothing. Otherwise the remote session is opened with the tool list
        for the caller's privilege; an exception from `ai.live.connect`
        reports `error`. `reported` is the status passed to `onStatusChange`. */
    method Connect(admin: bool, cb: Callbacks, apiKeyPresent: bool, mic: MicOutcome, connectThrows: bool)
      returns (reported: Option<ServiceStatus>)
      requires Valid()
      modifies this`inputAudioContext, this`outputAudioContext, this`created, this`liveSession
      modifies this`isAdmin, this`callbacks, this`declaredTools
      ensures Valid()
      ensures inputAudioContext.Some? && outputAudioContext.Some?
      ensures !apiKeyPresent ==> reported == None && liveSession == old(liveSession)
      ensures apiKeyPresent && mic.Refused? ==>
        reported == Some(MicErrorStatus(mic.errorName)) && liveSession == old(liveSession)
      ensures apiKeyPresent && mic.Granted? && connectThrows ==>
        reported == Some(Error) && liveSession == old(liveSession)
      ensures apiKeyPresent && mic.Granted? && !connectThrows ==>
        && reported == None && liveSession.Some?
        && isAdmin == admin && callbacks == cb
        && declaredTools == ActiveTools(admin)
      ensures !(apiKeyPresent && mic.Granted? && !connectThrows) ==>
        isAdmin == old(isAdmin) && callbacks == old(callbacks) && declaredTools == old(declaredTools)
    {
      var input := NewHandle();
      var output := NewHandle();
      inputAudioContext, outputAudioContext := Some(input), Some(output);
      if !apiKeyPresent {
        return None;
      }
      var tools := ActiveTools(admin);
      if mic.Refused? {
        return Some(MicErrorStatus(mic.errorName));
      }
      if connectThrows {
        return Some(Error);
      }
      var session := NewHandle();
      liveSession := Some(session);
      isAdmin, callbacks := admin, cb;
      declaredTools := tools;
      reported := None;
    }

    /** `onopen`: reports `connected`, then wires the microphone into a
        script processor when the input context still exists. */
    method OnOpen() returns (reported: ServiceStatus)
      requires Valid()
      modifies this`inputSource, this`processor, this`created
      ensures Valid()
      ensures reported == Connected
      ensures old(inputAudioContext).Some? ==> inputSource.Some? && processor.Some?
      ensures old(inputAudioContext).None? ==> inputSource == old(inputSource) && processor == old(processor)
    {
      reported := Connected;
      if inputAudioContext.None? {
        return;
      }
      var src := NewHandle();
      var proc := NewHandle();
      inputSource, processor := Some(src), Some(proc);
    }

    /** `onaudioprocess`: while the processor is wired, each captured frame
        is packed and sent, in capture order. The volume estimate is not
        modelled. */
    method OnAudioProcess(frame: array<real>)
      modifies this`audioSent
      ensures processor.Some? ==> audioSent == old(audioSent) + [PcmCodec.Blob(
        PcmCodec.BinaryOf(PcmCodec.LEBytes(PcmCodec.Quantized(frame[..]))), PcmCodec.PcmMimeType)]
      ensures processor.None? ==> audioSent == old(audioSent)
    {
      if processor.Some? {
        var blob := PcmCodec.CreatePcmBlob(frame);
        audioSent := audioSent + [blob];
      }
    }

    /** The tool loop of `onmessage`: one reply per call, in order, each
        after the call's handler (if any) has run or thrown; a throwing
        handler does not stop the loop. The message is handled as one
        atomic step, so the replies and handler runs are appended to the
        logs when the loop ends. */
    method DispatchToolCalls(calls: seq<FunctionCall>, throws: nat -> bool)
      modifies this`toolResponses, this`handlerCalls
      ensures toolResponses == old(toolResponses) + Responses(calls, |calls|, isAdmin, callbacks, throws)
      ensures handlerCalls == old(handlerCalls) + Invocations(calls, |calls|, isAdmin, callbacks)
    {
      var admin, cb := isAdmin, callbacks;
      var replies: seq<ToolResponse> := [];
      var ran: seq<HandlerCall> := [];
      for k := 0 to |calls|
        invariant replies == Responses(calls, k, admin, cb, throws)
        invariant ran == Invocations(calls, k, admin, cb)
      {
        var fc := calls[k];
        var route := RouteCall(fc.name, admin, cb);
        var status := StatusOk;
        match route {
          case Invoke(h, done) =>
            ran := ran + [HandlerCall(h, fc.args)];
            status := if throws(k) then StatusFailed else done;
          case Reply(s) =>
            status := s;
        }
        replies := replies + [ToolResponse(fc.id, fc.name, status)];
      }
      toolResponses := toolResponses + replies;
      handlerCalls := handlerCalls + ran;
    }

    /** `onmessage`: the tool calls, then the audio chunk, then the
        interrupted signal. A chunk that fails to decode (malformed base64,
        an odd byte count, no frame) ends the handler after the start time
        was already raised to the clock, so its interrupted flag is not
        seen. `now` is the output context's `currentTime`. */
    method OnMessage(msg: ServerMessage, now: real, throws: nat -> bool)
      requires Valid() && now >= 0.0
      modifies this`toolResponses, this`handlerCalls, this`nextStartTime, this`sources, this`stopped
      modifies this`playbacks, this`created
      ensures Valid()
      ensures toolResponses == old(toolResponses)
        + (if msg.toolCalls.Some? then Responses(msg.toolCalls.value, |msg.toolCalls.value|, isAdmin, callbacks, throws) else [])
      ensures handlerCalls == old(handlerCalls)
        + (if msg.toolCalls.Some? then Invocations(msg.toolCalls.value, |msg.toolCalls.value|, isAdmin, callbacks) else [])
      // no chunk to play
      ensures (msg.audio.Absent? || outputAudioContext.None?) ==>
        && playbacks == old(playbacks)
        && (msg.interrupted ==> sources == {} && nextStartTime == 0.0 && stopped == old(stopped) + old(sources))
        && (!msg.interrupted ==> sources == old(sources) && nextStartTime == old(nextStartTime) && stopped == old(stopped))
      // a chunk that fails to decode
      ensures !msg.audio.Absent? && outputAudioContext.Some? && !Decodable(msg.audio) ==>
        && playbacks == old(playbacks) && sources == old(sources) && stopped == old(stopped)
        && nextStartTime == Max(old(nextStartTime), now)
      // a chunk that plays: it starts at max(nextStartTime, now) and the next one is due when it ends
      ensures !msg.audio.Absent? && outputAudioContext.Some? && Decodable(msg.audio) ==>
        var start := Max(old(nextStartTime), now);
        var duration := ChunkDuration(msg.audio.bytes);
        var id := old(created);
        && playbacks == old(playbacks) + [Playback(id, start, duration)]
        && id !in old(sources)
        && (msg.interrupted ==>
              sources == {} && nextStartTime == 0.0 && stopped == old(stopped) + old(sources) + {id})
        && (!msg.interrupted ==>
              nextStartTime == start + duration && stopped == old(stopped) && sources == old(sources) + {id})
    {
      if msg.toolCalls.Some? {
        DispatchToolCalls(msg.toolCalls.value, throws);
      }
      var aborted := false;
      if !msg.audio.Absent? && outputAudioContext.Some? {
        aborted := PlayChunk(msg.audio, now);
      }
      if !aborted && msg.interrupted {
        Interrupt();
      }
    }

    /** The audio branch of `onmessage`: schedule the decoded chunk at the
        later of `nextStartTime` and the clock, and push `nextStartTime` to
        its end. `aborted` is set when decoding fails, which ends the
        handler. */
    method PlayChunk(audio: InlineAudio, now: real) returns (aborted: bool)
      requires Valid() && now >= 0.0 && !audio.Absent?
      modifies this`nextStartTime, this`sources, this`playbacks, this`created
      ensures Valid()
      ensures aborted <==> !Decodable(audio)
      ensures aborted ==>
        playbacks == old(playbacks) && sources == old(sources) && nextStartTime == Max(old(nextStartTime), now)
      ensures !aborted ==>
        var start := Max(old(nextStartTime), now);
        && playbacks == old(playbacks) + [Playback(old(created), start, ChunkDuration(audio.bytes))]
        && old(created) !in old(sources)
        && nextStartTime == start + ChunkDuration(audio.bytes)
        && sources == old(sources) + {old(created)}
    {
      nextStartTime := Max(nextStartTime, now);
      if audio.Malformed? {
        return true;
      }
      var bytes := audio.bytes;
      var view := new PcmCodec.byte[|bytes|](k requires 0 <= k < |bytes| => bytes[k]);
      var buffer := PcmCodec.DecodeAudioData(view, 1);
      if buffer == null {
        return true;
      }
      var duration := buffer.Length1 as real / OutputSampleRate as real;
      var id := created;
      created := created + 1;
      playbacks := playbacks + [Playback(id, nextStartTime, duration)];
      nextStartTime := nextStartTime + duration;
      sources := sources + {id};
      aborted := false;
    }

    /** The interrupted branch of `onmessage`: stop every scheduled source,
        forget them, and reset the start time to zero. */
    method Interrupt()
      requires Valid()
      modifies this`nextStartTime, this`sources, this`stopped
      ensures Valid()
      ensures sources == {} && nextStartTime == 0.0 && stopped == old(stopped) + old(sources)
    {
      stopped := stopped + sources;
      sources := {};
      nextStartTime := 0.0;
    }

    /** The `ended` event of a source: it leaves the active set. */
    method OnSourceEnded(source: nat)
      requires Valid()
      modifies this`sources
      ensures Valid()
      ensures sources == old(sources) - {source}
    {
      sources := sources - {source};
    }

    /** `disconnectLive`: release each handle that is set, in order (stop
        the microphone, disconnect the processor, close the input context,
        stop every scheduled source, close the output context, close the
        remote session), then forget it. A failing release is swallowed and
        the next one is still attempted. `nextStartTime` is left as it is. */
    method Disconnect()
      requires Valid()
      modifies this`inputSource, this`processor, this`inputAudioContext, this`outputAudioContext
      modifies this`liveSession, this`sources, this`stopped, this`released
      ensures Valid() && TornDown()
      ensures released == old(released) + Releases(old(inputSource), old(processor), old(inputAudioContext),
                                                   old(outputAudioContext), old(liveSession))
      ensures stopped == old(stopped) + old(sources)
      ensures old(TornDown()) ==> released == old(released) && stopped == old(stopped)
    {
      ReleaseCapture();
      ghost var mid := released;
      stopped := stopped + sources;
      sources := {};
      ReleasePlayback();
      assert released == mid + Held(old(outputAudioContext), OutputContext) + Held(old(liveSession), RemoteSession);
    }

    /** The microphone half of teardown. */
    method ReleaseCapture()
      modifies this`inputSource, this`processor, this`inputAudioContext, this`released
      ensures inputSource.None? && processor.None? && inputAudioContext.None?
      ensures released == old(released) + Held(old(inputSource), Microphone) + Held(old(processor), Processor)
                                        + Held(old(inputAudioContext), InputContext)
    {
      if inputSource.Some? {
        released := released + [Microphone];
        inputSource := None;
      }
      if processor.Some? {
        released := released + [Processor];
        processor := None;
      }
      if inputAudioContext.Some? {
        released := released + [InputContext];
        inputAudioContext := None;
      }
    }

    /** The playback half of teardown, after the sources are stopped. */
    method ReleasePlayback()
      modifies this`outputAudioContext, this`liveSession, this`released
      ensures outputAudioContext.None? && liveSession.None?
      ensures released == old(released) + Held(old(outputAudioContext), OutputContext) + Held(old(liveSession), RemoteSession)
    {
      if outputAudioContext.Some? {
        released := released + [OutputContext];
        outputAudioContext := None;
      }
      if liveSession.Some? {
        released := released + [RemoteSession];
        liveSession := None;
      }
    }

    /** `onclose`: reports `disconnected`, then tears down. */
    method OnClose() returns (reported: ServiceStatus)
      requires Valid()
      modifies this`inputSource, this`processor, this`inputAudioContext, this`outputAudioContext
      modifies this`liveSession, this`sources, this`stopped, this`released
      ensures Valid() && TornDown() && reported == Disconnected
      ensures released == old(released) + Releases(old(inputSource), old(processor), old(inputAudioContext),
                                                   old(outputAudioContext), old(liveSession))
      ensures stopped == old(stopped) + old(sources)
      ensures old(TornDown()) ==> released == old(released) && stopped == old(stopped)
    {
      reported := Disconnected;
      Disconnect();
    }

    /** `onerror`: reports `error`, then tears down. */
    method OnError() returns (reported: ServiceStatus)
      requires Valid()
      modifies this`inputSource, this`processor, this`inputAudioContext, this`outputAudioContext
      modifies this`liveSession, this`sources, this`stopped, this`released
      ensures Valid() && TornDown() && reported == Error
      ensures released == old(released) + Releases(old(inputSource), old(processor), old(inputAudioContext),
                                                   old(outputAudioContext), old(liveSession))
      ensures stopped == old(stopped) + old(sources)
      ensures old(TornDown()) ==> released == old(released) && stopped == old(stopped)
    {
      reported := Error;
      Disconnect();
    }
  }

  /** Inline audio that decodes into at least one frame. */
  predicate Decodable(audio: InlineAudio) {
    audio.Pcm? && |audio.bytes| % 2 == 0 && |audio.bytes| >= 2
  }

  /** Seconds of mono 24 kHz audio in a PCM payload. */
  function ChunkDuration(bytes: seq<PcmCodec.byte>): (d: real)
    ensures d >= 0.0
  {
    PcmCodec.FrameCount(|bytes|, 1) as real / OutputSampleRate as real
  }
}
