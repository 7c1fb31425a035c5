/** The OmniSharp client adapter: a connection state machine gating the base transport's
    connect and disconnect, the construction of editor requests, the per-request policy
    applied before a request reaches the transport, the projection of raw server events into
    log records, and the restart trigger driven by the repository's branch. The transport
    (the base client class) is an input: what its own connect does to the inherited fields is
    passed in, and every call into it is recorded in order. */
module OmniSharpClient {
  import opened Js
  import opened Text

  /** Lifecycle states of the base transport. */
  datatype DriverState = Disconnected | Connecting | Connected | Error

  /** Options handed to the base transport's connect. */
  datatype ConnectOptions = ConnectOptions(projectPath: JsValue)

  /** What the base transport's connect leaves in the inherited state and identity fields. */
  datatype Reported = Reported(state: DriverState, id: JsValue, serverPath: JsValue, projectPath: JsValue)

  /** One call from the adapter into the base transport. */
  datatype BaseCall =
    | BaseConnect(options: ConnectOptions)
    | BaseDisconnect
    | BaseRequest(action: string, request: Option<Record>)
    | BaseDispose

  /** The subscriptions and resources the adapter adds to its disposable set. */
  datatype Subscription =
    | ErrorReporter          // errors stream to the console
    | ResponseTracer         // developer-mode trace of responses
    | RestartOnBranchChange  // distinct branch values to the restart command
    | BranchSignal           // the branch subject itself
    | StatusWatch            // the repository's status-change notifications
    | ModelSubscription      // the client's view model

  /** Construction options of a client. */
  datatype ClientOptions = ClientOptions(projectPath: JsValue, temporary: JsValue, index: JsValue, hasRepository: bool)

  /** A cursor position as the editor reports it. */
  datatype Point = Point(row: int, column: int)

  /** A text editor as the adapter reads it. `alive` is the editor's own `alive` property, or
      None when it has none; `lines` are the buffer's lines; `uri` is None for an editor with
      no file (its URI is undefined). */
  datatype Editor = Editor(alive: Option<bool>, cursor: Point, lines: seq<string>, uri: Option<string>)

  const RestartCommand := "omnisharp-atom:restart-server"
  const StoppedLine := "Omnisharp server stopped."
  const LocationHint := "Change the location that OmniSharp is loaded from by setting the OMNISHARP environment variable"

  /** The property names of every request built from an editor. */
  const ContextKeys: set<string> := {"Column", "FileName", "Line", "Buffer"}

  /** The request that tells the transport not to send anything. */
  const AbortRecord: Record := map["abort" := Bool(true)]

  /** States in which `connect` returns at once without doing anything. */
  predicate ConnectIgnored(s: DriverState) {
    s == Connected || s == Connecting || s == Error
  }

  /** The status lines `connect` logs once the transport has started. */
  function ConnectLog(id: JsValue, serverPath: JsValue, projectPath: JsValue): seq<string> {
    [ "Starting OmniSharp server (pid:" + ToText(id) + ")",
      "OmniSharp Location: " + ToText(serverPath),
      LocationHint,
      "OmniSharp Path: " + ToText(projectPath) ]
  }

  /** The first project root, or undefined when the project has none. */
  function FirstProjectPath(paths: seq<string>): JsValue {
    if |paths| > 0 then Str(paths[0]) else Undefined
  }

  /** `editor || atom.workspace.getActiveTextEditor()`. */
  function PickEditor(editor: Option<Editor>, active: Option<Editor>): Option<Editor> {
    if editor.Some? then editor else active
  }

  function UriValue(uri: Option<string>): JsValue {
    if uri.Some? then Str(uri.value) else Undefined
  }

  /** The request fields snapshotted from an editor with the given buffer lines. */
  function ContextRecord(e: Editor, lines: seq<string>): Record {
    map["Column" := Num(e.cursor.column), "FileName" := UriValue(e.uri),
        "Line" := Num(e.cursor.row), "Buffer" := Str(Join(lines, '\n'))]
  }

  /** `getEditorContext`: nothing without an editor, otherwise the cursor, file and text. */
  function GetEditorContext(editor: Option<Editor>, active: Option<Editor>): (r: Option<Record>)
    ensures r.None? <==> editor.None? && active.None?
    ensures r.Some? ==>
      var e := if editor.Some? then editor.value else active.value;
      && r.value.Keys == ContextKeys
      && r.value["Line"] == Num(e.cursor.row)
      && r.value["Column"] == Num(e.cursor.column)
      && r.value["FileName"] == UriValue(e.uri)
      && r.value["Buffer"] == Str(Join(e.lines, '\n'))
  {
    match PickEditor(editor, active)
    case None => None
    case Some(e) => Some(ContextRecord(e, e.lines))
  }

  /** `makeRequest`: the abort sentinel for a dead editor, otherwise the editor's context read
      from the explicit buffer when one is given. Without any editor the source dereferences
      undefined and throws. */
  function MakeRequest(editor: Option<Editor>, active: Option<Editor>, buffer: Option<seq<string>>): (r: Outcome<Record>)
    ensures r.Threw? <==> editor.None? && active.None?
    ensures r.Returned? ==>
      var e := if editor.Some? then editor.value else active.value;
      && (r.value == AbortRecord <==> e.alive == Some(false))
      && (e.alive != Some(false) ==>
            && r.value.Keys == ContextKeys
            && r.value["Line"] == Num(e.cursor.row)
            && r.value["Column"] == Num(e.cursor.column)
            && r.value["FileName"] == UriValue(e.uri)
            && r.value["Buffer"] == Str(Join(if buffer.Some? then buffer.value else e.lines, '\n')))
  {
    match PickEditor(editor, active)
    case None => Threw("TypeError: editor is undefined")
    case Some(e) =>
      if e.alive == Some(false) then Returned(AbortRecord)
      else
        var r := ContextRecord(e, if buffer.Some? then buffer.value else e.lines);
        assert "abort" !in r;
        Returned(r)
  }

  /** Without an explicit buffer, a request from a live editor is exactly its context. */
  lemma MakeRequestIsContext(editor: Option<Editor>, active: Option<Editor>)
    requires PickEditor(editor, active).Some? && PickEditor(editor, active).value.alive != Some(false)
    ensures MakeRequest(editor, active, None) == Returned(GetEditorContext(editor, active).value)
  {
  }

  /** The buffer text of a request splits back into the editor's lines. */
  lemma RequestBufferRoundTrip(editor: Option<Editor>, active: Option<Editor>)
    requires PickEditor(editor, active).Some?
    requires var e := PickEditor(editor, active).value;
      |e.lines| >= 1 && forall i :: 0 <= i < |e.lines| ==> '\n' !in e.lines[i]
    ensures GetEditorContext(editor, active).Some?
    ensures var b := GetEditorContext(editor, active).value["Buffer"];
      b.Str? && Split(b.s, '\n') == PickEditor(editor, active).value.lines
  {
    SplitJoin(PickEditor(editor, active).value.lines, '\n');
  }

  /** `_.extend(target, source)`: every property of the source is copied over the target's. */
  function Extend(target: Record, source: Record): (r: Record)
    ensures r.Keys == target.Keys + source.Keys
    ensures forall k :: k in source ==> r[k] == source[k]
    ensures forall k :: k in target && k !in source ==> r[k] == target[k]
  {
    target + source
  }

  /** Whether a request names a file whose name ends in ".json". */
  predicate TargetsJson(req: Record) {
    EndsWith(LodashText(Get(req, "FileName")), ".json")
  }

  /** Only a request whose file name is a string can target a ".json" file. */
  lemma TargetsJsonOnlyForStrings(req: Record)
    requires TargetsJson(req)
    ensures Get(req, "FileName").Str?
  {
    var v := Get(req, "FileName");
    if !v.Str? {
      var t := LodashText(v);
      assert t[|t| - 5] == '.';
      NonStringTextHasNoDot(v);
      assert false;
    }
  }

  /** What `request` does with a request before the transport would see it. */
  datatype Dispatch = Suppressed | Forwarded(request: Option<Record>)

  /** The request policy: an aborted request is dropped; a ".json" request loses its buffer;
      every other request (a missing one included) is forwarded unchanged. */
  function RequestPolicy(req: Option<Record>): (d: Dispatch)
    ensures d.Suppressed? <==> req.Some? && Truthy(Get(req.value, "abort"))
    ensures d.Forwarded? ==> (d.request.Some? <==> req.Some?)
    ensures d.Forwarded? && req.Some? ==>
      && d.request.value.Keys == req.value.Keys + (if TargetsJson(req.value) then {"Buffer"} else {})
      && (forall k :: k in req.value && k != "Buffer" ==> d.request.value[k] == req.value[k])
      && Get(d.request.value, "Buffer") == (if TargetsJson(req.value) then Null else Get(req.value, "Buffer"))
  {
    match req
    case None => Forwarded(None)
    case Some(r) =>
      if Truthy(Get(r, "abort")) then Suppressed
      else if TargetsJson(r) then Forwarded(Some(r["Buffer" := Null]))
      else Forwarded(req)
  }

  /** The policy is idempotent: a forwarded request passes a second time unchanged. */
  lemma RequestPolicyIdempotent(req: Option<Record>)
    requires RequestPolicy(req).Forwarded?
    ensures RequestPolicy(RequestPolicy(req).request) == RequestPolicy(req)
  {
    if req.Some? && TargetsJson(req.value) {
      var r := req.value;
      var r' := r["Buffer" := Null];
      assert Get(r', "FileName") == Get(r, "FileName");
      assert Get(r', "abort") == Get(r, "abort");
      assert r'["Buffer" := Null] == r';
    }
  }

  /** A request built from a dead editor never reaches the transport. */
  lemma DeadEditorNeverSent(editor: Option<Editor>, active: Option<Editor>, buffer: Option<seq<string>>)
    requires PickEditor(editor, active).Some? && PickEditor(editor, active).value.alive == Some(false)
    ensures MakeRequest(editor, active, buffer).Returned?
    ensures RequestPolicy(Some(MakeRequest(editor, active, buffer).value)) == Suppressed
  {
  }

  /** The policy as written: reading `request['abort']` throws when no request is given, so
      the guard on the missing request that follows it is never reached. */
  function RequestPolicyAsWritten(req: Option<Record>): (r: Outcome<Dispatch>)
    ensures r.Threw? <==> req.None?
    ensures req.Some? && Truthy(Get(req.value, "abort")) ==> r == Returned(Suppressed)
    ensures req.Some? && !Truthy(Get(req.value, "abort")) ==>
      r.Returned? && r.value.Forwarded? && r.value.request.Some?
      && Get(r.value.request.value, "Buffer") == (if TargetsJson(req.value) then Null else Get(req.value, "Buffer"))
  {
    match req
    case None => Threw("TypeError: cannot read property 'abort' of undefined")
    case Some(r) =>
      if Truthy(Get(r, "abort")) then Returned(Suppressed)
      else if TargetsJson(r) then Returned(Forwarded(Some(r["Buffer" := Null])))
      else Returned(Forwarded(req))
  }

  /** The written policy throws on a missing request, where the corrected one forwards it;
      on every given request the two agree. */
  lemma RequestPolicyAsWrittenDiffers(req: Option<Record>)
    ensures req.None? ==> RequestPolicyAsWritten(req).Threw? && RequestPolicy(req) == Forwarded(None)
    ensures req.Some? ==> RequestPolicyAsWritten(req) == Returned(RequestPolicy(req))
  {
  }

  /** The body of a raw server event. */
  datatype EventBody = EventBody(Message: JsValue, LogLevel: JsValue)

  /** A raw server event: its type, its event name and its body (None when it has none). */
  datatype RawEvent = RawEvent(Type: JsValue, Event: JsValue, Body: Option<EventBody>)

  /** A log record for the output view. */
  datatype OutputMessage = OutputMessage(message: JsValue, logLevel: JsValue)

  /** The log record of one raw event: the body's message, else the event name, else "";
      the body's level, else "ERROR" for an error event, else "INFORMATION". Empty strings,
      like every other falsy value, count as missing. */
  function ToOutputMessage(e: RawEvent): (r: OutputMessage)
    ensures e.Body.Some? && Truthy(e.Body.value.Message) ==> r.message == e.Body.value.Message
    ensures !(e.Body.Some? && Truthy(e.Body.value.Message)) && Truthy(e.Event) ==> r.message == e.Event
    ensures !(e.Body.Some? && Truthy(e.Body.value.Message)) && !Truthy(e.Event) ==> r.message == Str("")
    ensures e.Body.Some? && Truthy(e.Body.value.LogLevel) ==> r.logLevel == e.Body.value.LogLevel
    ensures !(e.Body.Some? && Truthy(e.Body.value.LogLevel)) ==>
      r.logLevel == (if e.Type == Str("error") then Str("ERROR") else Str("INFORMATION"))
    ensures Truthy(r.logLevel)
  {
    var bodyMessage := if e.Body.Some? then e.Body.value.Message else Undefined;
    var bodyLevel := if e.Body.Some? then e.Body.value.LogLevel else Undefined;
    OutputMessage(
      Or(Or(bodyMessage, e.Event), Str("")),
      Or(Or(bodyLevel, And(Bool(e.Type == Str("error")), Str("ERROR"))), Str("INFORMATION")))
  }

  /** The log stream: one record per event, in the events' order. */
  function Logs(events: seq<RawEvent>): (r: seq<OutputMessage>)
    ensures |r| == |events|
    ensures forall i :: 0 <= i < |events| ==> r[i] == ToOutputMessage(events[i])
    decreases |events|
  {
    if |events| == 0 then [] else [ToOutputMessage(events[0])] + Logs(events[1..])
  }

  /** The log stream can be derived piecewise: later events only append records. */
  lemma LogsAppend(a: seq<RawEvent>, b: seq<RawEvent>)
    ensures Logs(a + b) == Logs(a) + Logs(b)
  {
    assert forall i :: 0 <= i < |a + b| ==> Logs(a + b)[i] == (Logs(a) + Logs(b))[i] by {
      forall i | 0 <= i < |a + b| ensures Logs(a + b)[i] == (Logs(a) + Logs(b))[i] {
        if i < |a| { assert (a + b)[i] == a[i]; } else { assert (a + b)[i] == b[i - |a|]; }
      }
    }
  }

  /** The value a `distinctUntilChanged` operator remembers after a stream of values. */
  function LastSeen(last: Option<JsValue>, xs: seq<JsValue>): Option<JsValue> {
    if |xs| == 0 then last else Some(xs[|xs| - 1])
  }

  /** `distinctUntilChanged` that has already seen `last`: the values that differ from their
      predecessor. */
  function DistinctUntilChanged(last: Option<JsValue>, xs: seq<JsValue>): seq<JsValue>
    decreases |xs|
  {
    if |xs| == 0 then []
    else if last == Some(xs[0]) then DistinctUntilChanged(last, xs[1..])
    else [xs[0]] + DistinctUntilChanged(Some(xs[0]), xs[1..])
  }

  /** One more value adds an output exactly when it differs from the last value seen. */
  lemma {:induction false} DistinctSnoc(last: Option<JsValue>, xs: seq<JsValue>, x: JsValue)
    ensures DistinctUntilChanged(last, xs + [x]) ==
      DistinctUntilChanged(last, xs) + (if LastSeen(last, xs) == Some(x) then [] else [x])
    decreases |xs|
  {
    if |xs| == 0 {
      assert xs + [x] == [x];
    } else {
      assert (xs + [x])[0] == xs[0];
      assert (xs + [x])[1..] == xs[1..] + [x];
      var next := if last == Some(xs[0]) then last else Some(xs[0]);
      DistinctSnoc(next, xs[1..], x);
      assert LastSeen(next, xs[1..]) == LastSeen(last, xs);
    }
  }

  /** No two consecutive outputs are equal, and the first differs from the value seen before. */
  lemma {:induction false} DistinctHasNoRepeats(last: Option<JsValue>, xs: seq<JsValue>)
    ensures var r := DistinctUntilChanged(last, xs);
      (|r| > 0 ==> last != Some(r[0])) && forall i :: 0 <= i < |r| - 1 ==> r[i] != r[i + 1]
    decreases |xs|
  {
    if |xs| > 0 {
      if last == Some(xs[0]) {
        DistinctHasNoRepeats(last, xs[1..]);
      } else {
        DistinctHasNoRepeats(Some(xs[0]), xs[1..]);
      }
    }
  }

  /** Repeating the value already seen produces no output at all. */
  lemma {:induction false} DistinctIgnoresRepeats(b: JsValue, xs: seq<JsValue>)
    requires forall i :: 0 <= i < |xs| ==> xs[i] == b
    ensures DistinctUntilChanged(Some(b), xs) == []
    decreases |xs|
  {
    if |xs| > 0 {
      DistinctIgnoresRepeats(b, xs[1..]);
    }
  }

  /** The first value ever seen is always passed on. */
  lemma DistinctPassesFirst(xs: seq<JsValue>)
    requires |xs| > 0
    ensures var r := DistinctUntilChanged(None, xs); |r| > 0 && r[0] == xs[0]
  {
  }

  /** A JavaScript object whose properties are updated in place. */
  class JsObject {
    var props: Record

    constructor (props: Record)
      ensures this.props == props
    {
      this.props := props;
    }
  }

  /** The client adapter. `state`, `id`, `serverPath` and `projectPath` are the fields it
      inherits from the transport; `transport` records the calls made into it. */
  class Client {
    var state: DriverState
    var id: JsValue
    var serverPath: JsValue
    var projectPath: JsValue
    var log: seq<string>
    var transport: seq<BaseCall>

    var path: JsValue
    var index: JsValue
    var temporary: JsValue
    const hasRepository: bool

    /** The disposable set, and what its disposal has released. */
    var subscriptions: seq<Subscription>
    var released: seq<Subscription>

    /** The value the branch filter last saw, the commands it dispatched, and (for the proof)
        every branch value published into it. */
    var lastBranch: Option<JsValue>
    var dispatched: seq<string>
    ghost var branches: seq<JsValue>

    ghost predicate Valid()
      reads this
    {
      && lastBranch == LastSeen(None, branches)
      && |dispatched| == |DistinctUntilChanged(None, branches)|
      && (forall i :: 0 <= i < |dispatched| ==> dispatched[i] == RestartCommand)
      && (StatusWatch in subscriptions ==> hasRepository)
    }

    /** The constructor: configure the derived streams, then the branch watcher when there is
        a repository, then the view model. */
    constructor (options: ClientOptions, initial: Reported)
      ensures Valid()
      ensures state == initial.state && id == initial.id
      ensures serverPath == initial.serverPath && projectPath == initial.projectPath
      ensures path == options.projectPath && index == options.index && temporary == options.temporary
      ensures hasRepository == options.hasRepository
      ensures subscriptions == [ErrorReporter, ResponseTracer]
        + (if options.hasRepository then [RestartOnBranchChange, BranchSignal, StatusWatch] else [])
        + [ModelSubscription]
      ensures log == [] && transport == [] && released == []
      ensures lastBranch == None && dispatched == [] && branches == []
    {
      state, id, serverPath, projectPath := initial.state, initial.id, initial.serverPath, initial.projectPath;
      log, transport := [], [];
      subscriptions, released := [ErrorReporter, ResponseTracer], [];
      temporary := options.temporary;
      path := options.projectPath;
      index := options.index;
      hasRepository := options.hasRepository;
      lastBranch, dispatched, branches := None, [], [];
      if options.hasRepository {
        subscriptions := subscriptions + [RestartOnBranchChange, BranchSignal, StatusWatch];
      }
      subscriptions := subscriptions + [ModelSubscription];
    }

    /** `connect`: a no-op while connected, connecting or in error; otherwise the transport
        connects and four status lines are logged. */
    method Connect(options: ConnectOptions, reported: Reported)
      modifies this`state, this`id, this`serverPath, this`projectPath, this`log, this`transport
      ensures ConnectIgnored(old(state)) ==>
        && state == old(state) && id == old(id) && serverPath == old(serverPath)
        && projectPath == old(projectPath) && log == old(log) && transport == old(transport)
      ensures !ConnectIgnored(old(state)) ==>
        && transport == old(transport) + [BaseConnect(options)]
        && state == reported.state && id == reported.id
        && serverPath == reported.serverPath && projectPath == reported.projectPath
        && log == old(log) + ConnectLog(reported.id, reported.serverPath, reported.projectPath)
    {
      if ConnectIgnored(state) {
        return;
      }
      transport := transport + [BaseConnect(options)];
      state, id, serverPath, projectPath := reported.state, reported.id, reported.serverPath, reported.projectPath;
      log := log + ["Starting OmniSharp server (pid:" + ToText(id) + ")"];
      log := log + ["OmniSharp Location: " + ToText(serverPath)];
      log := log + [LocationHint];
      log := log + ["OmniSharp Path: " + ToText(projectPath)];
    }

    /** `disconnect`: always disconnects the transport and logs one line. */
    method Disconnect(after: DriverState)
      modifies this`state, this`log, this`transport
      ensures transport == old(transport) + [BaseDisconnect]
      ensures log == old(log) + [StoppedLine]
      ensures state == after
    {
      transport := transport + [BaseDisconnect];
      state := after;
      log := log + [StoppedLine];
    }

    /** `toggle`: connect with the first project root when disconnected, disconnect in every
        other state (Error included). */
    method Toggle(projectPaths: seq<string>, reported: Reported, afterDisconnect: DriverState)
      modifies this`state, this`id, this`serverPath, this`projectPath, this`log, this`transport
      ensures old(state) == Disconnected ==>
        && transport == old(transport) + [BaseConnect(ConnectOptions(FirstProjectPath(projectPaths)))]
        && log == old(log) + ConnectLog(reported.id, reported.serverPath, reported.projectPath)
        && state == reported.state && id == reported.id
        && serverPath == reported.serverPath && projectPath == reported.projectPath
      ensures old(state) != Disconnected ==>
        && transport == old(transport) + [BaseDisconnect]
        && log == old(log) + [StoppedLine]
        && state == afterDisconnect
    {
      if state == Disconnected {
        Connect(ConnectOptions(FirstProjectPath(projectPaths)), reported);
      } else {
        Disconnect(afterDisconnect);
      }
    }

    /** `dispose`: the transport is torn down, then every subscription still held is released
        once and the set is emptied. */
    method Dispose()
      requires Valid()
      modifies this`transport, this`subscriptions, this`released
      ensures Valid()
      ensures transport == old(transport) + [BaseDispose]
      ensures released == old(released) + old(subscriptions)
      ensures subscriptions == []
    {
      transport := transport + [BaseDispose];
      released := released + subscriptions;
      subscriptions := [];
    }

    /** `makeDataRequest`: merges the editor request into `data` in place and returns `data`. */
    method MakeDataRequest(data: JsObject, editor: Option<Editor>, active: Option<Editor>, buffer: Option<seq<string>>)
      returns (r: Outcome<JsObject>)
      modifies data
      ensures MakeRequest(editor, active, buffer).Threw? ==> r.Threw? && data.props == old(data.props)
      ensures MakeRequest(editor, active, buffer).Returned? ==>
        r == Returned(data) && data.props == Extend(old(data.props), MakeRequest(editor, active, buffer).value)
    {
      var req := MakeRequest(editor, active, buffer);
      match req
      case Threw(e) =>
        r := Threw(e);
      case Returned(fields) =>
        data.props := data.props + fields;
        r := Returned(data);
    }

    /** `request`: applies the request policy; the request object itself loses its buffer when
        it targets a ".json" file, and only a forwarded request reaches the transport. */
    method Request(action: string, req: JsObject?) returns (d: Dispatch)
      modifies this`transport, if req == null then {} else {req}
      ensures d == RequestPolicy(if req == null then None else Some(old(req.props)))
      ensures d.Suppressed? ==> transport == old(transport)
      ensures d.Forwarded? ==> transport == old(transport) + [BaseRequest(action, d.request)]
      ensures req != null && d.Forwarded? ==> req.props == d.request.value
      ensures req != null && d.Suppressed? ==> req.props == old(req.props)
    {
      if req != null && Truthy(Get(req.props, "abort")) {
        return Suppressed;
      }
      if req != null && TargetsJson(req.props) {
        req.props := req.props["Buffer" := Null];
      }
      d := Forwarded(if req == null then None else Some(req.props));
      transport := transport + [BaseRequest(action, d.request)];
    }

    /** The repository reports a status change with the given current branch: the branch is
        published into the filter, which dispatches the restart command when it differs from
        the previously published one. Nothing happens when no repository is watched. */
    method OnDidChangeStatuses(branch: JsValue)
      requires Valid()
      modifies this`lastBranch, this`dispatched, this`branches
      ensures Valid()
      ensures StatusWatch !in subscriptions ==>
        lastBranch == old(lastBranch) && dispatched == old(dispatched) && branches == old(branches)
      ensures StatusWatch in subscriptions ==>
        && branches == old(branches) + [branch]
        && dispatched == old(dispatched) + (if old(lastBranch) == Some(branch) then [] else [RestartCommand])
    {
      if StatusWatch !in subscriptions {
        return;
      }
      DistinctSnoc(None, branches, branch);
      if lastBranch != Some(branch) {
        dispatched := dispatched + [RestartCommand];
      }
      lastBranch := Some(branch);
      branches := branches + [branch];
    }
  }
}
