/** The module registry of `UniversalAgent` and what the agent does with the
    calls of one reply: the declarations of all registered modules, the
    first-match dispatch of a call, the model-mode selector, and the
    function and image turns built from the results. */
module Registry {
  import opened Text
  import opened Json
  import opened Transcript
  import opened ToolOutcome
  import GeminiClient
  import ImageMarker
  import FileTools
  import FileModule
  import HttpModule
  import AIControl

  /** What a handled call does to the agent besides its result. */
  datatype Effect = NoEffect | NewDisk(disk: FileTools.Disk) | SwitchMode(mode: string)

  /** A registered module, as the agent sees it through `IAgentModule`: its
      `GetToolDeclarations` for the agent's mode, and its
      `TryHandleToolCallAsync` with what handling does to the agent. */
  datatype Module = Module(
    declare: bool -> seq<Json>,
    handle: (FileTools.Disk, string, Args) -> (Effect, Outcome))

  /** A module that passes a call on does nothing else, and only the mode
      switch changes the mode, answering with its confirmation. */
  ghost predicate ValidModule(m: Module) {
    (forall disk, name, args :: m.handle(disk, name, args).1.NotHandled? ==> m.handle(disk, name, args).0 == NoEffect)
    && (forall disk, name, args :: m.handle(disk, name, args).0.SwitchMode? ==>
          m.handle(disk, name, args).1 == Handled(AIControl.SwitchedMessage(m.handle(disk, name, args).0.mode)))
  }

  ghost predicate ValidModules(modules: seq<Module>) {
    forall i :: 0 <= i < |modules| ==> ValidModule(modules[i])
  }

  /** `FileModule`: the file tools act on the disk. The module is only
      built over tools whose base directory ends with the separator, so the
      guard in its handler always holds. */
  function Files(files: FileModule.FileModule): Module
    requires FileTools.Valid(files.tools)
  {
    Module(
      (isSmart: bool) => FilesDeclarations(files, isSmart),
      (disk: FileTools.Disk, name: string, args: Args) =>
        if FileTools.Valid(files.tools) then FilesHandle(files, disk, name, args) else (NoEffect, NotHandled))
  }

  function FilesDeclarations(files: FileModule.FileModule, isSmart: bool): seq<Json> {
    FileModule.Declarations(files)
  }

  /** A file tool that handles a call replaces the disk; other names are
      passed on untouched. */
  function FilesHandle(files: FileModule.FileModule, disk: FileTools.Disk, name: string, args: Args): (r: (Effect, Outcome))
    requires FileTools.Valid(files.tools)
    ensures r.1.NotHandled? <==> name != "list_files" && name != "read_file" && name != "write_file"
    ensures r.1.NotHandled? ==> r.0 == NoEffect
    ensures !r.1.NotHandled? ==> r == (NewDisk(FileModule.TryHandle(files, disk, name, args).0), FileModule.TryHandle(files, disk, name, args).1)
  {
    var (after, outcome) := FileModule.TryHandle(files, disk, name, args);
    if outcome.NotHandled? then (NoEffect, outcome) else (NewDisk(after), outcome)
  }

  /** `HttpModule`: requests go out, nothing in the agent changes. */
  function Http(http: HttpModule.HttpModule): Module {
    Module(
      (isSmart: bool) => HttpDeclarations(isSmart),
      (disk: FileTools.Disk, name: string, args: Args) => HttpHandle(http, name, args))
  }

  function HttpDeclarations(isSmart: bool): seq<Json> {
    HttpModule.Declarations()
  }

  /** An HTTP call has no effect on the agent besides its result. */
  function HttpHandle(http: HttpModule.HttpModule, name: string, args: Args): (r: (Effect, Outcome))
    ensures r.0 == NoEffect
    ensures r.1.NotHandled? <==> name != "http_get" && name != "http_post"
  {
    (NoEffect, HttpModule.TryHandle(http, name, args))
  }

  /** `AIControlModule`, wired to the agent's `SetModelMode` and
      `IsSmartMode`. */
  function Control(): Module {
    Module(
      (isSmart: bool) => ControlDeclarations(isSmart),
      (disk: FileTools.Disk, name: string, args: Args) => ControlHandle(name, args))
  }

  function ControlDeclarations(isSmart: bool): seq<Json> {
    AIControl.Declarations(Some(isSmart))
  }

  /** Only `switch_model_mode` with a mode that is not null asks for a
      switch, and it answers with the confirmation for that mode. */
  function ControlHandle(name: string, args: Args): (r: (Effect, Outcome))
    ensures r.1.NotHandled? ==> r.0 == NoEffect
    ensures name != "switch_model_mode" ==> r == (NoEffect, NotHandled)
    ensures r.0.SwitchMode? <==> name == "switch_model_mode" && "mode" in args && !args["mode"].JNull?
    ensures r.0.SwitchMode? ==> r.1 == Handled(AIControl.SwitchedMessage(r.0.mode))
    ensures name == "switch_model_mode" && "mode" in args && args["mode"].JStr? ==> r.0 == SwitchMode(args["mode"].s)
  {
    var (mode, outcome) := AIControl.TryHandle(name, args);
    if mode.Some? then (SwitchMode(mode.value), outcome) else (NoEffect, outcome)
  }

  /** Each of the agent's three modules keeps to the module contract. */
  lemma FilesValid(files: FileModule.FileModule)
    requires FileTools.Valid(files.tools)
    ensures ValidModule(Files(files))
  {
  }

  lemma HttpValid(http: HttpModule.HttpModule)
    ensures ValidModule(Http(http))
  {
  }

  lemma ControlValid()
    ensures ValidModule(Control())
  {
  }

  lemma AgentModulesValid(files: FileModule.FileModule, http: HttpModule.HttpModule)
    requires FileTools.Valid(files.tools)
    ensures ValidModules([Files(files), Http(http), Control()])
  {
    FilesValid(files);
    HttpValid(http);
    ControlValid();
    ThreeValid(Files(files), Http(http), Control());
  }

  lemma ThreeValid(a: Module, b: Module, c: Module)
    requires ValidModule(a) && ValidModule(b) && ValidModule(c)
    ensures ValidModules([a, b, c])
  {
    var modules := [a, b, c];
    assert modules[0] == a && modules[1] == b && modules[2] == c;
  }

  /** The part of the agent's state that tool calls can change: the files,
      the model mode, the switch flag of the current round and the tool
      declarations sent with each request. */
  datatype ToolState = ToolState(disk: FileTools.Disk, useSmart: bool, switched: bool, declarations: seq<Json>)

  // ---------------------------------------------------------------- declarations

  /** A module's `GetToolDeclarations` for the agent's mode. */
  function ModuleDeclarations(m: Module, isSmart: bool): seq<Json> {
    m.declare(isSmart)
  }

  /** The declarations of `modules`, concatenated in registration order. */
  function AllDeclarations(modules: seq<Module>, isSmart: bool): seq<Json> {
    if |modules| == 0 then []
    else AllDeclarations(modules[..|modules| - 1], isSmart) + ModuleDeclarations(modules[|modules| - 1], isSmart)
  }

  /** `InitializeToolDeclarations`: one `DefineTools` entry wrapping every
      declaration, or the current declarations when there are none. */
  function Rebuilt(modules: seq<Module>, isSmart: bool, current: seq<Json>): (ds: seq<Json>)
    ensures AllDeclarations(modules, isSmart) == [] ==> ds == current
    ensures AllDeclarations(modules, isSmart) != [] ==>
              |ds| == 1 && Field(ds[0], "function_declarations") == Some(JArr(AllDeclarations(modules, isSmart)))
  {
    var all := AllDeclarations(modules, isSmart);
    if |all| == 0 then current else GeminiClient.DefineTools(all)
  }

  /** Three registered modules declare, in order, their own tools. */
  lemma ThreeModules(ms: seq<Module>, isSmart: bool)
    requires |ms| == 3
    ensures AllDeclarations(ms, isSmart)
            == ModuleDeclarations(ms[0], isSmart) + ModuleDeclarations(ms[1], isSmart) + ModuleDeclarations(ms[2], isSmart)
  {
    var two := ms[..2];
    var one := two[..1];
    DeclarationsStep(ms, isSmart);
    DeclarationsStep(two, isSmart);
    DeclarationsStep(one, isSmart);
    assert one[..0] == [] && one[0] == ms[0] && two[1] == ms[1];
    var a, b, c := ModuleDeclarations(ms[0], isSmart), ModuleDeclarations(ms[1], isSmart), ModuleDeclarations(ms[2], isSmart);
    assert AllDeclarations(one, isSmart) == [] + a;
    assert [] + a == a;
  }

  /** Registering one more module appends its declarations. */
  lemma DeclarationsStep(ms: seq<Module>, isSmart: bool)
    requires |ms| > 0
    ensures AllDeclarations(ms, isSmart) == AllDeclarations(ms[..|ms| - 1], isSmart) + ModuleDeclarations(ms[|ms| - 1], isSmart)
  {
  }

  /** The names the agent declares: the file tools, the HTTP tools, then the
      mode switch. */
  lemma RegisteredNames(files: FileModule.FileModule, http: HttpModule.HttpModule, isSmart: bool)
    requires FileTools.Valid(files.tools)
    ensures var ds := AllDeclarations([Files(files), Http(http), Control()], isSmart);
      |ds| == 6
      && GeminiClient.DeclaredName(ds[0]) == Some("list_files")
      && GeminiClient.DeclaredName(ds[1]) == Some("read_file")
      && GeminiClient.DeclaredName(ds[2]) == Some("write_file")
      && GeminiClient.DeclaredName(ds[3]) == Some("http_get")
      && GeminiClient.DeclaredName(ds[4]) == Some("http_post")
      && GeminiClient.DeclaredName(ds[5]) == Some("switch_model_mode")
  {
    var ms := [Files(files), Http(http), Control()];
    ThreeModules(ms, isSmart);
    NamesAt(ModuleDeclarations(ms[0], isSmart), ModuleDeclarations(ms[1], isSmart), ModuleDeclarations(ms[2], isSmart));
  }

  lemma NamesAt(f: seq<Json>, h: seq<Json>, c: seq<Json>)
    requires |f| == 3 && |h| == 2 && |c| == 1
    ensures var ds := f + h + c;
      |ds| == 6 && ds[0] == f[0] && ds[1] == f[1] && ds[2] == f[2] && ds[3] == h[0] && ds[4] == h[1] && ds[5] == c[0]
  {
  }

  // ---------------------------------------------------------------- mode selection

  /** Only `fast`, in any case, selects the fast client. */
  predicate IsFast(mode: Option<string>) {
    mode.Some? && ToLower(mode.value) == "fast"
  }

  /** `SetModelMode(mode)`: a change of mode rebuilds the declarations for the
      new mode and raises the switch flag; selecting the active mode changes
      nothing. */
  function SwitchedTo(modules: seq<Module>, st: ToolState, mode: Option<string>): (r: ToolState)
    ensures r.useSmart == !IsFast(mode) && r.disk == st.disk
    ensures st.useSmart == !IsFast(mode) ==> r == st
    ensures st.useSmart != !IsFast(mode) ==> r.switched && r.declarations == Rebuilt(modules, r.useSmart, st.declarations)
  {
    var smart := !IsFast(mode);
    if smart == st.useSmart then st
    else st.(useSmart := smart, switched := true, declarations := Rebuilt(modules, smart, st.declarations))
  }

  /** Selecting a mode twice is selecting it once. */
  lemma SwitchIdempotent(modules: seq<Module>, st: ToolState, mode: Option<string>)
    ensures SwitchedTo(modules, SwitchedTo(modules, st, mode), mode) == SwitchedTo(modules, st, mode)
  {
  }

  /** Whatever the spelling, `fast` selects the fast client, and `smart`, any
      other text and null select the smart one. */
  lemma FastOnlyByName(modules: seq<Module>, st: ToolState)
    ensures !SwitchedTo(modules, st, Some("FAST")).useSmart && !SwitchedTo(modules, st, Some("Fast")).useSmart
    ensures SwitchedTo(modules, st, Some("smart")).useSmart && SwitchedTo(modules, st, None).useSmart
    ensures SwitchedTo(modules, st, Some("fast ")).useSmart
  {
    assert ToLower("FAST") == "fast";
    assert ToLower("Fast") == "fast";
    assert |ToLower("fast ")| == 5;
    assert ToLower("smart")[0] == 's';
  }

  // ---------------------------------------------------------------- dispatch

  /** A module's `TryHandleToolCallAsync(name, args)`. */
  function Handle(m: Module, disk: FileTools.Disk, name: string, args: Args): (r: (Effect, Outcome))
    requires ValidModule(m)
    ensures r.1.NotHandled? ==> r.0 == NoEffect
    ensures r.0.SwitchMode? ==> r.1 == Handled(AIControl.SwitchedMessage(r.0.mode))
  {
    m.handle(disk, name, args)
  }

  const UnknownTool: string := "Error: Unknown tool."

  /** The first module from `i` on that does not pass on the call: its index,
      effect and outcome; past the end, no module handled it. */
  function FirstMatch(modules: seq<Module>, i: nat, disk: FileTools.Disk, name: string, args: Args): (r: (nat, Effect, Outcome))
    requires ValidModules(modules) && i <= |modules|
    ensures i <= r.0 <= |modules|
    ensures forall j :: i <= j < r.0 ==> Handle(modules[j], disk, name, args).1.NotHandled?
    ensures r.0 < |modules| ==> (r.1, r.2) == Handle(modules[r.0], disk, name, args) && !r.2.NotHandled?
    ensures r.0 == |modules| ==> r.1 == NoEffect && r.2 == NotHandled
    decreases |modules| - i
  {
    if i == |modules| then (i, NoEffect, NotHandled)
    else
      var (effect, outcome) := Handle(modules[i], disk, name, args);
      if outcome.NotHandled? then FirstMatch(modules, i + 1, disk, name, args)
      else (i, effect, outcome)
  }

  /** `ProcessToolCallAsync(name, args)`: the result of the first module that
      handles the call, with its effect; the unknown-tool text when none
      does. */
  function Dispatch(modules: seq<Module>, st: ToolState, name: string, args: Args): (r: (ToolState, Outcome))
    requires ValidModules(modules)
  {
    var (_, effect, outcome) := FirstMatch(modules, 0, st.disk, name, args);
    match effect
    case NoEffect => (st, if outcome.NotHandled? then Handled(UnknownTool) else outcome)
    case NewDisk(disk) => (st.(disk := disk), outcome)
    case SwitchMode(mode) => (SwitchedTo(modules, st, Some(mode)), outcome)
  }

  /** Dispatch never passes a call on: an unclaimed name is answered with the
      unknown-tool text, and the state is then unchanged. */
  lemma DispatchAnswers(modules: seq<Module>, st: ToolState, name: string, args: Args)
    requires ValidModules(modules)
    ensures !Dispatch(modules, st, name, args).1.NotHandled?
    ensures (forall j :: 0 <= j < |modules| ==> Handle(modules[j], st.disk, name, args).1.NotHandled?) ==>
              Dispatch(modules, st, name, args) == (st, Handled(UnknownTool))
  {
    var r := FirstMatch(modules, 0, st.disk, name, args);
    assert r.0 < |modules| ==> !Handle(modules[r.0], st.disk, name, args).1.NotHandled?;
  }

  /** The first module that claims a call decides it: modules after it are
      not consulted, so registering more modules behind does not change the
      dispatch of a name an earlier module handles. */
  lemma {:induction false} FirstMatchWins(modules: seq<Module>, more: seq<Module>, i: nat, disk: FileTools.Disk, name: string, args: Args)
    requires ValidModules(modules) && ValidModules(modules + more) && i <= |modules|
    requires FirstMatch(modules, i, disk, name, args).0 < |modules|
    ensures FirstMatch(modules + more, i, disk, name, args) == FirstMatch(modules, i, disk, name, args)
    decreases |modules| - i
  {
    assert (modules + more)[i] == modules[i];
    if Handle(modules[i], disk, name, args).1.NotHandled? {
      FirstMatchWins(modules, more, i + 1, disk, name, args);
    }
  }

  // ---------------------------------------------------------------- the calls of a reply

  /** The text of a result; dispatch never passes a call on. */
  function ResultText(outcome: Outcome): string {
    match outcome
    case Handled(text) => text
    case _ => UnknownTool
  }

  /** Dispatching the parts of a reply in order: the state after the last
      call, the results, and the message of the exception that stopped the
      round, if any (a part that cannot be read, or a call that threw). */
  function DispatchParts(modules: seq<Module>, st: ToolState, parts: seq<Part>): (r: (ToolState, seq<string>, Option<string>))
    requires ValidModules(modules)
    ensures r.2.None? ==> |r.1| == |Calls(parts)|
    decreases |parts|
  {
    if |parts| == 0 then (st, [], None)
    else
      assert parts == [parts[0]] + parts[1..];
      CallsAppend([parts[0]], parts[1..]);
      match parts[0]
      case BrokenPart(message) => (st, [], Some(message))
      case CallPart(name, args) =>
        (match Dispatch(modules, st, name, args)
         case (st', Threw(message)) => (st', [], Some(message))
         case (st', outcome) =>
           var rest := DispatchParts(modules, st', parts[1..]);
           (rest.0, [ResultText(outcome)] + rest.1, rest.2))
      case _ => DispatchParts(modules, st, parts[1..])
  }

  /** The loop over a reply's parts has reached part `i` in the state `st`
      with the results `results`: dispatching the remaining parts from there
      completes the dispatch of the whole reply from `st0`. */
  ghost predicate PartsFrom(modules: seq<Module>, st0: ToolState, parts: seq<Part>, i: nat, st: ToolState, results: seq<string>)
    requires ValidModules(modules) && i <= |parts|
  {
    var rest := DispatchParts(modules, st, parts[i..]);
    DispatchParts(modules, st0, parts) == (rest.0, results + rest.1, rest.2)
  }

  lemma PartsStart(modules: seq<Module>, st: ToolState, parts: seq<Part>)
    requires ValidModules(modules)
    ensures PartsFrom(modules, st, parts, 0, st, [])
  {
    assert parts[0..] == parts;
    var r := DispatchParts(modules, st, parts);
    assert [] + r.1 == r.1;
  }

  lemma PartsEnd(modules: seq<Module>, st0: ToolState, parts: seq<Part>, st: ToolState, results: seq<string>)
    requires ValidModules(modules) && PartsFrom(modules, st0, parts, |parts|, st, results)
    ensures DispatchParts(modules, st0, parts) == (st, results, None)
  {
    assert parts[|parts|..] == [];
    assert results + [] == results;
  }

  /** A part that is neither a call nor unreadable changes nothing. */
  lemma PartsSkip(modules: seq<Module>, st0: ToolState, parts: seq<Part>, i: nat, st: ToolState, results: seq<string>)
    requires ValidModules(modules) && i < |parts| && PartsFrom(modules, st0, parts, i, st, results)
    requires !parts[i].CallPart? && !parts[i].BrokenPart?
    ensures PartsFrom(modules, st0, parts, i + 1, st, results)
  {
    assert parts[i..][0] == parts[i] && parts[i..][1..] == parts[i + 1..];
  }

  /** An unreadable part stops the dispatch in the state reached. */
  lemma PartsBroken(modules: seq<Module>, st0: ToolState, parts: seq<Part>, i: nat, st: ToolState, results: seq<string>)
    requires ValidModules(modules) && i < |parts| && PartsFrom(modules, st0, parts, i, st, results)
    requires parts[i].BrokenPart?
    ensures DispatchParts(modules, st0, parts).0 == st && DispatchParts(modules, st0, parts).2 == Some(parts[i].message)
  {
    assert parts[i..][0] == parts[i];
  }

  /** A call either throws, which stops the dispatch in the state the call
      left, or adds its result. */
  lemma PartsCall(modules: seq<Module>, st0: ToolState, parts: seq<Part>, i: nat, st: ToolState, results: seq<string>)
    requires ValidModules(modules) && i < |parts| && PartsFrom(modules, st0, parts, i, st, results)
    requires parts[i].CallPart?
    ensures var (st', outcome) := Dispatch(modules, st, parts[i].name, parts[i].args);
      if outcome.Threw? then DispatchParts(modules, st0, parts).0 == st' && DispatchParts(modules, st0, parts).2 == Some(outcome.message)
      else PartsFrom(modules, st0, parts, i + 1, st', results + [ResultText(outcome)])
  {
    assert parts[i..][0] == parts[i] && parts[i..][1..] == parts[i + 1..];
    var (st', outcome) := Dispatch(modules, st, parts[i].name, parts[i].args);
    if !outcome.Threw? {
      var rest := DispatchParts(modules, st', parts[i + 1..]);
      assert results + ([ResultText(outcome)] + rest.1) == (results + [ResultText(outcome)]) + rest.1;
    }
  }

  /** A reply made of one call that does not throw yields that call's state
      and result. */
  lemma OneCall(modules: seq<Module>, st: ToolState, name: string, args: Args)
    requires ValidModules(modules) && !Dispatch(modules, st, name, args).1.Threw?
    ensures DispatchParts(modules, st, [CallPart(name, args)])
            == (Dispatch(modules, st, name, args).0, [ResultText(Dispatch(modules, st, name, args).1)], None)
  {
    var parts := [CallPart(name, args)];
    var (st1, outcome) := Dispatch(modules, st, name, args);
    assert parts[0] == CallPart(name, args) && parts[1..] == [];
    var rest := DispatchParts(modules, st1, parts[1..]);
    assert rest == (st1, [], None);
    assert DispatchParts(modules, st, parts) == (rest.0, [ResultText(outcome)] + rest.1, rest.2);
    assert [ResultText(outcome)] + rest.1 == [ResultText(outcome)];
  }

  /** The function-response parts of a round: for each call, in order, the
      parts `BuildToolResponseParts` makes of its result. */
  function ResponseParts(calls: seq<Call>, results: seq<string>): seq<Part>
    requires |calls| == |results|
  {
    if |calls| == 0 then []
    else ImageMarker.BuildToolResponseParts(calls[0].name, results[0]) + ResponseParts(calls[1..], results[1..])
  }

  /** The response parts of one more call follow those of the earlier calls. */
  lemma {:induction false} ResponsePartsAppend(calls: seq<Call>, results: seq<string>, call: Call, result: string)
    requires |calls| == |results|
    ensures ResponseParts(calls + [call], results + [result])
            == ResponseParts(calls, results) + ImageMarker.BuildToolResponseParts(call.name, result)
  {
    if |calls| == 0 {
      assert calls + [call] == [call] && results + [result] == [result];
    } else {
      assert (calls + [call])[1..] == calls[1..] + [call];
      assert (results + [result])[1..] == results[1..] + [result];
      ResponsePartsAppend(calls[1..], results[1..], call, result);
    }
  }

  /** The calls among the parts up to `i + 1`: those up to `i`, and part `i`
      if it is one. */
  lemma CallsStep(parts: seq<Part>, i: nat)
    requires i < |parts|
    ensures Calls(parts[..i + 1]) == Calls(parts[..i]) + (if parts[i].CallPart? then [Call(parts[i].name, parts[i].args)] else [])
  {
    assert parts[..i + 1] == parts[..i] + [parts[i]];
    CallsAppend(parts[..i], [parts[i]]);
    assert [parts[i]][1..] == [];
  }

  /** The response parts of the calls up to part `i`, one more call answered. */
  lemma ResponsesAfterCall(parts: seq<Part>, i: nat, results: seq<string>, result: string)
    requires i < |parts| && parts[i].CallPart? && |results| == |Calls(parts[..i])|
    ensures |results + [result]| == |Calls(parts[..i + 1])|
    ensures ResponseParts(Calls(parts[..i + 1]), results + [result])
            == ResponseParts(Calls(parts[..i]), results) + ImageMarker.BuildToolResponseParts(parts[i].name, result)
  {
    CallsStep(parts, i);
    ResponsePartsAppend(Calls(parts[..i]), results, Call(parts[i].name, parts[i].args), result);
  }

  /** A part that is not a call adds no response. */
  lemma ResponsesAfterOther(parts: seq<Part>, i: nat)
    requires i < |parts| && !parts[i].CallPart?
    ensures Calls(parts[..i + 1]) == Calls(parts[..i])
  {
    CallsStep(parts, i);
    assert Calls(parts[..i]) + [] == Calls(parts[..i]);
  }

  /** One function-response part per call. */
  lemma {:induction false} ResponsePartsLength(calls: seq<Call>, results: seq<string>)
    requires |calls| == |results|
    ensures |ResponseParts(calls, results)| == |calls|
  {
    if |calls| > 0 {
      ResponsePartsLength(calls[1..], results[1..]);
    }
  }

  /** One function-response part per call, in call order, naming the call's
      function: so the number of parts is the number of calls. */
  lemma {:induction false} ResponsePartsOnePerCall(calls: seq<Call>, results: seq<string>)
    requires |calls| == |results|
    ensures |ResponseParts(calls, results)| == |calls|
    ensures forall k :: 0 <= k < |calls| ==>
              ResponseParts(calls, results)[k] == ResponsePart(calls[k].name, ImageMarker.ResponseContent(results[k]))
  {
    if |calls| > 0 {
      ResponsePartsOnePerCall(calls[1..], results[1..]);
      var rest := ResponseParts(calls[1..], results[1..]);
      assert forall k :: 1 <= k < |calls| ==> calls[k] == calls[1..][k - 1] && results[k] == results[1..][k - 1];
    }
  }

  /** The images among the results, in call order. */
  function Images(results: seq<string>): (images: seq<(string, string)>)
    ensures |images| <= |results|
  {
    if |results| == 0 then []
    else
      match ImageMarker.Extract(results[0])
      case Some(image) => [image] + Images(results[1..])
      case None => Images(results[1..])
  }

  /** A round carries no image exactly when none of its results is an image
      marker. */
  lemma {:induction false} NoImages(results: seq<string>)
    ensures |Images(results)| == 0 <==> forall k :: 0 <= k < |results| ==> ImageMarker.Extract(results[k]).None?
    decreases |results|
  {
    if |results| > 0 {
      NoImages(results[1..]);
      assert forall k :: 1 <= k < |results| ==> results[k] == results[1..][k - 1];
    }
  }

  const ImageCaption: string := "以上是透過 read_file 工具讀取的圖片，請根據圖片內容進行分析或回應。"

  /** The user turns that carry a round's images: none without images,
      otherwise one turn with every image, in order, and then one caption. */
  function ImageTurns(results: seq<string>): (turns: seq<Turn>)
    ensures |turns| <= 1
    ensures |turns| == 1 <==> |Images(results)| > 0
    ensures |turns| == 1 ==>
              turns[0].role == User
              && |turns[0].parts| == |Images(results)| + 1
              && turns[0].parts[|Images(results)|] == TextPart(ImageCaption)
              && forall k :: 0 <= k < |Images(results)| ==>
                   turns[0].parts[k] == InlinePart(Images(results)[k].0, Images(results)[k].1)
  {
    var images := Images(results);
    if |images| == 0 then []
    else [Turn(User, seq(|images|, k requires 0 <= k < |images| => InlinePart(images[k].0, images[k].1)) + [TextPart(ImageCaption)])]
  }
}
