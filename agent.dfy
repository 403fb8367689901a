/** The agent: `BaseAgent`'s tool-calling loop together with the module
    registry of `UniversalAgent`, its only concrete agent. One class holds
    the state both keep: the chat history, the model mode and its switch
    flag, the tool declarations, the registered modules, and the files the
    tools and the history saves write to. */
module Agent {
  import opened Text
  import opened Json
  import opened Transcript
  import opened ToolOutcome
  import GeminiClient
  import ImageMarker
  import FileTools
  import FileModule
  import HttpModule
  import AIControl
  import opened Registry

  /** The generative service as the agent sees it: the reply to the
      `index`-th request of a run, sent to the client of `model`. */
  type Service = (nat, string, GeminiClient.Request) -> Reply

  /** Rounds between two questions whether to go on. */
  const MaxIterations: nat := 10

  const RecoveryPath: string := "recovery_history.json"
  const InterruptedPath: string := "interrupted_history.json"

  const Instruction: string := "你是一個高效能的自動化助手，負責協助使用者執行各種任務（檔案操作、HTTP 請求等）。請專業且準確地回應。"

  /** How a round ends: another round follows, the model answered without
      calls, the reply had no candidates, or an exception stopped the run;
      and, for a whole run only, the user declined to go on after a tenth
      round in a row. */
  datatype Ending = Continue | Finished | NoReply | Failed(message: string) | Declined

  /** A history that does not end with a model turn still waiting for its
      function responses. */
  predicate LastNotModel(history: seq<Turn>) {
    |history| == 0 || history[|history| - 1].role != Model
  }

  /** The first `n` answers were all yes. */
  predicate AllYes(answers: seq<bool>, n: int) {
    n <= |answers| && forall k :: 0 <= k < n ==> answers[k]
  }

  /** The clean-up after an exception: a trailing model turn is removed, and
      only that. */
  function DropTrailingModel(history: seq<Turn>): (h: seq<Turn>)
    ensures h <= history && |history| <= |h| + 1
    ensures |h| < |history| <==> |history| > 0 && history[|history| - 1].role == Model
  {
    if |history| > 0 && history[|history| - 1].role == Model then history[..|history| - 1] else history
  }

  /** One round of `ExecuteAsync` once the service has replied: the new
      history, the new tool state and how the round ends. */
  function RoundOutcome(modules: seq<Module>, history: seq<Turn>, st: ToolState, reply: Reply): (r: (seq<Turn>, ToolState, Ending))
    requires ValidModules(modules)
    ensures !r.2.Declined?
  {
    var st0 := st.(switched := false);
    match reply
    case Failure(message) => (DropTrailingModel(history), st0, Failed(message))
    case NoCandidates => (history, st0, NoReply)
    case Answer(content, listed) =>
      if !listed then (DropTrailingModel(history + [content]), st0, Failed(NullReferenceMessage))
      else CallsOutcome(modules, history + [content], st0, content.parts)
  }

  /** The rest of a round once the model's turn, with the parts `parts`, has
      joined the history `answered`. */
  function CallsOutcome(modules: seq<Module>, answered: seq<Turn>, st: ToolState, parts: seq<Part>): (r: (seq<Turn>, ToolState, Ending))
    requires ValidModules(modules)
    ensures !r.2.Declined?
  {
    var (st1, results, thrown) := DispatchParts(modules, st, parts);
    if thrown.Some? then (DropTrailingModel(answered), st1, Failed(thrown.value))
    else if |results| == 0 then (answered, st1, Finished)
    else
      var (history, st2) := Responded(answered, st1, ResponseParts(Calls(parts), results), results);
      (history, st2, Continue)
  }

  /** The function responses of a round, and the images its results carry,
      join the history; a round that switched the mode with a single
      response is then taken back together with the model's turn. */
  function Responded(answered: seq<Turn>, st: ToolState, responses: seq<Part>, results: seq<string>): (seq<Turn>, ToolState)
  {
    var extended := answered + [Turn(Function, responses)] + ImageTurns(results);
    if st.switched && |responses| == 1 then
      ((if |extended| >= 2 then extended[..|extended| - 2] else extended), st.(switched := false))
    else (extended, st)
  }

  /** Where a run of `ExecuteAsync` stands: the history, the tool state,
      the rounds run so far, the questions asked, and how the last round
      ended. */
  datatype RunState = RunState(history: seq<Turn>, st: ToolState, rounds: nat, asked: nat, ending: Ending)

  /** The request of a round: the history, the declarations and the
      instruction, sent to the client of the mode in use. */
  function RoundRequest(history: seq<Turn>, st: ToolState, instruction: Option<string>): GeminiClient.Request {
    GeminiClient.Request(history, Some(st.declarations), instruction)
  }

  /** A round as a function of the history, the tool state and the number
      of rounds before it: the new history, tool state and ending. */
  type Step = (seq<Turn>, ToolState, nat) -> (seq<Turn>, ToolState, Ending)

  /** The agent's rounds: the service's reply to the round's request, sent
      to the client of the mode in use, applied by `RoundOutcome`. */
  function RoundOf(modules: seq<Module>, smartModel: string, fastModel: string, instruction: Option<string>,
                   service: Service): (step: Step)
    requires ValidModules(modules)
  {
    (history: seq<Turn>, st: ToolState, index: nat) =>
      RoundOutcome(modules, history, st,
                   service(index, if st.useSmart then smartModel else fastModel, RoundRequest(history, st, instruction)))
  }

  /** The rounds of `ExecuteAsync` from a state in which `iteration` rounds
      of the current stretch of ten have run: a round that does not continue
      ends the run; after the tenth round of a stretch the next answer
      decides, a yes starting a new stretch and a no (or no answer) ending
      the run. */
  function Run(step: Step, answers: seq<bool>, history: seq<Turn>, st: ToolState, rounds: nat, asked: nat, iteration: nat): (r: RunState)
    requires iteration < MaxIterations && asked <= |answers|
    ensures rounds < r.rounds && asked <= r.asked
    ensures r.ending != Continue
    decreases |answers| - asked, MaxIterations - iteration
  {
    var (h, s, e) := step(history, st, rounds);
    if e != Continue then RunState(h, s, rounds + 1, asked, e)
    else if iteration + 1 < MaxIterations then Run(step, answers, h, s, rounds + 1, asked, iteration + 1)
    else if asked < |answers| && answers[asked] then Run(step, answers, h, s, rounds + 1, asked + 1, 0)
    else RunState(h, s, rounds + 1, asked + 1, Declined)
  }

  /** Rounds that never lose a turn of a history that does not end with a
      model turn, and leave none waiting unless they finish. */
  ghost predicate KeepsHistory(step: Step) {
    forall history: seq<Turn>, st: ToolState, index: nat :: LastNotModel(history) ==>
      var r := step(history, st, index);
      history <= r.0 && (r.2 != Finished ==> LastNotModel(r.0))
  }

  /** The agent's rounds keep the history. */
  lemma RoundsKeepHistory(modules: seq<Module>, smartModel: string, fastModel: string, instruction: Option<string>, service: Service)
    requires ValidModules(modules)
    ensures KeepsHistory(RoundOf(modules, smartModel, fastModel, instruction, service))
  {
    var step := RoundOf(modules, smartModel, fastModel, instruction, service);
    forall history: seq<Turn>, st: ToolState, index: nat | LastNotModel(history)
      ensures history <= step(history, st, index).0 && (step(history, st, index).2 != Finished ==> LastNotModel(step(history, st, index).0))
    {
      RoundKeepsHistory(modules, history, st,
                        service(index, if st.useSmart then smartModel else fastModel, RoundRequest(history, st, instruction)));
    }
  }

  /** Rounds that never end as declined: only the question after a tenth
      round does. */
  ghost predicate NeverDeclines(step: Step) {
    forall history: seq<Turn>, st: ToolState, index: nat :: !step(history, st, index).2.Declined?
  }

  /** The agent's rounds never end as declined. */
  lemma RoundsNeverDecline(modules: seq<Module>, smartModel: string, fastModel: string, instruction: Option<string>, service: Service)
    requires ValidModules(modules)
    ensures NeverDeclines(RoundOf(modules, smartModel, fastModel, instruction, service))
  {
    var step := RoundOf(modules, smartModel, fastModel, instruction, service);
    forall history: seq<Turn>, st: ToolState, index: nat
      ensures !step(history, st, index).2.Declined?
    {
      var _ := RoundOutcome(modules, history, st,
                            service(index, if st.useSmart then smartModel else fastModel, RoundRequest(history, st, instruction)));
    }
  }

  /** A run of such rounds keeps the history too. */
  lemma {:induction false} RunKeepsHistory(step: Step, answers: seq<bool>, history: seq<Turn>, st: ToolState, rounds: nat, asked: nat, iteration: nat)
    requires KeepsHistory(step) && iteration < MaxIterations && asked <= |answers| && LastNotModel(history)
    ensures var r := Run(step, answers, history, st, rounds, asked, iteration);
      history <= r.history && (r.ending != Finished ==> LastNotModel(r.history))
    decreases |answers| - asked, MaxIterations - iteration
  {
    var (h, s, e) := step(history, st, rounds);
    if e == Continue {
      if iteration + 1 < MaxIterations {
        RunKeepsHistory(step, answers, h, s, rounds + 1, asked, iteration + 1);
      } else if asked < |answers| && answers[asked] {
        RunKeepsHistory(step, answers, h, s, rounds + 1, asked + 1, 0);
      }
    }
  }

  /** The rounds and questions of a run: the user is asked after every tenth
      round in a row and only then, and every answer before the last
      question was yes. A run the user stopped ran exactly ten rounds per
      question and ended on a no or on a missing answer; any other run ended
      within the stretch after its last question. */
  lemma {:induction false} RunCounts(step: Step, answers: seq<bool>, history: seq<Turn>, st: ToolState, rounds: nat, asked: nat, iteration: nat)
    requires NeverDeclines(step) && iteration < MaxIterations && asked <= |answers|
    requires rounds == 10 * asked + iteration && AllYes(answers, asked)
    ensures var r := Run(step, answers, history, st, rounds, asked, iteration);
      (r.ending.Declined? ==>
         r.rounds == 10 * r.asked && r.asked > 0 && (r.asked - 1 >= |answers| || !answers[r.asked - 1])
         && AllYes(answers, r.asked - 1))
      && (!r.ending.Declined? ==> 10 * r.asked < r.rounds <= 10 * r.asked + MaxIterations && AllYes(answers, r.asked))
    decreases |answers| - asked, MaxIterations - iteration
  {
    var (h, s, e) := step(history, st, rounds);
    if e == Continue {
      if iteration + 1 < MaxIterations {
        RunCounts(step, answers, h, s, rounds + 1, asked, iteration + 1);
      } else if asked < |answers| && answers[asked] {
        RunCounts(step, answers, h, s, rounds + 1, asked + 1, 0);
      }
    }
  }

  /** The switch flag rises only with a call that switched the mode, and that
      call's result is the control module's text, never an image. */
  lemma {:induction false} SwitchLeavesTextResult(modules: seq<Module>, st: ToolState, parts: seq<Part>)
    requires ValidModules(modules) && !st.switched
    requires DispatchParts(modules, st, parts).2.None? && DispatchParts(modules, st, parts).0.switched
    ensures exists k :: 0 <= k < |DispatchParts(modules, st, parts).1|
                        && ImageMarker.Extract(DispatchParts(modules, st, parts).1[k]).None?
    decreases |parts|
  {
    var r := DispatchParts(modules, st, parts);
    assert |parts| > 0;
    match parts[0]
    case CallPart(name, args) =>
      var (st', outcome) := Dispatch(modules, st, name, args);
      var rest := DispatchParts(modules, st', parts[1..]);
      assert r == (rest.0, [ResultText(outcome)] + rest.1, rest.2);
      if st'.switched {
        SwitchIsControl(modules, st, name, args);
        assert r.1[0] == ResultText(outcome);
      } else {
        SwitchLeavesTextResult(modules, st', parts[1..]);
        var k :| 0 <= k < |rest.1| && ImageMarker.Extract(rest.1[k]).None?;
        assert r.1[k + 1] == rest.1[k];
      }
    case BrokenPart(_) =>
    case _ =>
      SwitchLeavesTextResult(modules, st, parts[1..]);
  }

  /** A call that raises the switch flag was answered by the control module. */
  lemma SwitchIsControl(modules: seq<Module>, st: ToolState, name: string, args: Args)
    requires ValidModules(modules) && !st.switched
    requires Dispatch(modules, st, name, args).0.switched
    ensures ImageMarker.Extract(ResultText(Dispatch(modules, st, name, args).1)).None?
  {
    var (i, effect, outcome) := FirstMatch(modules, 0, st.disk, name, args);
    assert effect.SwitchMode?;
    assert AIControl.SwitchedMessage(effect.mode)[0] != ImageMarker.Prefix[0];
  }

  /** A round never loses a turn of a history that does not end with a model
      turn, and unless it finished it leaves none behind. */
  lemma RoundKeepsHistory(modules: seq<Module>, history: seq<Turn>, st: ToolState, reply: Reply)
    requires ValidModules(modules) && LastNotModel(history)
    ensures var r := RoundOutcome(modules, history, st, reply);
      history <= r.0 && (r.2 != Finished ==> LastNotModel(r.0))
  {
    if reply.Answer? && reply.listed {
      CallsKeepHistory(modules, history, reply.content, st.(switched := false));
    }
  }

  lemma CallsKeepHistory(modules: seq<Module>, history: seq<Turn>, content: Turn, st: ToolState)
    requires ValidModules(modules) && LastNotModel(history) && !st.switched
    ensures var r := CallsOutcome(modules, history + [content], st, content.parts);
      history <= r.0 && (r.2 != Finished ==> LastNotModel(r.0))
  {
    var answered := history + [content];
    var (st1, results, thrown) := DispatchParts(modules, st, content.parts);
    if thrown.None? && |results| > 0 {
      var responses := ResponseParts(Calls(content.parts), results);
      ResponsePartsLength(Calls(content.parts), results);
      if st1.switched && |responses| == 1 {
        SwitchLeavesTextResult(modules, st, content.parts);
        var k :| 0 <= k < |results| && ImageMarker.Extract(results[k]).None?;
        assert k == 0;
      }
      RespondedKeeps(history, content, st1, responses, results);
    }
  }

  /** The responses of a round keep the history before the model's turn, and
      leave no model turn last; a round taken back leaves that history itself
      when its only result is text. */
  lemma RespondedKeeps(history: seq<Turn>, content: Turn, st: ToolState, responses: seq<Part>, results: seq<string>)
    requires LastNotModel(history)
    requires st.switched && |responses| == 1 ==> |results| == 1 && ImageMarker.Extract(results[0]).None?
    ensures var r := Responded(history + [content], st, responses, results);
      history <= r.0 && LastNotModel(r.0)
  {
    var extended := history + [content] + [Turn(Function, responses)] + ImageTurns(results);
    assert history <= extended;
    if st.switched && |responses| == 1 {
      TakenBack(history, content, responses, results);
    } else {
      assert extended[|extended| - 1].role != Model;
    }
  }

  /** Taking back a round whose only result is text restores the history. */
  lemma TakenBack(history: seq<Turn>, content: Turn, responses: seq<Part>, results: seq<string>)
    requires |results| == 1 && ImageMarker.Extract(results[0]).None?
    ensures var extended := history + [content] + [Turn(Function, responses)] + ImageTurns(results);
      extended[..|extended| - 2] == history
  {
    assert ImageTurns(results) == [];
  }

  /** A reply made of one call answered with text: the call and its response
      join the history, unless the call switched the mode, in which case the
      model's turn is taken back as well. */
  lemma OneCallRound(modules: seq<Module>, history: seq<Turn>, content: Turn, st: ToolState, name: string, args: Args)
    requires ValidModules(modules) && content.parts == [CallPart(name, args)] && !st.switched
    requires Dispatch(modules, st, name, args).1.Handled?
    requires ImageMarker.Extract(Dispatch(modules, st, name, args).1.text).None?
    ensures var (st1, outcome) := Dispatch(modules, st, name, args);
      CallsOutcome(modules, history + [content], st, content.parts)
      == if st1.switched then (history, st1.(switched := false), Continue)
         else (history + [content, Turn(Function, [ResponsePart(name, outcome.text)])], st1, Continue)
  {
    var (st1, outcome) := Dispatch(modules, st, name, args);
    OneCall(modules, st, name, args);
    var results := [ResultText(outcome)];
    var calls := Calls(content.parts);
    assert calls == [Call(name, args)];
    assert ResponseParts(calls, results) == ImageMarker.BuildToolResponseParts(name, outcome.text) + ResponseParts([], []);
    var responses := [ResponsePart(name, outcome.text)];
    assert ResponseParts(calls, results) == responses;
    assert ImageTurns(results) == [];
    var extended := history + [content] + [Turn(Function, responses)] + ImageTurns(results);
    if st1.switched {
      TakenBack(history, content, responses, results);
    } else {
      assert extended == history + [content, Turn(Function, responses)];
    }
  }

  /** The registry routes `switch_model_mode` to the control module: the
      call selects the requested mode and answers with its confirmation
      (`SwitchCallDispatch` shows this of the agent's modules). */
  predicate SwitchRouted(modules: seq<Module>, st: ToolState, args: Args)
    requires ValidModules(modules)
  {
    "mode" in args && args["mode"].JStr?
    && Dispatch(modules, st, "switch_model_mode", args)
       == (SwitchedTo(modules, st, Some(args["mode"].s)), Handled(AIControl.SwitchedMessage(args["mode"].s)))
  }

  /** A round whose reply is a single `switch_model_mode` call that changes
      the mode is taken back: the history is what it was, and the next round
      asks the other model the same question with the other declarations. */
  lemma SwitchRoundIsTakenBack(modules: seq<Module>, history: seq<Turn>, st: ToolState, args: Args)
    requires ValidModules(modules) && SwitchRouted(modules, st.(switched := false), args)
    requires IsFast(Some(args["mode"].s)) == st.useSmart
    ensures var r := RoundOutcome(modules, history, st, Answer(Turn(Model, [CallPart("switch_model_mode", args)]), true));
      r.0 == history && r.2 == Continue
      && r.1 == st.(useSmart := !st.useSmart, switched := false,
                    declarations := Rebuilt(modules, !st.useSmart, st.declarations))
  {
    assert AIControl.SwitchedMessage(args["mode"].s)[0] != ImageMarker.Prefix[0];
    OneCallRound(modules, history, Turn(Model, [CallPart("switch_model_mode", args)]), st.(switched := false), "switch_model_mode", args);
  }

  /** The same call when the requested mode is already active is an ordinary
      round: its call and response stay in the history. */
  lemma SameModeRoundIsKept(modules: seq<Module>, history: seq<Turn>, st: ToolState, args: Args)
    requires ValidModules(modules) && SwitchRouted(modules, st.(switched := false), args)
    requires IsFast(Some(args["mode"].s)) != st.useSmart
    ensures var content := Turn(Model, [CallPart("switch_model_mode", args)]);
      var r := RoundOutcome(modules, history, st, Answer(content, true));
      r.2 == Continue && r.1 == st.(switched := false)
      && r.0 == history + [content, Turn(Function, [ResponsePart("switch_model_mode", AIControl.SwitchedMessage(args["mode"].s))])]
  {
    assert AIControl.SwitchedMessage(args["mode"].s)[0] != ImageMarker.Prefix[0];
    OneCallRound(modules, history, Turn(Model, [CallPart("switch_model_mode", args)]), st.(switched := false), "switch_model_mode", args);
  }

  /** Among the agent's modules only the control module claims
      `switch_model_mode`, and it selects the requested mode. */
  lemma SwitchCallDispatch(files: FileModule.FileModule, http: HttpModule.HttpModule, st: ToolState, args: Args)
    requires FileTools.Valid(files.tools)
    requires "mode" in args && args["mode"].JStr?
    ensures ValidModules([Files(files), Http(http), Control()])
    ensures SwitchRouted([Files(files), Http(http), Control()], st, args)
  {
    AgentModulesValid(files, http);
    PassOnSwitch(files, http, st.disk, args);
    ControlAfterTwo([Files(files), Http(http), Control()], st, args);
  }

  /** Three modules whose first two pass `switch_model_mode` on leave it
      to the control module. */
  lemma ControlAfterTwo(modules: seq<Module>, st: ToolState, args: Args)
    requires ValidModules(modules) && |modules| == 3 && modules[2] == Control()
    requires "mode" in args && args["mode"].JStr?
    requires Handle(modules[0], st.disk, "switch_model_mode", args).1.NotHandled?
    requires Handle(modules[1], st.disk, "switch_model_mode", args).1.NotHandled?
    ensures SwitchRouted(modules, st, args)
  {
    assert FirstMatch(modules, 0, st.disk, "switch_model_mode", args) == FirstMatch(modules, 2, st.disk, "switch_model_mode", args);
  }

  /** The file and HTTP modules pass `switch_model_mode` on. */
  lemma PassOnSwitch(files: FileModule.FileModule, http: HttpModule.HttpModule, disk: FileTools.Disk, args: Args)
    requires FileTools.Valid(files.tools)
    ensures ValidModule(Files(files)) && ValidModule(Http(http))
    ensures Handle(Files(files), disk, "switch_model_mode", args).1.NotHandled?
    ensures Handle(Http(http), disk, "switch_model_mode", args).1.NotHandled?
  {
    FilesValid(files);
    HttpValid(http);
    assert Files(files).handle(disk, "switch_model_mode", args) == FilesHandle(files, disk, "switch_model_mode", args);
    assert Http(http).handle(disk, "switch_model_mode", args) == HttpHandle(http, "switch_model_mode", args);
  }

  /** A reply without calls and without unreadable parts finishes the run,
      with the reply as the last turn and nothing else changed. */
  lemma AnswerWithoutCallsFinishes(modules: seq<Module>, history: seq<Turn>, st: ToolState, content: Turn)
    requires ValidModules(modules)
    requires forall k :: 0 <= k < |content.parts| ==> !content.parts[k].CallPart? && !content.parts[k].BrokenPart?
    ensures RoundOutcome(modules, history, st, Answer(content, true)) == (history + [content], st.(switched := false), Finished)
  {
    QuietParts(modules, st.(switched := false), content.parts);
  }

  /** A run whose first reply answers without calls ends after that round,
      with the reply as the last turn and no question asked. */
  lemma AnswerEndsRun(modules: seq<Module>, smartModel: string, fastModel: string, instruction: Option<string>,
                      service: Service, answers: seq<bool>, history: seq<Turn>, st: ToolState, content: Turn)
    requires ValidModules(modules)
    requires forall k :: 0 <= k < |content.parts| ==> !content.parts[k].CallPart? && !content.parts[k].BrokenPart?
    requires service(0, if st.useSmart then smartModel else fastModel, RoundRequest(history, st, instruction)) == Answer(content, true)
    ensures Run(RoundOf(modules, smartModel, fastModel, instruction, service), answers, history, st, 0, 0, 0)
            == RunState(history + [content], st.(switched := false), 1, 0, Finished)
  {
    AnswerWithoutCallsFinishes(modules, history, st, content);
  }

  /** A reply without candidates stops the run and adds nothing. */
  lemma NoCandidatesAppendsNothing(modules: seq<Module>, history: seq<Turn>, st: ToolState)
    requires ValidModules(modules)
    ensures RoundOutcome(modules, history, st, NoCandidates) == (history, st.(switched := false), NoReply)
  {
  }

  lemma {:induction false} QuietParts(modules: seq<Module>, st: ToolState, parts: seq<Part>)
    requires ValidModules(modules)
    requires forall k :: 0 <= k < |parts| ==> !parts[k].CallPart? && !parts[k].BrokenPart?
    ensures DispatchParts(modules, st, parts) == (st, [], None)
    decreases |parts|
  {
    if |parts| > 0 {
      QuietParts(modules, st, parts[1..]);
    }
  }

  /** The agent's modules declare tools in either mode, so the declarations
      are rebuilt from them. */
  lemma DeclaresTools(files: FileModule.FileModule, http: HttpModule.HttpModule, smart: bool, current: seq<Json>)
    requires FileTools.Valid(files.tools)
    ensures Rebuilt([Files(files), Http(http), Control()], smart, current)
            == GeminiClient.DefineTools(AllDeclarations([Files(files), Http(http), Control()], smart))
  {
    RegisteredNames(files, http, smart);
  }

  /** The agent. */
  class UniversalAgent {
    const smartModel: string
    const fastModel: string
    var instruction: Option<string>
    var useSmart: bool
    var switched: bool
    var declarations: seq<Json>
    var history: seq<Turn>
    var modules: seq<Module>
    /** The workspace the file tools act on. */
    var disk: FileTools.Disk
    /** The history files: a path holds a saved history, or `None` when the
        file's text is not a list. */
    var saved: map<string, Option<seq<Turn>>>

    ghost predicate Valid()
      reads this
    {
      ValidModules(modules)
    }

    function Tools(): ToolState
      reads this
    {
      ToolState(disk, useSmart, switched, declarations)
    }

    /** The model of the client in use. */
    function ClientModel(): string
      reads this
    {
      if useSmart then smartModel else fastModel
    }

    /** The request of the next round. */
    function Request(): GeminiClient.Request
      reads this
    {
      GeminiClient.Request(history, Some(declarations), instruction)
    }

    /** The agent starts in fast mode with an empty history; the summarizer
        of `read_file` gets the fast client only when it is another model
        than the smart one. */
    constructor (smartModel: string, fastModel: string, tools: FileTools.FileTools, fast: FileModule.FastService,
                 http: HttpModule.HttpModule, disk: FileTools.Disk, saved: map<string, Option<seq<Turn>>>)
      requires FileTools.Valid(tools)
      ensures Valid()
      ensures this.smartModel == smartModel && this.fastModel == fastModel
      ensures modules == [Files(FileModule.FileModule(tools, if smartModel != fastModel then Some(fast) else None)), Http(http), Control()]
      ensures !useSmart && !switched && history == [] && instruction == Some(Instruction)
      ensures this.disk == disk && this.saved == saved
      ensures declarations == Rebuilt(modules, false, [])
    {
      this.smartModel := smartModel;
      this.fastModel := fastModel;
      instruction := None;
      useSmart := false;
      switched := false;
      declarations := [];
      history := [];
      var files := FileModule.FileModule(tools, if smartModel != fastModel then Some(fast) else None);
      AgentModulesValid(files, http);
      modules := [Files(files), Http(http), Control()];
      this.disk := disk;
      this.saved := saved;
      new;
      instruction := Some(Instruction);
      InitializeToolDeclarations();
    }

    method RegisterModule(m: Module)
      requires Valid() && ValidModule(m)
      modifies this
      ensures Valid() && modules == old(modules) + [m]
      ensures Tools() == old(Tools()) && history == old(history) && saved == old(saved) && instruction == old(instruction)
    {
      modules := modules + [m];
    }

    /** `InitializeToolDeclarations`: the declarations of every module, in
        registration order, for the mode in use. */
    method InitializeToolDeclarations()
      requires Valid()
      modifies this
      ensures Valid() && modules == old(modules) && disk == old(disk) && useSmart == old(useSmart) && switched == old(switched)
      ensures declarations == Rebuilt(modules, useSmart, old(declarations))
      ensures history == old(history) && saved == old(saved) && instruction == old(instruction)
    {
      var ms, smart := modules, useSmart;
      var all: seq<Json> := [];
      for i := 0 to |ms|
        invariant modules == ms && Tools() == old(Tools()) && useSmart == smart
        invariant history == old(history) && saved == old(saved) && instruction == old(instruction)
        invariant all == AllDeclarations(ms[..i], smart)
      {
        DeclarationsStep(ms[..i + 1], smart);
        assert ms[..i + 1][..i] == ms[..i];
        all := all + ModuleDeclarations(ms[i], smart);
      }
      assert ms[..|ms|] == ms;
      if |all| > 0 {
        declarations := GeminiClient.DefineTools(all);
      }
    }

    /** `SetModelMode(mode)`. */
    method SetModelMode(mode: Option<string>)
      requires Valid()
      modifies this
      ensures Valid() && modules == old(modules) && history == old(history) && saved == old(saved) && instruction == old(instruction)
      ensures Tools() == SwitchedTo(modules, old(Tools()), mode)
    {
      var wasSmart := useSmart;
      useSmart := !IsFast(mode);
      if wasSmart != useSmart {
        InitializeToolDeclarations();
        switched := true;
      }
    }

    /** `ProcessToolCallAsync(name, args)`: the modules are asked in
        registration order and the first that claims the call answers it. */
    method ProcessToolCall(name: string, args: Args) returns (outcome: Outcome)
      requires Valid()
      modifies this
      ensures Valid() && modules == old(modules) && history == old(history) && saved == old(saved) && instruction == old(instruction)
      ensures (Tools(), outcome) == Dispatch(modules, old(Tools()), name, args)
    {
      var i := 0;
      while i < |modules|
        invariant 0 <= i <= |modules|
        invariant Tools() == old(Tools())
        invariant FirstMatch(modules, i, disk, name, args) == FirstMatch(modules, 0, disk, name, args)
      {
        var (effect, o) := Handle(modules[i], disk, name, args);
        if !o.NotHandled? {
          match effect {
            case NoEffect =>
            case NewDisk(after) => disk := after;
            case SwitchMode(mode) => SetModelMode(Some(mode));
          }
          return o;
        }
        i := i + 1;
      }
      return Handled(UnknownTool);
    }

    /** The loop over the parts of a reply: each call is dispatched in turn,
        its result recorded and its response parts built, until the parts
        run out or reading one throws. */
    method ProcessParts(parts: seq<Part>) returns (results: seq<string>, responses: seq<Part>, thrown: Option<string>)
      requires Valid()
      modifies this
      ensures Valid() && modules == old(modules) && history == old(history) && saved == old(saved) && instruction == old(instruction)
      ensures var r := DispatchParts(modules, old(Tools()), parts);
        Tools() == r.0 && thrown == r.2 && (thrown.None? ==> results == r.1)
      ensures thrown.None? ==> |results| == |Calls(parts)| && responses == ResponseParts(Calls(parts), results)
    {
      results, responses, thrown := [], [], None;
      var i := 0;
      ghost var st0 := Tools();
      PartsStart(modules, st0, parts);
      while i < |parts|
        invariant 0 <= i <= |parts|
        invariant Valid() && modules == old(modules) && history == old(history) && saved == old(saved) && instruction == old(instruction)
        invariant PartsFrom(modules, st0, parts, i, Tools(), results)
        invariant |results| == |Calls(parts[..i])| && responses == ResponseParts(Calls(parts[..i]), results)
      {
        var part := parts[i];
        if part.BrokenPart? {
          PartsBroken(modules, st0, parts, i, Tools(), results);
          return results, responses, Some(part.message);
        } else if part.CallPart? {
          var outcome := ProcessPartCall(st0, parts, i, results);
          if outcome.Threw? {
            return results, responses, Some(outcome.message);
          }
          ResponsesAfterCall(parts, i, results, ResultText(outcome));
          responses := responses + ImageMarker.BuildToolResponseParts(part.name, ResultText(outcome));
          results := results + [ResultText(outcome)];
        } else {
          PartsSkip(modules, st0, parts, i, Tools(), results);
          ResponsesAfterOther(parts, i);
        }
        i := i + 1;
      }
      PartsEnd(modules, st0, parts, Tools(), results);
      assert parts[..i] == parts;
    }

    /** The call at index `i` of the parts: dispatched, it either stops the
        dispatch of the parts in the state it leaves, or adds its result. */
    method ProcessPartCall(ghost st0: ToolState, parts: seq<Part>, i: nat, ghost results: seq<string>) returns (outcome: Outcome)
      requires Valid() && i < |parts| && parts[i].CallPart? && PartsFrom(modules, st0, parts, i, Tools(), results)
      modifies this
      ensures Valid() && modules == old(modules) && history == old(history) && saved == old(saved) && instruction == old(instruction)
      ensures outcome.Threw? ==> DispatchParts(modules, st0, parts).0 == Tools() && DispatchParts(modules, st0, parts).2 == Some(outcome.message)
      ensures !outcome.Threw? ==> PartsFrom(modules, st0, parts, i + 1, Tools(), results + [ResultText(outcome)])
    {
      ghost var st := Tools();
      outcome := ProcessToolCall(parts[i].name, parts[i].args);
      PartsCall(modules, st0, parts, i, st, results);
    }

    /** One round of `ExecuteAsync`: the request is built from the state, the
        service's reply is applied, and an exception saves the history to the
        recovery file. */
    method Round(service: Service, index: nat) returns (ending: Ending)
      requires Valid()
      modifies this
      ensures Valid() && modules == old(modules) && instruction == old(instruction)
      ensures var r := RoundOutcome(modules, old(history), old(Tools()), service(index, old(ClientModel()), old(Request())));
        history == r.0 && Tools() == r.1 && ending == r.2
      ensures !ending.Declined?
      ensures saved == if ending.Failed? then old(saved)[RecoveryPath := Some(history)] else old(saved)
      ensures LastNotModel(old(history)) ==> old(history) <= history && (ending != Finished ==> LastNotModel(history))
    {
      if LastNotModel(history) {
        RoundKeepsHistory(modules, history, Tools(), service(index, ClientModel(), Request()));
      }
      switched := false;
      var reply := service(index, ClientModel(), Request());
      match reply {
        case Failure(message) =>
          DropTrailingModelTurn();
          var _ := SaveChatHistory(RecoveryPath);
          ending := Failed(message);
        case NoCandidates =>
          ending := NoReply;
        case Answer(content, listed) =>
          history := history + [content];
          if !listed {
            DropTrailingModelTurn();
            var _ := SaveChatHistory(RecoveryPath);
            ending := Failed(NullReferenceMessage);
          } else {
            ending := ProcessCalls(content.parts);
          }
      }
    }

    /** One pass of the loop of `ExecuteAsync`, the round after `rounds`
        rounds with `iteration` rounds of the current stretch of ten and
        `asked` questions behind it: the round runs, and after a tenth
        round in a row that continues the user is asked whether to go on, a
        no (or no answer) saving `interrupted_history.json`. While the run
        goes on it is the same run from the new counters; once it stops, the
        state reached is the run's result. */
    method Iteration(service: Service, answers: seq<bool>, rounds: nat, asked: nat, iteration: nat)
      returns (go: bool, nextRounds: nat, nextAsked: nat, nextIteration: nat, ending: Ending)
      requires Valid() && iteration < MaxIterations && asked <= |answers|
      modifies this
      ensures Valid() && modules == old(modules) && instruction == old(instruction)
      ensures go ==> nextIteration < MaxIterations && nextAsked <= |answers| && ending == Continue && saved == old(saved)
                     && (nextAsked > asked || (nextAsked == asked && nextIteration > iteration))
      ensures var run := Run(RoundOf(modules, smartModel, fastModel, instruction, service), answers, old(history), old(Tools()), rounds, asked, iteration);
        if go then run == Run(RoundOf(modules, smartModel, fastModel, instruction, service), answers, history, Tools(), nextRounds, nextAsked, nextIteration)
        else run == RunState(history, Tools(), nextRounds, nextAsked, ending)
      ensures !go ==> saved == if ending.Failed? then old(saved)[RecoveryPath := Some(history)]
                               else if ending.Declined? then old(saved)[InterruptedPath := Some(history)]
                               else old(saved)
    {
      ghost var step := RoundOf(modules, smartModel, fastModel, instruction, service);
      ghost var run := Run(step, answers, history, Tools(), rounds, asked, iteration);
      ghost var before, st := history, Tools();
      assert step(before, st, rounds) == RoundOutcome(modules, before, st, service(rounds, ClientModel(), Request()));
      ending := Round(service, rounds);
      go, nextRounds, nextAsked, nextIteration := true, rounds + 1, asked, iteration + 1;
      if ending != Continue {
        go := false;
      } else if nextIteration >= MaxIterations {
        var goOn := Ask(answers, asked);
        nextAsked := asked + 1;
        if goOn {
          nextIteration := 0;
        } else {
          go, ending := false, Declined;
        }
      }
      assert step == RoundOf(modules, smartModel, fastModel, instruction, service);
      if go {
        assert run == Run(step, answers, history, Tools(), nextRounds, nextAsked, nextIteration);
      } else {
        assert run == RunState(history, Tools(), nextRounds, nextAsked, ending);
      }
    }

    /** `PromptContinueAsync` after a tenth round in a row: the answer at
        `asked`, a missing one reading as no; a no saves the history to
        `interrupted_history.json`. */
    method Ask(answers: seq<bool>, asked: nat) returns (goOn: bool)
      modifies this
      ensures goOn <==> asked < |answers| && answers[asked]
      ensures saved == if goOn then old(saved) else old(saved)[InterruptedPath := Some(history)]
      ensures Tools() == old(Tools()) && history == old(history) && modules == old(modules) && instruction == old(instruction)
    {
      goOn := asked < |answers| && answers[asked];
      if !goOn {
        var _ := SaveChatHistory(InterruptedPath);
      }
    }

    /** The part of a round after the model's turn joined the history: the
        calls are dispatched, then either their responses join the history or
        the exception's clean-up and recovery save follow. */
    method ProcessCalls(parts: seq<Part>) returns (ending: Ending)
      requires Valid()
      modifies this
      ensures Valid() && modules == old(modules) && instruction == old(instruction)
      ensures (history, Tools(), ending) == CallsOutcome(modules, old(history), old(Tools()), parts)
      ensures saved == if ending.Failed? then old(saved)[RecoveryPath := Some(history)] else old(saved)
    {
      var results, responses, thrown := ProcessParts(parts);
      if thrown.Some? {
        DropTrailingModelTurn();
        var _ := SaveChatHistory(RecoveryPath);
        ending := Failed(thrown.value);
      } else if |results| == 0 {
        ending := Finished;
      } else {
        AddResponses(responses, results);
        ending := Continue;
      }
    }

    /** The function responses and the images join the history, and a
        round that only switched the mode is taken back. */
    method AddResponses(responses: seq<Part>, results: seq<string>)
      modifies this
      ensures (history, Tools()) == Responded(old(history), old(Tools()), responses, results)
      ensures modules == old(modules) && saved == old(saved) && instruction == old(instruction)
    {
      var extended := history + [Turn(Function, responses)] + ImageTurns(results);
      if switched && |responses| == 1 {
        history := if |extended| >= 2 then extended[..|extended| - 2] else extended;
        switched := false;
      } else {
        history := extended;
      }
    }

    method DropTrailingModelTurn()
      modifies this
      ensures history == DropTrailingModel(old(history))
      ensures Tools() == old(Tools()) && modules == old(modules) && saved == old(saved) && instruction == old(instruction)
    {
      if |history| > 0 && history[|history| - 1].role == Model {
        history := history[..|history| - 1];
      }
    }

    /** `ExecuteAsync(prompt, ui)`: the prompt joins the history and rounds
        follow until one finishes, stops or fails; after every tenth round in
        a row the user is asked whether to go on, and `answers` are the
        answers, a missing one reading as no. The results: the rounds run,
        the questions asked, and how the run ended (`Declined` when the user
        declined to go on). */
    method Execute(prompt: string, service: Service, answers: seq<bool>) returns (rounds: nat, asked: nat, ending: Ending)
      requires Valid()
      modifies this
      ensures Valid() && modules == old(modules) && instruction == old(instruction)
      ensures old(history) + [UserText(prompt)] <= history
      ensures ending != Finished ==> LastNotModel(history)
      ensures ending != Continue
      ensures ending.Declined? ==>
                rounds == 10 * asked && asked > 0 && (asked - 1 >= |answers| || !answers[asked - 1])
                && AllYes(answers, asked - 1)
                && saved == old(saved)[InterruptedPath := Some(history)]
      ensures !ending.Declined? ==>
                10 * asked < rounds <= 10 * asked + MaxIterations
                && AllYes(answers, asked)
      ensures ending.Failed? ==> saved == old(saved)[RecoveryPath := Some(history)]
      ensures ending.Finished? || ending.NoReply? ==> saved == old(saved)
      ensures RunState(history, Tools(), rounds, asked, ending)
              == Run(RoundOf(modules, smartModel, fastModel, instruction, service), answers,
                     old(history) + [UserText(prompt)], old(Tools()).(switched := false), 0, 0, 0)
    {
      switched := false;
      history := history + [UserText(prompt)];
      rounds, asked, ending := 0, 0, Continue;
      var iteration: nat := 0;
      var go := true;
      ghost var start, st0 := history, Tools();
      ghost var step := RoundOf(modules, smartModel, fastModel, instruction, service);
      ghost var run := Run(step, answers, start, st0, 0, 0, 0);
      while go && iteration < MaxIterations
        invariant Valid() && modules == old(modules) && instruction == old(instruction)
        invariant go ==> iteration < MaxIterations && asked <= |answers| && ending == Continue && saved == old(saved)
        invariant go ==> Run(step, answers, history, Tools(), rounds, asked, iteration) == run
        invariant !go ==> RunState(history, Tools(), rounds, asked, ending) == run
        invariant !go ==> saved == if ending.Failed? then old(saved)[RecoveryPath := Some(history)]
                                   else if ending.Declined? then old(saved)[InterruptedPath := Some(history)]
                                   else old(saved)
        decreases go, |answers| + 1 - asked, MaxIterations - iteration
      {
        go, rounds, asked, iteration, ending := Iteration(service, answers, rounds, asked, iteration);
      }
      RoundsKeepHistory(modules, smartModel, fastModel, instruction, service);
      RunKeepsHistory(step, answers, start, st0, 0, 0, 0);
      RoundsNeverDecline(modules, smartModel, fastModel, instruction, service);
      RunCounts(step, answers, start, st0, 0, 0, 0);
    }

    /** `SaveChatHistory(path)`: the history is written to `path`. */
    method SaveChatHistory(path: string) returns (ok: bool)
      modifies this
      ensures ok && saved == old(saved)[path := Some(history)]
      ensures Tools() == old(Tools()) && history == old(history) && modules == old(modules) && instruction == old(instruction)
    {
      saved := saved[path := Some(history)];
      return true;
    }

    /** `LoadChatHistory(path)`: a missing file, or one whose text is not a
        list, leaves the history as it is and answers false; otherwise the
        file's history replaces it. */
    method LoadChatHistory(path: string) returns (ok: bool)
      modifies this
      ensures ok <==> path in saved && saved[path].Some?
      ensures history == if ok then saved[path].value else old(history)
      ensures Tools() == old(Tools()) && saved == old(saved) && modules == old(modules) && instruction == old(instruction)
    {
      if path !in saved || saved[path].None? {
        return false;
      }
      history := saved[path].value;
      return true;
    }

    /** `ClearChatHistory`. */
    method ClearChatHistory()
      modifies this
      ensures history == []
      ensures Tools() == old(Tools()) && saved == old(saved) && modules == old(modules) && instruction == old(instruction)
    {
      history := [];
    }
  }
}
