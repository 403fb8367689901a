/** `AIControlModule`: the `switch_model_mode` tool, by which the model picks
    the smart or the fast client for the next rounds. The module keeps no
    state: it reads the current mode through a probe and asks the agent to
    switch through a callback. */
module AIControl {
  import opened Text
  import opened Json
  import opened ToolOutcome
  import GeminiClient

  const SmartDescription: string :=
    "切換 AI 思考模式。當前為[聰明模式]。若任務簡單，建議切換至 'fast' (快速模式) 以節省資源。"
  const FastDescription: string :=
    "切換 AI 思考模式。當前為[快速模式]。若任務複雜，建議切換至 'smart' (聰明模式) 以獲得更好的推理能力。"

  const ModeSchema: Json :=
    JObj([("type", JStr("object")),
          ("properties", JObj([("mode", JObj([("type", JStr("string")),
                                              ("description", JStr("模式名稱 (smart 或 fast)")),
                                              ("enum", JArr([JStr("smart"), JStr("fast")]))]))])),
          ("required", JArr([JStr("mode")]))])

  /** `GetToolDeclarations`: the single `switch_model_mode` declaration. The
      description names the current mode, as the probe reports it; without a
      probe the mode reads as smart. */
  function Declarations(isSmartMode: Option<bool>): (ds: seq<Json>)
    ensures |ds| == 1 && GeminiClient.DeclaredName(ds[0]) == Some("switch_model_mode")
    ensures Field(ds[0], "description")
            == Some(JStr(if isSmartMode == Some(false) then FastDescription else SmartDescription))
    ensures Field(ds[0], "parameters") == Some(ModeSchema)
  {
    var isSmart := if isSmartMode.Some? then isSmartMode.value else true;
    [GeminiClient.CreateFunctionDeclaration("switch_model_mode", if isSmart then SmartDescription else FastDescription, ModeSchema)]
  }

  /** The values the `mode` parameter admits: exactly `smart` and `fast`. */
  lemma ModeIsSmartOrFast()
    ensures var mode := Field(ModeSchema, "properties").value;
      Field(mode, "mode").Some? && Field(Field(mode, "mode").value, "enum") == Some(JArr([JStr("smart"), JStr("fast")]))
  {
    assert "type" != "properties" by { assert "type"[0] != "properties"[0]; }
    var props := Field(ModeSchema, "properties").value;
    var modeSchema := Field(props, "mode").value;
    assert "type" != "enum" && "description" != "enum" by {
      assert "type"[0] != "enum"[0] && "description"[0] != "enum"[0];
    }
    assert modeSchema.fields[1..][1..] == [("enum", JArr([JStr("smart"), JStr("fast")]))];
  }

  function SwitchedMessage(mode: string): string {
    "成功：已切換至 " + mode + " 模式。接下來的對話將使用此模式的模型進行回應。"
  }

  /** `TryHandleToolCallAsync(name, args)`: the outcome, and the mode the
      switch callback is invoked with, once, when the call is handled. */
  function TryHandle(name: string, args: Args): (r: (Option<string>, Outcome))
    ensures name != "switch_model_mode" ==> r == (None, NotHandled)
    ensures r.0.Some? <==> r.1.Handled?
    ensures name == "switch_model_mode" && "mode" in args && args["mode"].JStr? ==>
              r == (Some(args["mode"].s), Handled(SwitchedMessage(args["mode"].s)))
  {
    if name != "switch_model_mode" then (None, NotHandled)
    else
      match Required(args, "mode")
      case Err(message) => (None, Threw(message))
      case Ok(mode) => (Some(mode), Handled(SwitchedMessage(mode)))
  }

  /** The success message names the mode it was asked for, whether or not the
      mode changes: two different requests are answered differently. */
  lemma MessageNamesMode(a: string, b: string)
    ensures SwitchedMessage(a) == SwitchedMessage(b) <==> a == b
  {
    var prefix := "成功：已切換至 ";
    var suffix := " 模式。接下來的對話將使用此模式的模型進行回應。";
    if SwitchedMessage(a) == SwitchedMessage(b) {
      assert |a| == |b|;
      assert a == SwitchedMessage(a)[|prefix|..|prefix| + |a|];
      assert b == SwitchedMessage(b)[|prefix|..|prefix| + |b|];
    }
  }
}
