/** The console program around the agent: its settings, read from the process
    environment and the `.env` file beside the program; the list of models
    written into `.env` when no model is configured; and the loop that hands
    each line the user types to the command handler or to the agent. */
module Program {
  import opened Text
  import Agent
  import CommandManager

  const ApiKeyName: string := "GEMINI_API_KEY"
  const ModelName: string := "GEMINI_MODEL"
  const SmartModelName: string := "GEMINI_SMART_MODEL"
  const FastModelName: string := "GEMINI_FAST_MODEL"
  /** The model used when none is configured. */
  const DefaultModel: string := "gemini-2.5-flash"

  /** The process environment; a name that is not set is missing. */
  type Environment = map<string, string>

  /** A trimmed `.env` line that is a comment or blank. */
  predicate Skipped(trimmed: string) {
    StartsWith(trimmed, "#") || |trimmed| == 0
  }

  /** A `.env` line that sets `key`: once trimmed, it is no comment and
      starts with `key=`. */
  predicate Sets(line: string, key: string) {
    var trimmed := Trim(line);
    !Skipped(trimmed) && StartsWith(trimmed, key + "=")
  }

  /** The value a line that sets `key` gives it: what follows `key=`, trimmed
      and stripped of quotes at both ends; nothing left reads as null. */
  function LineValue(line: string, key: string): Option<string>
    requires Sets(line, key)
  {
    var value := TrimQuotes(Trim(Trim(line)[|key| + 1..]));
    if |value| == 0 then None else Some(value)
  }

  /** The value of `key` in the `.env` lines: the first line that sets it
      decides. */
  function FileValue(lines: seq<string>, key: string): (r: Option<string>)
    ensures r.Some? ==> |r.value| > 0
  {
    if |lines| == 0 then None
    else if Sets(lines[0], key) then LineValue(lines[0], key)
    else FileValue(lines[1..], key)
  }

  /** `GetConfig(key)`: a non-empty environment variable wins over `.env`.
      A missing `.env` file reads as no lines. */
  function Config(env: Environment, lines: seq<string>, key: string): (r: Option<string>)
    ensures r.Some? ==> |r.value| > 0
    ensures key in env && |env[key]| > 0 ==> r == Some(env[key])
    ensures !(key in env && |env[key]| > 0) ==> r == FileValue(lines, key)
  {
    if key in env && |env[key]| > 0 then Some(env[key]) else FileValue(lines, key)
  }

  /** The first line that sets `key` decides, whatever follows it. */
  lemma {:induction false} FirstSettingDecides(lines: seq<string>, key: string, i: nat)
    requires i < |lines| && Sets(lines[i], key)
    requires forall j :: 0 <= j < i ==> !Sets(lines[j], key)
    ensures FileValue(lines, key) == LineValue(lines[i], key)
  {
    if i > 0 {
      assert lines[1..][i - 1] == lines[i];
      FirstSettingDecides(lines[1..], key, i - 1);
    }
  }

  /** Without a line that sets `key`, the file gives null. */
  lemma {:induction false} UnsetIsNull(lines: seq<string>, key: string)
    requires forall i :: 0 <= i < |lines| ==> !Sets(lines[i], key)
    ensures FileValue(lines, key) == None
  {
    if |lines| > 0 {
      UnsetIsNull(lines[1..], key);
    }
  }

  /** A line `key=value`, for a key that is no comment and a value with no
      white space or quote at its ends, reads back as that value. */
  lemma SettingReadsBack(key: string, value: string)
    requires |key| > 0 && key[0] != '#' && !IsWhiteSpace(key[0])
    requires Trimmed(value) && !IsQuote(value[0]) && !IsQuote(value[|value| - 1])
    ensures Sets(key + "=" + value, key)
    ensures LineValue(key + "=" + value, key) == Some(value)
  {
    var line := key + "=" + value;
    assert Trimmed(line) by {
      assert line[0] == key[0] && line[|line| - 1] == value[|value| - 1];
    }
    TrimmedFixed(line);
    assert StartsWith(line, key + "=");
    assert line[|key| + 1..] == value;
    TrimmedFixed(value);
    assert TrimStartBy(value, IsQuote) == value;
  }

  /** A line `key="value"` or `key='value'` reads back as the value without
      its quotes. */
  lemma QuotedSettingReadsBack(key: string, value: string, quote: char)
    requires |key| > 0 && key[0] != '#' && !IsWhiteSpace(key[0])
    requires IsQuote(quote)
    requires Trimmed(value) && !IsQuote(value[0]) && !IsQuote(value[|value| - 1])
    ensures Sets(key + "=" + [quote] + value + [quote], key)
    ensures LineValue(key + "=" + [quote] + value + [quote], key) == Some(value)
  {
    var quoted := [quote] + value + [quote];
    assert key + "=" + [quote] + value + [quote] == key + "=" + quoted;
    assert Trimmed(quoted) by {
      assert quoted[0] == quote && quoted[|quoted| - 1] == quote;
    }
    SettingLine(key, quoted);
    StripQuotes(value, quote);
  }

  /** A line `key=rest`, with nothing to trim around `rest`, sets `key`, and
      what follows `key=` is `rest`. */
  lemma SettingLine(key: string, rest: string)
    requires |key| > 0 && key[0] != '#' && !IsWhiteSpace(key[0])
    requires Trimmed(rest)
    ensures Sets(key + "=" + rest, key)
    ensures Trim(key + "=" + rest)[|key| + 1..] == rest
  {
    var line := key + "=" + rest;
    assert Trim(line) == line by {
      assert Trimmed(line) by {
        assert line[0] == key[0] && line[|line| - 1] == rest[|rest| - 1];
      }
      TrimmedFixed(line);
    }
    assert StartsWith(line, key + "=");
    assert line[|key| + 1..] == rest;
  }

  /** Quotes around a value with none at its ends are trimmed away and
      nothing else is. */
  lemma StripQuotes(value: string, quote: char)
    requires IsQuote(quote) && Trimmed(value)
    requires !IsQuote(value[0]) && !IsQuote(value[|value| - 1])
    ensures Trim([quote] + value + [quote]) == [quote] + value + [quote]
    ensures TrimQuotes([quote] + value + [quote]) == value
  {
    var quoted := [quote] + value + [quote];
    assert Trim(quoted) == quoted by {
      assert Trimmed(quoted) by {
        assert quoted[0] == quote && quoted[|quoted| - 1] == quote;
      }
      TrimmedFixed(quoted);
    }
    assert TrimStartBy(quoted, IsQuote) == value + [quote] by {
      assert quoted[1..] == value + [quote];
      assert TrimStartBy(quoted[1..], IsQuote) == quoted[1..];
    }
    assert TrimEndBy(value + [quote], IsQuote) == value by {
      assert (value + [quote])[..|value|] == value;
      assert TrimEndBy(value, IsQuote) == value;
    }
  }

  /** A line that does not set `key` is passed over. */
  lemma FileValueSkip(lines: seq<string>, i: nat, key: string)
    requires i < |lines| && !Sets(lines[i], key)
    ensures FileValue(lines[i..], key) == FileValue(lines[i + 1..], key)
  {
    assert lines[i..][1..] == lines[i + 1..];
  }

  /** The first line that sets `key` decides. */
  lemma FileValueHit(lines: seq<string>, i: nat, key: string)
    requires i < |lines| && Sets(lines[i], key)
    ensures FileValue(lines[i..], key) == LineValue(lines[i], key)
  {
    assert lines[i..][0] == lines[i];
  }

  /** `GetConfig(key)` as the program runs it: the environment first, then
      the `.env` lines one by one until the first that sets `key`. */
  method GetConfig(env: Environment, lines: seq<string>, key: string) returns (value: Option<string>)
    ensures value == Config(env, lines, key)
  {
    if key in env && |env[key]| > 0 {
      return Some(env[key]);
    }
    var i := 0;
    while i < |lines|
      invariant 0 <= i <= |lines|
      invariant FileValue(lines[i..], key) == FileValue(lines, key)
    {
      var matched, result := ReadSetting(lines[i], key);
      if matched {
        FileValueHit(lines, i, key);
        return result;
      }
      FileValueSkip(lines, i, key);
      i := i + 1;
    }
    return None;
  }

  /** The test `GetConfig` makes of one `.env` line. */
  method ReadSetting(line: string, key: string) returns (matched: bool, value: Option<string>)
    ensures matched == Sets(line, key)
    ensures matched ==> value == LineValue(line, key)
  {
    var trimmed := Trim(line);
    if StartsWith(trimmed, "#") || |trimmed| == 0 {
      return false, None;
    }
    var prefix := key + "=";
    if !StartsWith(trimmed, prefix) {
      return false, None;
    }
    var result := TrimQuotes(Trim(trimmed[|prefix|..]));
    return true, if |result| == 0 then None else Some(result);
  }

  /** `a ?? b`. */
  function OrElse(a: Option<string>, b: Option<string>): Option<string> {
    if a.Some? then a else b
  }

  predicate NullOrEmpty(s: Option<string>) {
    s.None? || |s.value| == 0
  }

  /** What `Main` starts with: the API key (null when none is found and the
      input ends before one is typed), the two models, and whether neither
      has been configured. */
  datatype Settings = Settings(apiKey: Option<string>, smartModel: string, fastModel: string, noModelConfigured: bool)

  /** The settings for an environment, the `.env` lines and what the user
      types when asked for a key (`None` at the end of the input). Each model
      falls back on `GEMINI_MODEL` and then on the default model. */
  function Configure(env: Environment, lines: seq<string>, typed: Option<string>): (s: Settings)
    ensures |s.smartModel| > 0 && |s.fastModel| > 0
    ensures s.noModelConfigured <==>
              Config(env, lines, SmartModelName).None? && Config(env, lines, FastModelName).None?
              && Config(env, lines, ModelName).None?
    ensures s.noModelConfigured ==> s.smartModel == s.fastModel == DefaultModel
    ensures Config(env, lines, SmartModelName).None? && Config(env, lines, FastModelName).None? ==>
              s.smartModel == s.fastModel
    ensures Config(env, lines, SmartModelName).Some? ==> s.smartModel == Config(env, lines, SmartModelName).value
    ensures Config(env, lines, SmartModelName).None? && Config(env, lines, ModelName).Some? ==>
              s.smartModel == Config(env, lines, ModelName).value
    ensures Config(env, lines, SmartModelName).None? && Config(env, lines, ModelName).None? ==>
              s.smartModel == DefaultModel
    ensures Config(env, lines, FastModelName).Some? ==> s.fastModel == Config(env, lines, FastModelName).value
    ensures Config(env, lines, FastModelName).None? && Config(env, lines, ModelName).Some? ==>
              s.fastModel == Config(env, lines, ModelName).value
    ensures Config(env, lines, FastModelName).None? && Config(env, lines, ModelName).None? ==>
              s.fastModel == DefaultModel
    ensures Config(env, lines, ApiKeyName).Some? ==> s.apiKey == Config(env, lines, ApiKeyName)
    ensures Config(env, lines, ApiKeyName).None? ==> s.apiKey == if typed.Some? then Some(Trim(typed.value)) else None
  {
    var smartRaw := OrElse(Config(env, lines, SmartModelName), Config(env, lines, ModelName));
    var fastRaw := OrElse(Config(env, lines, FastModelName), Config(env, lines, ModelName));
    var typedKey := if typed.Some? then Some(Trim(typed.value)) else None;
    Settings(OrElse(Config(env, lines, ApiKeyName), typedKey),
             if smartRaw.Some? then smartRaw.value else DefaultModel,
             if fastRaw.Some? then fastRaw.value else DefaultModel,
             NullOrEmpty(smartRaw) && NullOrEmpty(fastRaw))
  }

  /** The agent starts only with a non-empty API key. */
  predicate Starts(s: Settings) {
    !NullOrEmpty(s.apiKey)
  }

  /** The comment line that marks the model list in `.env`. */
  const Marker: string := "# --- 自動查詢可用模型列表 ---"
  const DocsHeader: string := "\n" + Marker
  const DocsFooter: string := "# ------------------------------"
  /** The setting the model list is put in front of. */
  const ModelSetting: string := "GEMINI_MODEL="

  /** A model as the model listing describes it; `methods` is missing when
      the listing gives no list of generation methods. */
  datatype ModelInfo = ModelInfo(name: string, displayName: string, methods: Option<seq<string>>)

  predicate Generates(m: ModelInfo) {
    m.methods.Some? && "generateContent" in m.methods.value
  }

  /** The models that support `generateContent`, in the listing's order. */
  function Generating(models: seq<ModelInfo>): (r: seq<ModelInfo>)
    ensures |r| <= |models|
  {
    if |models| == 0 then []
    else
      var last := models[|models| - 1];
      Generating(models[..|models| - 1]) + if Generates(last) then [last] else []
  }

  /** Exactly the listed models that support `generateContent` are kept. */
  lemma {:induction false} GeneratingExactly(models: seq<ModelInfo>)
    ensures forall m :: m in Generating(models) <==> m in models && Generates(m)
  {
    if |models| > 0 {
      var init, last := models[..|models| - 1], models[|models| - 1];
      GeneratingExactly(init);
      assert models == init + [last];
    }
  }

  /** The line of one model: its name without `models/`, left-aligned in 25
      columns, then its display name. */
  function EntryLine(m: ModelInfo): string {
    "# " + PadRight(Replace(m.name, "models/", ""), 25) + " : " + m.displayName
  }

  function EntryLines(models: seq<ModelInfo>): (lines: seq<string>)
    ensures |lines| == |models| && forall i :: 0 <= i < |models| ==> lines[i] == EntryLine(models[i])
  {
    seq(|models|, i requires 0 <= i < |models| => EntryLine(models[i]))
  }

  /** The model lines as the loop writes them, one model after another. */
  function EntryText(models: seq<ModelInfo>): string {
    if |models| == 0 then ""
    else
      var last := models[|models| - 1];
      EntryText(models[..|models| - 1]) + if Generates(last) then EntryLine(last) + NewLine else ""
  }

  /** The model lines are the lines of exactly the models that support
      `generateContent`, in the listing's order. */
  lemma {:induction false} EntryTextListsGenerating(models: seq<ModelInfo>)
    ensures EntryText(models) == Lines(EntryLines(Generating(models)))
  {
    if |models| > 0 {
      var init, last := models[..|models| - 1], models[|models| - 1];
      EntryTextListsGenerating(init);
      var before := Generating(init);
      var added := if Generates(last) then [last] else [];
      assert EntryLines(before + added) == EntryLines(before) + EntryLines(added);
      LinesAppend(EntryLines(before), EntryLines(added));
      if Generates(last) {
        LinesCons(EntryLine(last), []);
      }
    }
  }

  /** The model list written into `.env`: the marker, the model lines and a
      closing line. */
  function Docs(models: seq<ModelInfo>): string {
    DocsHeader + NewLine + EntryText(models) + DocsFooter + NewLine
  }

  /** The model list of `UpdateEnvWithModelListAsync`, built line by line. */
  method BuildDocs(models: seq<ModelInfo>) returns (docs: string)
    ensures docs == Docs(models)
  {
    var sb := new StringBuilder();
    sb.AppendLine(DocsHeader);
    assert sb.text == DocsHeader + NewLine;
    AppendEntries(sb, models);
    sb.AppendLine(DocsFooter);
    docs := sb.text;
  }

  /** The loop over the listed models: one line for each model that supports
      `generateContent`. */
  method AppendEntries(sb: StringBuilder, models: seq<ModelInfo>)
    modifies sb
    ensures sb.text == old(sb.text) + EntryText(models)
  {
    assert models[..0] == [];
    var i := 0;
    while i < |models|
      invariant 0 <= i <= |models|
      invariant sb.text == old(sb.text) + EntryText(models[..i])
    {
      var model := models[i];
      EntryTextStep(old(sb.text), models, i);
      if Generates(model) {
        sb.AppendLine(EntryLine(model));
      }
      i := i + 1;
    }
    assert models[..|models|] == models;
  }

  lemma EntryTextStep(prefix: string, models: seq<ModelInfo>, i: nat)
    requires i < |models|
    ensures Generates(models[i]) ==>
              prefix + EntryText(models[..i + 1]) == prefix + EntryText(models[..i]) + EntryLine(models[i]) + NewLine
    ensures !Generates(models[i]) ==> prefix + EntryText(models[..i + 1]) == prefix + EntryText(models[..i])
  {
    assert models[..i + 1][..i] == models[..i];
  }

  /** The new `.env` text: unchanged when it already holds the marker;
      otherwise the model list goes in front of every `GEMINI_MODEL=`, or at
      the end when there is none. */
  function Inject(content: string, models: seq<ModelInfo>): string {
    if Contains(content, Marker) then content
    else if Contains(content, ModelSetting) then Replace(content, ModelSetting, Docs(models) + ModelSetting)
    else content + Docs(models)
  }

  lemma DocsHaveMarker(models: seq<ModelInfo>)
    ensures Contains(Docs(models), Marker)
  {
    var rest := NewLine + EntryText(models) + DocsFooter + NewLine;
    ContainsInfix("\n", Marker, rest);
    assert "\n" + Marker + rest == Docs(models);
  }

  /** The model list goes in front of the `GEMINI_MODEL=` setting. */
  lemma InjectBeforeSetting(content: string, models: seq<ModelInfo>)
    requires !Contains(content, Marker) && Contains(content, ModelSetting)
    ensures Contains(Inject(content, models), Docs(models) + ModelSetting)
  {
    ReplaceEffect(content, ModelSetting, Docs(models) + ModelSetting);
  }

  /** Without a `GEMINI_MODEL=` setting the model list goes at the end. */
  lemma InjectAppends(content: string, models: seq<ModelInfo>)
    requires !Contains(content, Marker) && !Contains(content, ModelSetting)
    ensures Inject(content, models) == content + Docs(models)
    ensures Contains(Inject(content, models), Marker)
  {
    DocsHaveMarker(models);
    ContainsAppend(content, Docs(models), Marker);
  }

  /** Once written, the list is never written again, whatever a later
      listing holds. */
  lemma InjectIdempotent(content: string, models: seq<ModelInfo>, later: seq<ModelInfo>)
    ensures Inject(Inject(content, models), later) == Inject(content, models)
  {
    if !Contains(content, Marker) {
      var docs := Docs(models);
      DocsHaveMarker(models);
      if Contains(content, ModelSetting) {
        ReplaceEffect(content, ModelSetting, docs + ModelSetting);
        ContainsPrepend(docs, ModelSetting, Marker);
        ContainsTrans(Inject(content, models), docs + ModelSetting, Marker);
      } else {
        ContainsAppend(content, docs, Marker);
      }
    }
  }

  /** `UpdateEnvWithModelListAsync`: `content` is the `.env` text (`None`
      without a file) and `listing` the models the service lists (`None`
      when asking for them fails; every failure is silent). The result is the
      text written back, if any. */
  method UpdateEnvWithModelList(content: Option<string>, listing: Option<seq<ModelInfo>>) returns (written: Option<string>)
    ensures written.Some? <==> content.Some? && !Contains(content.value, Marker) && listing.Some?
    ensures written.Some? ==> written.value == Inject(content.value, listing.value)
  {
    if content.None? {
      return None;
    }
    var envContent := content.value;
    if Contains(envContent, Marker) || listing.None? {
      return None;
    }
    var docs := BuildDocs(listing.value);
    if Contains(envContent, ModelSetting) {
      envContent := Replace(envContent, ModelSetting, docs + ModelSetting);
    } else {
      envContent := envContent + docs;
    }
    return Some(envContent);
  }

  /** The configuration part of `Main`: the settings, and the `.env` text
      written back when the agent starts with no model configured. */
  method Startup(env: Environment, lines: seq<string>, typed: Option<string>,
                 content: Option<string>, listing: Option<seq<ModelInfo>>)
    returns (settings: Settings, written: Option<string>)
    ensures settings == Configure(env, lines, typed)
    ensures written.Some? <==>
              Starts(settings) && settings.noModelConfigured
              && content.Some? && !Contains(content.value, Marker) && listing.Some?
    ensures written.Some? ==> written.value == Inject(content.value, listing.value)
  {
    var apiKey := GetConfig(env, lines, ApiKeyName);
    if apiKey.None? {
      apiKey := if typed.Some? then Some(Trim(typed.value)) else None;
    }
    var smartRaw := GetConfig(env, lines, SmartModelName);
    var fastRaw := GetConfig(env, lines, FastModelName);
    var shared := GetConfig(env, lines, ModelName);
    if smartRaw.None? {
      smartRaw := shared;
    }
    if fastRaw.None? {
      fastRaw := shared;
    }
    var noModelConfigured := NullOrEmpty(smartRaw) && NullOrEmpty(fastRaw);
    settings := Settings(apiKey, if smartRaw.Some? then smartRaw.value else DefaultModel,
                         if fastRaw.Some? then fastRaw.value else DefaultModel, noModelConfigured);
    written := None;
    if !NullOrEmpty(apiKey) && noModelConfigured {
      written := UpdateEnvWithModelList(content, listing);
    }
  }

  /** What one line does to the prompts that follow it: an empty line and a
      command let them through, `/exit` drops them, and any other line goes
      in front of them. */
  function Next(input: string, later: seq<string>): (prompts: seq<string>)
    ensures |prompts| <= |later| + 1
  {
    var command := CommandManager.Parse(input);
    if |input| == 0 then later
    else if command.Exit? then []
    else if !command.NotCommand? then later
    else [input] + later
  }

  /** The prompts the interactive loop hands to the agent, in order: empty
      lines are skipped, commands are handled, and `/exit` ends the loop. */
  function Prompts(inputs: seq<string>): (prompts: seq<string>)
    ensures |prompts| <= |inputs|
  {
    if |inputs| == 0 then [] else Next(inputs[0], Prompts(inputs[1..]))
  }

  /** One line further down the input. */
  lemma PromptsStep(inputs: seq<string>, i: nat)
    requires i < |inputs|
    ensures Prompts(inputs[i..]) == Next(inputs[i], Prompts(inputs[i + 1..]))
  {
    assert inputs[i..][1..] == inputs[i + 1..];
  }

  /** The prompts of a whole run: the words given on the command line,
      joined by spaces, are handled first, as a command or as a prompt. */
  function RunPrompts(args: seq<string>, inputs: seq<string>): seq<string> {
    if |args| == 0 then Prompts(inputs)
    else
      var initial := Join(args, ' ');
      var command := CommandManager.Parse(initial);
      if command.Exit? then []
      else if command.NotCommand? then [initial] + Prompts(inputs)
      else Prompts(inputs)
  }

  /** The loop never hands the agent an empty line or a command. */
  lemma {:induction false} PromptsAreNotCommands(inputs: seq<string>)
    ensures forall k :: 0 <= k < |Prompts(inputs)| ==> |Prompts(inputs)[k]| > 0 && Prompts(inputs)[k][0] != '/'
  {
    if |inputs| > 0 {
      PromptsAreNotCommands(inputs[1..]);
    }
  }

  /** Nothing typed after `/exit` reaches the agent. */
  lemma {:induction false} ExitEndsLoop(before: seq<string>, line: string, after: seq<string>)
    requires CommandManager.Parse(line).Exit?
    ensures Prompts(before + [line] + after) == Prompts(before)
    decreases |before|
  {
    var inputs := before + [line] + after;
    if |before| == 0 {
      assert inputs[0] == line;
    } else {
      assert inputs[0] == before[0] && inputs[1..] == before[1..] + [line] + after;
      ExitEndsLoop(before[1..], line, after);
    }
  }

  /** The loop of `Main` after the agent is made: the command-line words
      first, then each line of `inputs` in turn; `answers(n)` are the
      answers to the go-on questions while the agent works on the n-th
      prompt. The result is the prompts the agent was given. */
  method Session(agent: Agent.UniversalAgent, args: seq<string>, inputs: seq<string>,
                 service: Agent.Service, answers: nat -> seq<bool>)
    returns (prompts: seq<string>)
    requires agent.Valid()
    modifies agent
    ensures agent.Valid() && agent.modules == old(agent.modules)
    ensures prompts == RunPrompts(args, inputs)
  {
    prompts := [];
    if |args| > 0 {
      var initial := Join(args, ' ');
      var isCommand, startShouldExit := CommandManager.TryHandleCommand(initial, agent);
      if isCommand && startShouldExit {
        return;
      }
      if !isCommand {
        var _, _, _ := agent.Execute(initial, service, answers(0));
        prompts := [initial];
      }
    }
    ghost var target := RunPrompts(args, inputs);
    assert prompts + Prompts(inputs) == target;
    assert inputs[0..] == inputs;
    var i := 0;
    while i < |inputs|
      invariant 0 <= i <= |inputs|
      invariant agent.Valid() && agent.modules == old(agent.modules)
      invariant prompts + Prompts(inputs[i..]) == target
    {
      PromptsStep(inputs, i);
      var prompted, exit := HandleLine(agent, inputs[i], service, answers(|prompts|), Prompts(inputs[i + 1..]));
      if exit {
        return;
      }
      if prompted {
        prompts := prompts + [inputs[i]];
      }
      i := i + 1;
    }
  }

  /** One turn of the loop of `Main`: an empty line is skipped, a command is
      handled, and any other line is given to the agent. `later` stands for
      the prompts the lines after this one give. */
  method HandleLine(agent: Agent.UniversalAgent, input: string, service: Agent.Service, answers: seq<bool>,
                    ghost later: seq<string>)
    returns (prompted: bool, exit: bool)
    requires agent.Valid()
    modifies agent
    ensures agent.Valid() && agent.modules == old(agent.modules)
    ensures exit ==> Next(input, later) == []
    ensures !exit ==> Next(input, later) == (if prompted then [input] else []) + later
  {
    prompted, exit := false, false;
    if |input| == 0 {
      return;
    }
    var handled, shouldExit := CommandManager.TryHandleCommand(input, agent);
    if handled {
      exit := shouldExit;
      return;
    }
    var _, _, _ := agent.Execute(input, service, answers);
    prompted := true;
  }
}
