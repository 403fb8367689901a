/** `FileModule`: the `list_files`, `read_file` and `write_file` tools over
    `FileTools`, with an optional fast model that condenses a file to what a
    query asks for. */
module FileModule {
  import opened Text
  import opened Json
  import opened Transcript
  import opened ToolOutcome
  import GeminiClient
  import FileTools

  /** The fast model's service: for the contents of a request, the reply as
      the deserializer reads it, or the message of the exception the call
      threw. */
  type FastService = seq<Turn> -> Result<Json, string>

  /** The module's fields, fixed at construction: `fast` is the fast client,
      absent when none was passed. */
  datatype FileModule = FileModule(tools: FileTools.FileTools, fast: Option<FastService>)

  predicate HasFastModel(m: FileModule) {
    m.fast.Some?
  }

  const ReadFileDescription: string :=
    "讀取特定檔案的內容。支援 .txt, .md, .csv, .json, .docx, .cs 等文字格式，也支援圖片 (.png, .jpg, .jpeg, .gif, .bmp, .webp)。讀取 AI 儲存的檔案請加上 AI_Workspace/ 前綴。"
  const SummaryHint: string := "若檔案過大，可指定 summaryQuery 來擷取重點。"
  const ListFilesDescription: string := "以樹狀結構列出指定資料夾路徑下（最多 3 層）的所有檔案與子資料夾。"
  const WriteFileDescription: string :=
    "將資訊儲存為文字檔至 AI_Workspace。支援各種文字格式 (如 .txt, .md, .json, .cs 等)。預設會將內容附加到檔案末尾，若需覆蓋請設 append=false。"

  function StringProperty(description: string): Json {
    JObj([("type", JStr("string")), ("description", JStr(description))])
  }

  function ObjectSchema(properties: seq<(string, Json)>, required: seq<string>): Json {
    JObj([("type", JStr("object")), ("properties", JObj(properties))]
         + (if |required| == 0 then [] else [("required", JArr(seq(|required|, i requires 0 <= i < |required| => JStr(required[i]))))]))
  }

  function ListFilesSchema(): Json {
    ObjectSchema([("subPath", StringProperty("資料夾相對路徑"))], [])
  }

  const FileNameProperty: (string, Json) := ("fileName", StringProperty("檔案路徑 (例如 AI_Workspace/notes.txt)"))
  const SummaryQueryProperty: (string, Json) := ("summaryQuery", StringProperty("僅讀取符合此查詢的重點 (選填，使用快速模型處理)"))

  /** The `read_file` parameters: `summaryQuery` is offered only with a fast model. */
  function ReadFileSchema(hasFastModel: bool): Json {
    if hasFastModel then ObjectSchema([FileNameProperty, SummaryQueryProperty], ["fileName"])
    else ObjectSchema([FileNameProperty], ["fileName"])
  }

  lemma ReadFileProperties(hasFastModel: bool)
    ensures Field(ReadFileSchema(hasFastModel), "properties").Some?
    ensures Field(Field(ReadFileSchema(hasFastModel), "properties").value, "summaryQuery").Some? <==> hasFastModel
  {
    assert "type" != "properties" by { assert "type"[0] != "properties"[0]; }
    assert "fileName" != "summaryQuery" by { assert "fileName"[0] != "summaryQuery"[0]; }
    var props := if hasFastModel then [FileNameProperty, SummaryQueryProperty] else [FileNameProperty];
    var fields := ReadFileSchema(hasFastModel).fields;
    assert fields[0].0 == "type" && fields[1] == ("properties", JObj(props));
    assert FieldIn(fields[1..], "properties") == Some(JObj(props));
    if hasFastModel {
      assert props[1..] == [SummaryQueryProperty];
    }
  }

  function WriteFileSchema(): Json {
    ObjectSchema([("fileName", StringProperty("檔名 (例如 notes.txt)")),
                  ("content", StringProperty("內容")),
                  ("append", JObj([("type", JStr("boolean")), ("description", JStr("true=附加內容到最後 (預設); false=覆蓋所有內容"))]))],
                 ["fileName", "content"])
  }

  function ListFilesDeclaration(): (d: Json)
    ensures GeminiClient.DeclaredName(d) == Some("list_files")
  {
    GeminiClient.CreateFunctionDeclaration("list_files", ListFilesDescription, ListFilesSchema())
  }

  function ReadFileDeclaration(m: FileModule): (d: Json)
    ensures GeminiClient.DeclaredName(d) == Some("read_file")
  {
    GeminiClient.CreateFunctionDeclaration(
      "read_file", ReadFileDescription + (if HasFastModel(m) then SummaryHint else ""), ReadFileSchema(HasFastModel(m)))
  }

  function WriteFileDeclaration(): (d: Json)
    ensures GeminiClient.DeclaredName(d) == Some("write_file")
  {
    GeminiClient.CreateFunctionDeclaration("write_file", WriteFileDescription, WriteFileSchema())
  }

  /** `GetToolDeclarations`: `list_files`, `read_file`, `write_file`, in that
      order; `delete_file` is not offered. */
  function Declarations(m: FileModule): (ds: seq<Json>)
    ensures |ds| == 3
    ensures GeminiClient.DeclaredName(ds[0]) == Some("list_files")
    ensures GeminiClient.DeclaredName(ds[1]) == Some("read_file")
    ensures GeminiClient.DeclaredName(ds[2]) == Some("write_file")
  {
    [ListFilesDeclaration(), ReadFileDeclaration(m), WriteFileDeclaration()]
  }

  /** The properties of a declaration's parameter schema. */
  function Properties(d: Json): Option<Json> {
    match Field(d, "parameters")
    case Some(p) => Field(p, "properties")
    case None => None
  }

  /** The `read_file` declaration mentions `summaryQuery`, in its description
      and as a property, exactly when the module has a fast model. */
  lemma SummaryQueryOnlyWithFastModel(m: FileModule)
    ensures var d := Declarations(m)[1];
      Properties(d).Some?
      && (Field(Properties(d).value, "summaryQuery").Some? <==> HasFastModel(m))
      && (Field(d, "description") == Some(JStr(ReadFileDescription + SummaryHint)) <==> HasFastModel(m))
  {
    ReadFileProperties(HasFastModel(m));
    if !HasFastModel(m) {
      assert |ReadFileDescription + SummaryHint| != |ReadFileDescription|;
    }
  }

  // ---------------------------------------------------------------- summaries

  const SummaryPrefix: string := "[Fast AI Summary]: "
  const FastErrorPrefix: string := "[Fast AI Error]"
  const UnparsableSummary: string := "[Fast AI Error] 無法解析摘要回應。"
  const FallbackWarning: string := "\n\n[Warning: Summary failed, falling back to full content] 以下是原始檔案內容：\n"

  /** The prompt asking the fast model to condense `content` for `query`. */
  function SummaryPrompt(content: string, query: string): string {
    "以下是檔案內容：\n\n" + content + "\n\n請根據使用者的需求：「" + query + "」，擷取相關重點或進行總結。不要回答無關的內容。"
  }

  /** A value written into an interpolated string: null is the empty text. */
  function Interpolated(v: Json): string {
    match ToText(v)
    case Ok(t) => t
    case Err(_) => ""
  }

  /** The message `Deserialize<Dictionary<string, object>>` throws for a
      reply that is neither null nor an object: an array is refused as such,
      any other value cannot be converted from its .NET type. */
  function NotDictionaryMessage(v: Json): (r: string)
    requires !v.JNull? && !v.JObj?
    ensures r != KeyNotFoundMessage && r != NullReferenceMessage
  {
    var typeName := match v
      case JBool(_) => "System.Boolean"
      case JInt(i) =>
        if -0x8000_0000 <= i < 0x8000_0000 then "System.Int32"
        else if -0x8000_0000_0000_0000 <= i < 0x8000_0000_0000_0000 then "System.Int64"
        else "System.Decimal"
      case JDec(_, _) => "System.Decimal"
      case JStr(_) => "System.String"
      case JArr(_) => ArrayListType;
    if v.JArr? then "Type '" + DictionaryType + "' is not supported for deserialization of an array."
    else "Cannot convert object of type '" + typeName + "' to type '" + DictionaryType + "'"
  }

  /** Reading the first text of the first candidate of a reply: the summary
      text, the unparsable-reply text when a list is missing or empty or the
      part has no text, or the message of the exception a null reply, a
      reply that is no object, a missing key or a non-object entry throws. */
  function ReadSummary(data: Json): (r: Result<string, string>)
    ensures r.Ok? ==> r.value == UnparsableSummary || StartsWith(r.value, SummaryPrefix)
    ensures data.JNull? ==> r == Err(NullReferenceMessage)
    ensures !data.JNull? && !data.JObj? ==> r == Err(NotDictionaryMessage(data))
    ensures data.JObj? && Field(data, "candidates").None? ==> r == Err(KeyNotFoundMessage)
  {
    if data.JNull? then Err(NullReferenceMessage)
    else if !data.JObj? then Err(NotDictionaryMessage(data))
    else
    match Field(data, "candidates")
    case None => Err(KeyNotFoundMessage)
    case Some(candidates) =>
      if !candidates.JArr? || |candidates.items| == 0 then Ok(UnparsableSummary)
      else if !candidates.items[0].JObj? then Err(NullReferenceMessage)
      else
        match Field(candidates.items[0], "content")
        case None => Err(KeyNotFoundMessage)
        case Some(content) =>
          if !content.JObj? then Err(NullReferenceMessage)
          else
            match Field(content, "parts")
            case None => Err(KeyNotFoundMessage)
            case Some(parts) =>
              if !parts.JArr? || |parts.items| == 0 then Ok(UnparsableSummary)
              else if !parts.items[0].JObj? then Err(NullReferenceMessage)
              else
                match Field(parts.items[0], "text")
                case None => Ok(UnparsableSummary)
                case Some(text) => Ok(SummaryPrefix + Interpolated(text))
  }

  /** A reply whose first candidate's content has a first part with a
      `text` field reads as that text after the summary prefix, whatever
      follows in the lists and the objects. */
  lemma FirstTextIsSummary(data: Json, candidates: seq<Json>, content: Json, parts: seq<Json>, text: Json)
    requires Field(data, "candidates") == Some(JArr(candidates)) && |candidates| > 0
    requires Field(candidates[0], "content") == Some(content)
    requires Field(content, "parts") == Some(JArr(parts)) && |parts| > 0
    requires Field(parts[0], "text") == Some(text)
    ensures ReadSummary(data) == Ok(SummaryPrefix + Interpolated(text))
  {
  }

  /** The reply the fast model sends for a plain answer `t`. */
  lemma PlainReplyIsSummary(t: string)
    ensures ReadSummary(JObj([("candidates", JArr([JObj([("content", JObj([("role", JStr("model")), ("parts", JArr([JObj([("text", JStr(t))])]))]))])]))]))
            == Ok(SummaryPrefix + t)
  {
    var part := JObj([("text", JStr(t))]);
    var content := JObj([("role", JStr("model")), ("parts", JArr([part]))]);
    var candidate := JObj([("content", content)]);
    var data := JObj([("candidates", JArr([candidate]))]);
    assert |"role"| != |"parts"|;
    assert content.fields[1..] == [("parts", JArr([part]))];
    assert FieldIn(content.fields[1..], "parts") == Some(JArr([part]));
    assert FieldIn(content.fields, "parts") == FieldIn(content.fields[1..], "parts");
    FirstTextIsSummary(data, [candidate], content, [part], JStr(t));
  }

  /** True when `content` is empty or an error text of `FileTools`: such
      content is passed back without asking the model. */
  predicate SkipsSummary(content: string) {
    content == "" || StartsWith(content, "錯誤") || StartsWith(content, "找不到")
  }

  /** The text a failed summary call returns: the exception's message and the
      length of the content. */
  function FailedSummary(message: string, content: string): (r: string)
    ensures StartsWith(r, FastErrorPrefix)
  {
    var r := "[Fast AI Error] 摘要失敗: " + message + "\n原始內容長度: " + NatToString(|content|);
    assert r[..|FastErrorPrefix|] == FastErrorPrefix;
    r
  }

  /** `SummarizeContentAsync(content, query)`: content that is empty or an
      error text comes back as it is; otherwise the model is asked once and
      the answer is a summary or a fast-model error. */
  function Summarize(fast: FastService, content: string, query: string): (r: string)
    ensures SkipsSummary(content) ==> r == content
    ensures !SkipsSummary(content) ==>
              StartsWith(r, SummaryPrefix) || StartsWith(r, FastErrorPrefix)
  {
    if SkipsSummary(content) then content
    else
      assert UnparsableSummary[..|FastErrorPrefix|] == FastErrorPrefix;
      match fast(GeminiClient.SimpleContents(SummaryPrompt(content, query)))
      case Err(message) => FailedSummary(message, content)
      case Ok(data) =>
        match ReadSummary(data)
        case Ok(summary) => summary
        case Err(message) => FailedSummary(message, content)
  }

  // ---------------------------------------------------------------- dispatch

  /** What `read_file` answers for the content `FileTools.ReadFile` returned:
      the summary when there is a fast model and a non-empty query, with the
      full content after a warning when the summary failed. */
  function ReadFileAnswer(m: FileModule, content: string, query: Option<string>): string {
    if HasFastModel(m) && query.Some? && query.value != "" then
      var summary := Summarize(m.fast.value, content, query.value);
      if StartsWith(summary, FastErrorPrefix) then summary + FallbackWarning + content
      else summary
    else content
  }

  /** `TryHandleToolCallAsync(name, args)`: the disk after the call and its
      outcome. A missing required argument, a null value or an `append` that is
      not a boolean throws, as the dictionary and `Convert` calls do. */
  function TryHandle(m: FileModule, disk: FileTools.Disk, name: string, args: Args): (r: (FileTools.Disk, Outcome))
    requires FileTools.Valid(m.tools)
    ensures name != "list_files" && name != "read_file" && name != "write_file" ==> r == (disk, NotHandled)
    ensures name != "write_file" ==> r.0 == disk
    ensures name == "list_files" && "subPath" !in args ==>
              r.1 == Handled(FileTools.ListFilesText(m.tools, disk, ""))
  {
    match name
    case "list_files" =>
      (match Optional(args, "subPath", "")
       case Err(message) => (disk, Threw(message))
       case Ok(subPath) => (disk, Handled(FileTools.ListFilesText(m.tools, disk, subPath))))
    case "read_file" =>
      (match Required(args, "fileName")
       case Err(message) => (disk, Threw(message))
       case Ok(fileName) =>
         var content := FileTools.ReadFile(m.tools, disk, fileName);
         if "summaryQuery" !in args then (disk, Handled(ReadFileAnswer(m, content, None)))
         else
           match ToText(args["summaryQuery"])
           case Err(message) => (disk, Threw(message))
           case Ok(query) => (disk, Handled(ReadFileAnswer(m, content, Some(query)))))
    case "write_file" =>
      var append := if "append" in args then ToBoolean(args["append"]) else Ok(true);
      (match (append, Required(args, "fileName"), Required(args, "content"))
       case (Err(message), _, _) => (disk, Threw(message))
       case (_, Err(message), _) => (disk, Threw(message))
       case (_, _, Err(message)) => (disk, Threw(message))
       case (Ok(append), Ok(fileName), Ok(content)) =>
         var (after, text) := FileTools.WriteFile(m.tools, disk, fileName, content, append);
         (after, Handled(text)))
    case _ => (disk, NotHandled)
  }

  /** Without a fast model, or without a non-empty `summaryQuery`, `read_file`
      answers with exactly what `FileTools.ReadFile` returned (a query that is
      present must still be a text: a null one throws). */
  lemma RawContentWithoutQuery(m: FileModule, disk: FileTools.Disk, fileName: string, args: Args)
    requires FileTools.Valid(m.tools)
    requires "fileName" in args && args["fileName"] == JStr(fileName)
    requires "summaryQuery" in args ==> args["summaryQuery"].JStr?
    requires !HasFastModel(m) || "summaryQuery" !in args || args["summaryQuery"].s == ""
    ensures TryHandle(m, disk, "read_file", args) == (disk, Handled(FileTools.ReadFile(m.tools, disk, fileName)))
  {
    assert Required(args, "fileName") == Ok(fileName);
    if "summaryQuery" in args {
      assert ToText(args["summaryQuery"]) == Ok(args["summaryQuery"].s);
    }
  }

  /** With a fast model and a query, the answer is the summary, or, when the
      summary failed, the failure followed by the warning and the whole
      content; empty content and error texts come back unchanged. */
  lemma SummaryOrFallback(m: FileModule, content: string, query: string)
    requires HasFastModel(m) && query != ""
    ensures var answer := ReadFileAnswer(m, content, Some(query));
      if SkipsSummary(content) then answer == content
      else
        (StartsWith(answer, SummaryPrefix) && answer == Summarize(m.fast.value, content, query))
        || (StartsWith(answer, FastErrorPrefix) && EndsWith(answer, FallbackWarning + content))
  {
    var summary := Summarize(m.fast.value, content, query);
    if SkipsSummary(content) {
      assert content == "" || content[0] != '[';
    } else if StartsWith(summary, FastErrorPrefix) {
      var answer := summary + FallbackWarning + content;
      assert answer[..|summary|] == summary;
      assert answer[|answer| - |FallbackWarning + content|..] == FallbackWarning + content;
    } else {
      assert StartsWith(summary, SummaryPrefix);
    }
  }

  /** `write_file` without an `append` argument appends. */
  lemma WriteAppendsByDefault(m: FileModule, disk: FileTools.Disk, fileName: string, content: string, args: Args)
    requires FileTools.Valid(m.tools)
    requires "append" !in args
    requires "fileName" in args && args["fileName"] == JStr(fileName)
    requires "content" in args && args["content"] == JStr(content)
    ensures var (after, text) := FileTools.WriteFile(m.tools, disk, fileName, content, true);
      TryHandle(m, disk, "write_file", args) == (after, Handled(text))
  {
  }
}
