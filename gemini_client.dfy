/** The pure side of the Gemini client: how an HTTP status becomes an error,
    how the request body is shaped, and the tool-declaration helpers. The
    POST itself is not modelled: its response is an input. */
module GeminiClient {
  import opened Text
  import opened Json
  import opened Transcript

  const DefaultModel: string := "gemini-2.5-flash"

  /** The status line and body the service answered with. */
  datatype HttpResponse = HttpResponse(status: int, body: string)

  /** The exceptions `GenerateContentAsync` throws for an unsuccessful status. */
  datatype ServiceError =
    | QuotaExceeded
    | FunctionCallingUnsupported(model: string)
    | ApiError(status: int, body: string)

  /** The four phrases by which a 400 answer says the model cannot call functions. */
  const UnsupportedPhrases: seq<string> := [
    "Model does not support function calling",
    "models not supported",
    "not support tools",
    "Function calling is not enabled"
  ]

  predicate MentionsUnsupported(body: string) {
    Contains(body, UnsupportedPhrases[0]) || Contains(body, UnsupportedPhrases[1])
    || Contains(body, UnsupportedPhrases[2]) || Contains(body, UnsupportedPhrases[3])
  }

  predicate IsSuccessStatus(status: int) {
    200 <= status <= 299
  }

  /** What `GenerateContentAsync` makes of the HTTP response of model `model`:
      the body on success, otherwise the exception it throws. */
  function Classify(model: string, response: HttpResponse): (r: Result<string, ServiceError>)
    ensures IsSuccessStatus(response.status) <==> r.Ok?
    ensures r.Ok? ==> r.value == response.body
    ensures response.status == 429 ==> r == Err(QuotaExceeded)
    ensures response.status == 400 ==>
              r == if MentionsUnsupported(response.body) then Err(FunctionCallingUnsupported(model))
                   else Err(ApiError(400, response.body))
    ensures r.Err? && response.status != 429 && response.status != 400 ==>
              r == Err(ApiError(response.status, response.body))
  {
    var body := response.body;
    if IsSuccessStatus(response.status) then Ok(body)
    else if response.status == 429 then Err(QuotaExceeded)
    else if response.status == 400
         && (Contains(body, "Model does not support function calling")
             || Contains(body, "models not supported")
             || Contains(body, "not support tools")
             || Contains(body, "Function calling is not enabled"))
    then Err(FunctionCallingUnsupported(model))
    else Err(ApiError(response.status, body))
  }

  /** A 429 answer is a quota error whatever its body says, even one naming function calling. */
  lemma QuotaWinsOverBody(model: string, body: string)
    ensures Classify(model, HttpResponse(429, body)) == Err(QuotaExceeded)
    ensures Classify(model, HttpResponse(429, body)) != Err(FunctionCallingUnsupported(model))
  {
  }

  /** The name `HttpStatusCode` gives a status when it is formatted into a message. */
  function StatusName(status: int): string {
    match status
    case 100 => "Continue"
    case 101 => "SwitchingProtocols"
    case 304 => "NotModified"
    case 305 => "UseProxy"
    case 306 => "Unused"
    case 400 => "BadRequest"
    case 401 => "Unauthorized"
    case 402 => "PaymentRequired"
    case 403 => "Forbidden"
    case 404 => "NotFound"
    case 405 => "MethodNotAllowed"
    case 406 => "NotAcceptable"
    case 407 => "ProxyAuthenticationRequired"
    case 408 => "RequestTimeout"
    case 409 => "Conflict"
    case 410 => "Gone"
    case 411 => "LengthRequired"
    case 412 => "PreconditionFailed"
    case 413 => "RequestEntityTooLarge"
    case 414 => "RequestUriTooLong"
    case 415 => "UnsupportedMediaType"
    case 416 => "RequestedRangeNotSatisfiable"
    case 417 => "ExpectationFailed"
    case 426 => "UpgradeRequired"
    case 500 => "InternalServerError"
    case 501 => "NotImplemented"
    case 502 => "BadGateway"
    case 503 => "ServiceUnavailable"
    case 504 => "GatewayTimeout"
    case 505 => "HttpVersionNotSupported"
    case _ => IntToString(status)
  }

  /** The message of the exception thrown for each error. */
  function ErrorMessage(e: ServiceError): string {
    match e
    case QuotaExceeded =>
      "Gemini API Quota Exceeded (429).\n"
      + "你不小心超出了目前的 API 使用額度。\n"
      + "請檢查您的 Google AI Studio 方案或稍後再試。\n"
      + "詳細錯誤資訊可至 logs 日誌中查看。"
    case FunctionCallingUnsupported(model) =>
      "目前使用的模型 (" + model + ") 不支援 Function Calling 功能 (Tool Use)。\n"
      + "請嘗試切換至其他模型 (例如 gemini-2.0-flash 或 gemini-2.5-flash)。"
    case ApiError(status, body) =>
      "Gemini API Error: " + StatusName(status) + "\n" + body
  }

  /** The generic error keeps the body it was given. */
  lemma ApiErrorKeepsBody(model: string, status: int, body: string)
    requires !IsSuccessStatus(status) && status != 429 && status != 400
    ensures Classify(model, HttpResponse(status, body)) == Err(ApiError(status, body))
    ensures EndsWith(ErrorMessage(ApiError(status, body)), "\n" + body)
  {
  }

  /** The `system_instruction` member of a request body: null when there is no
      instruction, otherwise an object holding one text part. */
  function SystemInstructionJson(instruction: Option<string>): (j: Json)
    ensures j.JNull? <==> instruction.None? || instruction.value == ""
    ensures j.JObj? ==> j == JObj([("parts", JArr([JObj([("text", JStr(instruction.value))])]))])
  {
    match instruction
    case None => JNull
    case Some(text) =>
      if text == "" then JNull else JObj([("parts", JArr([JObj([("text", JStr(text))])]))])
  }

  /** The request the agent hands to the client. */
  datatype Request = Request(contents: seq<Turn>, tools: Option<seq<Json>>, systemInstruction: Option<string>)

  /** The body that is serialized and posted. */
  datatype Body = Body(contents: seq<Turn>, tools: Option<seq<Json>>, systemInstruction: Json)

  function RequestBody(request: Request): (b: Body)
    ensures b.contents == request.contents && b.tools == request.tools
    ensures b.systemInstruction.JObj? <==> request.systemInstruction.Some? && request.systemInstruction.value != ""
  {
    Body(request.contents, request.tools, SystemInstructionJson(request.systemInstruction))
  }

  /** `DefineTools`: all declarations wrapped in one `function_declarations` entry. */
  function DefineTools(declarations: seq<Json>): (tools: seq<Json>)
    ensures |tools| == 1
    ensures Field(tools[0], "function_declarations") == Some(JArr(declarations))
  {
    [JObj([("function_declarations", JArr(declarations))])]
  }

  /** `CreateFunctionDeclaration`: name, description and parameter schema, passed through. */
  function CreateFunctionDeclaration(name: string, description: string, parameters: Json): (d: Json)
    ensures Field(d, "name") == Some(JStr(name))
    ensures Field(d, "description") == Some(JStr(description))
    ensures Field(d, "parameters") == Some(parameters)
  {
    var fields := [("name", JStr(name)), ("description", JStr(description)), ("parameters", parameters)];
    assert fields[1..] == [("description", JStr(description)), ("parameters", parameters)];
    assert fields[1..][1..] == [("parameters", parameters)];
    assert "description" != "name" && "parameters" != "name" && "parameters" != "description" by {
      assert "description"[0] != "name"[0] && "parameters"[0] != "name"[0] && "parameters"[0] != "description"[0];
    }
    assert FieldIn(fields[1..][1..], "parameters") == Some(parameters);
    assert FieldIn(fields[1..], "parameters") == Some(parameters);
    assert FieldIn(fields[1..], "description") == Some(JStr(description));
    JObj(fields)
  }

  /** The name a declaration was created with. */
  function DeclaredName(d: Json): Option<string> {
    match Field(d, "name")
    case Some(JStr(n)) => Some(n)
    case _ => None
  }

  /** `CreateSimpleContents`: one user turn holding the prompt. */
  function SimpleContents(prompt: string): seq<Turn> {
    [UserText(prompt)]
  }
}
