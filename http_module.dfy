/** `HttpModule`: the `http_get` and `http_post` tools. The requests
    themselves are not modelled: `HttpTools` catches every failure and always
    answers with a text, which is an input here. */
module HttpModule {
  import opened Text
  import opened Json
  import opened ToolOutcome
  import GeminiClient

  /** A request as `HttpTools` receives it; absent headers are null. */
  datatype HttpRequest =
    | Get(url: string, headers: Option<string>)
    | Post(url: string, body: string, contentType: string, headers: Option<string>)

  /** The text `HttpTools` answers a request with. */
  type HttpService = HttpRequest -> string

  datatype HttpModule = HttpModule(service: HttpService)

  const DefaultContentType: string := "application/json"

  function StringProperty(description: string): Json {
    JObj([("type", JStr("string")), ("description", JStr(description))])
  }

  function GetDeclaration(): (d: Json)
    ensures GeminiClient.DeclaredName(d) == Some("http_get")
  {
    GeminiClient.CreateFunctionDeclaration(
      "http_get", "發送 HTTP GET 請求獲取資料。",
      JObj([("type", JStr("object")),
            ("properties", JObj([("url", StringProperty("目標 URL")),
                                 ("headers", StringProperty("選填，JSON 格式的 Header (例如: {\"Authorization\": \"Bearer ...\"})"))])),
            ("required", JArr([JStr("url")]))]))
  }

  function PostDeclaration(): (d: Json)
    ensures GeminiClient.DeclaredName(d) == Some("http_post")
  {
    GeminiClient.CreateFunctionDeclaration(
      "http_post", "發送 HTTP POST 請求傳送資料。",
      JObj([("type", JStr("object")),
            ("properties", JObj([("url", StringProperty("目標 URL")),
                                 ("body", StringProperty("POST 內容 (通常是 JSON 字串)")),
                                 ("contentType", StringProperty("選填，預設為 application/json")),
                                 ("headers", StringProperty("選填，JSON 格式的 Header"))])),
            ("required", JArr([JStr("url"), JStr("body")]))]))
  }

  /** `GetToolDeclarations`: `http_get`, then `http_post`. */
  function Declarations(): (ds: seq<Json>)
    ensures |ds| == 2
    ensures GeminiClient.DeclaredName(ds[0]) == Some("http_get")
    ensures GeminiClient.DeclaredName(ds[1]) == Some("http_post")
  {
    [GetDeclaration(), PostDeclaration()]
  }

  /** An optional argument that is null when absent; a present null throws. */
  function OptionalOrNull(args: Args, key: string): (r: Result<Option<string>, string>)
    ensures key !in args ==> r == Ok(None)
    ensures key in args ==> (r.Ok? <==> !args[key].JNull?)
  {
    if key !in args then Ok(None)
    else
      match ToText(args[key])
      case Ok(t) => Ok(Some(t))
      case Err(message) => Err(message)
  }

  /** The request a call asks for, or the message of the exception reading
      its arguments throws; `None` for a name that is not this module's. */
  function RequestOf(name: string, args: Args): (r: Option<Result<HttpRequest, string>>)
    ensures r.Some? <==> name == "http_get" || name == "http_post"
    ensures r.Some? && r.value.Ok? ==> (r.value.value.Get? <==> name == "http_get")
    ensures name == "http_post" && "contentType" !in args && r.Some? && r.value.Ok? ==>
              r.value.value.contentType == DefaultContentType
  {
    match name
    case "http_get" =>
      Some(match (Required(args, "url"), OptionalOrNull(args, "headers"))
           case (Err(message), _) => Err(message)
           case (_, Err(message)) => Err(message)
           case (Ok(url), Ok(headers)) => Ok(Get(url, headers)))
    case "http_post" =>
      Some(match (Required(args, "url"), Required(args, "body"),
                  Optional(args, "contentType", DefaultContentType), OptionalOrNull(args, "headers"))
           case (Err(message), _, _, _) => Err(message)
           case (_, Err(message), _, _) => Err(message)
           case (_, _, Err(message), _) => Err(message)
           case (_, _, _, Err(message)) => Err(message)
           case (Ok(url), Ok(body), Ok(contentType), Ok(headers)) => Ok(Post(url, body, contentType, headers)))
    case _ => None
  }

  /** `TryHandleToolCallAsync(name, args)`: the service's answer to the request
      the call asks for. */
  function TryHandle(m: HttpModule, name: string, args: Args): (r: Outcome)
    ensures r.NotHandled? <==> name != "http_get" && name != "http_post"
    ensures RequestOf(name, args).Some? && RequestOf(name, args).value.Ok? ==>
              r == Handled(m.service(RequestOf(name, args).value.value))
  {
    match RequestOf(name, args)
    case None => NotHandled
    case Some(Err(message)) => Threw(message)
    case Some(Ok(request)) => Handled(m.service(request))
  }
}
