/** `MultiAgentModule`: the `consult_expert`, `list_experts` and
    `dismiss_expert` tools. Each expert is a session with a role (its system
    instruction) and a history of its own; sessions are looked up by name,
    ignoring case. */
module MultiAgent {
  import opened Text
  import opened Json
  import opened Transcript
  import opened ToolOutcome
  import GeminiClient

  /** An expert session: the name it was created under, its role and its
      history. */
  datatype Session = Session(name: string, role: string, history: seq<Turn>)

  /** The expert model's service: the reply to a request. */
  type ExpertService = GeminiClient.Request -> Reply

  /** `Truncate(text, maxLength)`: empty for a null or empty text, the first
      `maxLength` characters and `...` for a longer one, the text otherwise. */
  function Truncate(text: Option<string>, maxLength: nat): (r: string)
    ensures text.None? ==> r == ""
    ensures text.Some? ==> |r| <= maxLength + 3
    ensures text.Some? && |text.value| <= maxLength ==> r == text.value
    ensures text.Some? && |text.value| > maxLength ==>
              StartsWith(r, text.value[..maxLength]) && EndsWith(r, "...") && |r| == maxLength + 3
  {
    if text.None? || text.value == "" then ""
    else if |text.value| > maxLength then
      var r := text.value[..maxLength] + "...";
      assert r[..maxLength] == text.value[..maxLength];
      assert r[|r| - 3..] == "...";
      r
    else text.value
  }

  // ---------------------------------------------------------------- consulting

  function NeedsRoleMessage(name: string): string {
    "[System Error]: 建立新專家 '" + name + "' 時必須提供 'role' 設定（專業背景與指導原則）。"
  }

  function NoResponseMessage(name: string): string {
    "[System]: 專家 " + name + " 沒有回應。"
  }

  function FailureMessage(name: string, message: string): string {
    "[System Error] 諮詢專家 " + name + " 時發生錯誤: " + message
  }

  /** The session a consult works on: the existing one, its role replaced by
      a non-empty `role`, or a new one, which needs a non-empty `role`. */
  function Prepared(sessions: map<string, Session>, name: string, role: Option<string>): (s: Option<Session>)
    ensures Fold(name) in sessions ==> s.Some? && s.value.history == sessions[Fold(name)].history
    ensures Fold(name) !in sessions ==> (s.Some? <==> role.Some? && role.value != "")
    ensures s.Some? && Fold(name) !in sessions ==> s.value == Session(name, role.value, [])
    ensures s.Some? ==> s.value.role != "" || Fold(name) in sessions
  {
    if Fold(name) in sessions then
      var s := sessions[Fold(name)];
      Some(if role.Some? && role.value != "" then s.(role := role.value) else s)
    else if role.None? || role.value == "" then None
    else Some(Session(name, role.value, []))
  }

  /** The texts of the text parts, in order. */
  function Texts(parts: seq<Part>): (texts: seq<string>)
    ensures |texts| <= |parts|
  {
    if |parts| == 0 then []
    else if parts[0].TextPart? then [parts[0].text] + Texts(parts[1..])
    else Texts(parts[1..])
  }

  /** A reply has no text exactly when none of its parts is a text part. */
  lemma {:induction false} NoTexts(parts: seq<Part>)
    ensures |Texts(parts)| == 0 <==> forall i :: 0 <= i < |parts| ==> !parts[i].TextPart?
    decreases |parts|
  {
    if |parts| > 0 {
      NoTexts(parts[1..]);
      assert forall i :: 1 <= i < |parts| ==> parts[i] == parts[1..][i - 1];
    }
  }

  /** The message of the first part that cannot be read, if any. */
  function FirstBroken(parts: seq<Part>): Option<string> {
    if |parts| == 0 then None
    else if parts[0].BrokenPart? then Some(parts[0].message)
    else FirstBroken(parts[1..])
  }

  /** Only a reply with an unreadable part has a first unreadable part. */
  lemma {:induction false} NoneBroken(parts: seq<Part>)
    ensures FirstBroken(parts).None? <==> forall i :: 0 <= i < |parts| ==> !parts[i].BrokenPart?
    decreases |parts|
  {
    if |parts| > 0 {
      NoneBroken(parts[1..]);
      assert forall i :: 1 <= i < |parts| ==> parts[i] == parts[1..][i - 1];
    }
  }

  /** The answer text for a reply with text parts: every text on a line of
      its own, the trailing white space trimmed. */
  function AnswerText(name: string, isNew: bool, role: string, turns: nat, texts: seq<string>): string {
    var sessionInfo :=
      if isNew then " (新建專家 Session，角色: " + Truncate(Some(role), 50) + ")"
      else " (第 " + NatToString(turns) + " 輪對話)";
    "[專家 " + name + " 回應]" + sessionInfo + "：\n" + TrimEnd(Lines(texts))
  }

  /** How a consult ends once the question was added: the history it leaves
      and the text it returns. When something goes wrong after the reply's
      content was added, the entry removed is that content, and the question
      stays. */
  function Settle(name: string, isNew: bool, role: string, asked: seq<Turn>, reply: Reply): (r: (seq<Turn>, string))
    requires |asked| > 0
    ensures reply.Failure? ==> r == (asked[..|asked| - 1], FailureMessage(name, reply.message))
    ensures reply.NoCandidates? ==> r == (asked[..|asked| - 1], NoResponseMessage(name))
    ensures reply.Answer? ==> r.0 == asked || r.0 == asked + [reply.content]
  {
    match reply
    case Failure(message) => (asked[..|asked| - 1], FailureMessage(name, message))
    case NoCandidates => (asked[..|asked| - 1], NoResponseMessage(name))
    case Answer(content, listed) =>
      var answered := asked + [content];
      if !listed then (asked, NoResponseMessage(name))
      else if FirstBroken(content.parts).Some? then (asked, FailureMessage(name, FirstBroken(content.parts).value))
      else if |Texts(content.parts)| == 0 then (asked, NoResponseMessage(name))
      else (answered, AnswerText(name, isNew, role, |answered| / 2, Texts(content.parts)))
  }

  /** A consult that gets a readable text answer grows the expert's history
      by exactly the question and the content; any other reply takes the
      question back, or, when a content had been added, takes only it back. */
  lemma SettleGrowth(name: string, isNew: bool, role: string, before: seq<Turn>, question: string, reply: Reply)
    ensures var asked := before + [UserText(question)];
      var h := Settle(name, isNew, role, asked, reply).0;
      (!reply.Answer? ==> h == before)
      && (reply.Answer? ==>
            ((h == before + [UserText(question), reply.content])
               <==> (reply.listed && FirstBroken(reply.content.parts).None? && |Texts(reply.content.parts)| > 0))
            && (h != before + [UserText(question), reply.content] ==> h == before + [UserText(question)]))
  {
    var asked := before + [UserText(question)];
    assert asked[..|asked| - 1] == before;
    if reply.Answer? {
      assert before + [UserText(question), reply.content] == asked + [reply.content];
    }
  }

  /** A history of question and answer pairs: user turns at even positions,
      model turns at odd ones, and an even length. */
  predicate Alternating(history: seq<Turn>) {
    |history| % 2 == 0
    && forall i :: 0 <= i < |history| ==> history[i].role == (if i % 2 == 0 then User else Model)
  }

  /** The reply's content, kept only when it is a model turn. */
  predicate IsAnswered(reply: Reply) {
    reply.Answer? && reply.listed && reply.content.role == Model
    && FirstBroken(reply.content.parts).None? && |Texts(reply.content.parts)| > 0
  }

  /** A reply whose content has no text part leaves the question in the
      expert's history without an answer: the history no longer alternates. */
  lemma QuestionLeftBehind()
    ensures var reply := Answer(Turn(Model, []), true);
      var h := Settle("e", false, "r", [UserText("q")], reply).0;
      Alternating([]) && h == [UserText("q")] && !Alternating(h)
  {
  }

  /** The evidently intended end of a consult: a failure after the question
      was added takes the whole exchange back. */
  function SettleIntended(name: string, isNew: bool, role: string, before: seq<Turn>, question: string, reply: Reply): (r: (seq<Turn>, string))
    ensures r.0 == before || (reply.Answer? && r.0 == before + [UserText(question), reply.content])
  {
    var asked := before + [UserText(question)];
    var (h, text) := Settle(name, isNew, role, asked, reply);
    if reply.Answer? && h == asked + [reply.content] then
      assert asked + [reply.content] == before + [UserText(question), reply.content];
      (h, text)
    else (before, text)
  }

  /** With the intended rollback, every consult keeps an expert's history a
      sequence of question and answer pairs. */
  lemma IntendedKeepsAlternating(name: string, isNew: bool, role: string, before: seq<Turn>, question: string, reply: Reply)
    requires Alternating(before)
    requires reply.Answer? ==> reply.content.role == Model
    ensures Alternating(SettleIntended(name, isNew, role, before, question, reply).0)
  {
    var h := SettleIntended(name, isNew, role, before, question, reply).0;
    if h != before {
      PairKeepsAlternating(before, UserText(question), reply.content);
    }
  }

  /** A question and its answer appended to an alternating history keep it alternating. */
  lemma PairKeepsAlternating(before: seq<Turn>, question: Turn, answer: Turn)
    requires Alternating(before) && question.role == User && answer.role == Model
    ensures Alternating(before + [question, answer])
  {
    var h := before + [question, answer];
    forall i | 0 <= i < |h|
      ensures h[i].role == (if i % 2 == 0 then User else Model)
    {
      if i < |before| {
        assert h[i] == before[i];
      }
    }
  }

  // ---------------------------------------------------------------- listing

  const NoSessionsMessage: string := "目前沒有活躍的專家 Session。"

  function ListHeader(count: nat): string {
    "目前有 " + NatToString(count) + " 位活躍的專家："
  }

  function ExpertLine(s: Session): string {
    "  [" + s.name + "] 對話輪數: " + NatToString(|s.history| / 2) + " | 角色: " + Truncate(Some(s.role), 60)
  }

  /** The lines of the sessions, in the given enumeration order. */
  function ExpertLines(sessions: map<string, Session>, order: seq<string>): (lines: seq<string>)
    requires forall i :: 0 <= i < |order| ==> order[i] in sessions
    ensures |lines| == |order|
    ensures forall i :: 0 <= i < |order| ==> lines[i] == ExpertLine(sessions[order[i]])
  {
    seq(|order|, i requires 0 <= i < |order| => ExpertLine(sessions[order[i]]))
  }

  /** An order in which a dictionary enumerates `sessions`: every key once. */
  predicate IsEnumeration(sessions: map<string, Session>, order: seq<string>) {
    (forall i :: 0 <= i < |order| ==> order[i] in sessions)
    && (forall k :: k in sessions ==> k in order)
    && (forall i, j :: 0 <= i < j < |order| ==> order[i] != order[j])
  }

  /** The text `ListExperts` returns. */
  function ListText(sessions: map<string, Session>, order: seq<string>): string
    requires IsEnumeration(sessions, order)
  {
    if |sessions| == 0 then NoSessionsMessage
    else TrimEnd(Lines([ListHeader(|sessions|), ""] + ExpertLines(sessions, order)))
  }

  /** Every session is listed: the listing holds its line, naming it as it
      was created. */
  lemma ListsEverySession(sessions: map<string, Session>, order: seq<string>, key: string)
    requires IsEnumeration(sessions, order) && key in sessions
    ensures exists i :: 0 <= i < |order| && ExpertLines(sessions, order)[i] == ExpertLine(sessions[key])
    ensures StartsWith(ExpertLine(sessions[key]), "  [" + sessions[key].name + "]")
  {
    var i :| 0 <= i < |order| && order[i] == key;
    assert ExpertLines(sessions, order)[i] == ExpertLine(sessions[key]);
    var line := ExpertLine(sessions[key]);
    var head := "  [" + sessions[key].name + "]";
    assert line[..|head|] == head;
  }

  /** `ListExperts` lists as many sessions as the table holds, in the header. */
  lemma ListCountsSessions(sessions: map<string, Session>, order: seq<string>)
    requires IsEnumeration(sessions, order)
    ensures |order| == |sessions|
  {
    var keys := set i | 0 <= i < |order| :: order[i];
    assert keys == sessions.Keys;
    DistinctCount(order);
  }

  lemma {:induction false} DistinctCount(order: seq<string>)
    requires forall i, j :: 0 <= i < j < |order| ==> order[i] != order[j]
    ensures |set i | 0 <= i < |order| :: order[i]| == |order|
  {
    if |order| > 0 {
      var last := order[|order| - 1];
      var init := order[..|order| - 1];
      DistinctCount(init);
      var all := set i | 0 <= i < |order| :: order[i];
      var front := set i | 0 <= i < |init| :: init[i];
      assert all == front + {last};
      assert last !in front;
    }
  }

  lemma HeadLines(first: string, second: string)
    ensures Lines([first, second] + []) == "" + first + NewLine + second + NewLine
  {
    assert [first, second] + [] == [first] + [second];
    LinesCons(first, [second]);
    LinesCons(second, []);
  }

  /** One more session in the enumeration adds its line to the listing. */
  lemma ListingStep(head: seq<string>, sessions: map<string, Session>, order: seq<string>, i: nat)
    requires IsEnumeration(sessions, order) && i < |order|
    ensures Lines(head + ExpertLines(sessions, order[..i + 1]))
            == Lines(head + ExpertLines(sessions, order[..i])) + ExpertLine(sessions[order[i]]) + NewLine
  {
    var line := ExpertLine(sessions[order[i]]);
    assert ExpertLines(sessions, order[..i + 1]) == ExpertLines(sessions, order[..i]) + [line];
    assert head + ExpertLines(sessions, order[..i + 1]) == (head + ExpertLines(sessions, order[..i])) + [line];
    LinesAppend(head + ExpertLines(sessions, order[..i]), [line]);
    assert Lines([line]) == line + NewLine + Lines([]);
  }

  /** `ConsultExpertAsync(name, question, role)` on the table `sessions`:
      without a usable session nothing changes and the role is asked for;
      otherwise the expert is asked once, with its history, the question and
      its role, and its session alone is stored again, under the case-folded
      name, with the history `SettleIntended` leaves. */
  function Consulted(sessions: map<string, Session>, expertName: string, question: string, role: Option<string>,
                     service: ExpertService): (out: (map<string, Session>, string))
    ensures Prepared(sessions, expertName, role).None? ==> out == (sessions, NeedsRoleMessage(expertName))
    ensures Prepared(sessions, expertName, role).Some? ==>
              out.0.Keys == sessions.Keys + {Fold(expertName)}
              && (forall key :: key in sessions && key != Fold(expertName) ==> out.0[key] == sessions[key])
    ensures Prepared(sessions, expertName, role).Some? ==>
              var s := Prepared(sessions, expertName, role).value;
              var reply := service(GeminiClient.Request(s.history + [UserText(question)], None, Some(s.role)));
              out.0[Fold(expertName)] == s.(history := SettleIntended(expertName, Fold(expertName) !in sessions, s.role, s.history, question, reply).0)
              && out.1 == SettleIntended(expertName, Fold(expertName) !in sessions, s.role, s.history, question, reply).1
  {
    match Prepared(sessions, expertName, role)
    case None => (sessions, NeedsRoleMessage(expertName))
    case Some(s) =>
      var reply := service(GeminiClient.Request(s.history + [UserText(question)], None, Some(s.role)));
      var (h, text) := SettleIntended(expertName, Fold(expertName) !in sessions, s.role, s.history, question, reply);
      (sessions[Fold(expertName) := s.(history := h)], text)
  }

  // ---------------------------------------------------------------- dismissing

  const NoNameMessage: string := "[System]: 請指定要結束的專家名稱。"

  function DismissedMessage(name: string, turns: nat): string {
    "已結束專家 " + name + " 的 Session（共進行了 " + NatToString(turns) + " 輪對話）。"
  }

  function NotFoundMessage(name: string): string {
    "[System]: 找不到名為 " + name + " 的專家。"
  }

  /** `DismissExpert(name)` on the table `sessions`: an empty name and an
      unknown name change nothing; a known name removes exactly its session
      and reports the turns it had. */
  function Dismissed(sessions: map<string, Session>, expertName: string): (out: (map<string, Session>, string))
    ensures expertName == "" ==> out == (sessions, NoNameMessage)
    ensures expertName != "" && Fold(expertName) in sessions ==>
              out.0 == sessions - {Fold(expertName)}
              && out.1 == DismissedMessage(expertName, |sessions[Fold(expertName)].history| / 2)
    ensures expertName != "" && Fold(expertName) !in sessions ==> out == (sessions, NotFoundMessage(expertName))
  {
    if expertName == "" then (sessions, NoNameMessage)
    else if Fold(expertName) in sessions then
      (sessions - {Fold(expertName)}, DismissedMessage(expertName, |sessions[Fold(expertName)].history| / 2))
    else (sessions, NotFoundMessage(expertName))
  }

  // ---------------------------------------------------------------- the tool call

  /** The arguments of `consult_expert` as `TryHandleToolCallAsync` reads
      them, in order: `expert_name` (default `default`), `question` (default
      the empty text) and `role` (default null); the first present null
      value throws. */
  function ConsultArgs(args: Args): (r: Result<(string, string, Option<string>), string>)
    ensures r.Err? <==> ("expert_name" in args && args["expert_name"].JNull?)
                        || ("question" in args && args["question"].JNull?)
                        || ("role" in args && args["role"].JNull?)
    ensures r.Ok? && "expert_name" !in args ==> r.value.0 == "default"
    ensures r.Ok? && "question" !in args ==> r.value.1 == ""
    ensures r.Ok? ==> (r.value.2.None? <==> "role" !in args)
    ensures r.Ok? ==> r.value.0 == Optional(args, "expert_name", "default").value
                      && r.value.1 == Optional(args, "question", "").value
                      && ("role" in args ==> r.value.2 == Some(ToText(args["role"]).value))
  {
    var expertName := Optional(args, "expert_name", "default");
    var question := Optional(args, "question", "");
    if expertName.Err? then Err(expertName.error)
    else if question.Err? then Err(question.error)
    else if "role" !in args then Ok((expertName.value, question.value, None))
    else if args["role"].JNull? then Err(NullReferenceMessage)
    else Ok((expertName.value, question.value, Some(ToText(args["role"]).value)))
  }

  /** The argument of `dismiss_expert`: `expert_name`, the empty name when
      it is missing; a null value throws. */
  function DismissArg(args: Args): (r: Result<string, string>)
    ensures r.Err? <==> "expert_name" in args && args["expert_name"].JNull?
    ensures "expert_name" !in args ==> r == Ok("")
    ensures "expert_name" in args && args["expert_name"].JStr? ==> r == Ok(args["expert_name"].s)
  {
    Optional(args, "expert_name", "")
  }

  // ---------------------------------------------------------------- the module

  class MultiAgentModule {
    /** `_sessions`, keyed by the case-folded expert name. */
    var sessions: map<string, Session>

    constructor()
      ensures sessions == map[]
    {
      sessions := map[];
    }

    /** `ConsultExpertAsync(name, question, role)`: the service is asked once,
        with the session's history plus the question and its role as the
        system instruction. A session created on the way stays registered
        whatever the reply; a consult without a usable answer takes its
        whole exchange back (the intended rollback, see `SettleIntended`). */
    method ConsultExpert(expertName: string, question: string, role: Option<string>, service: ExpertService)
      returns (r: string)
      modifies this
      ensures (sessions, r) == Consulted(old(sessions), expertName, question, role, service)
    {
      var key := Fold(expertName);
      var session: Session;
      var isNew := false;
      if key in sessions {
        session := sessions[key];
        if role.Some? && role.value != "" {
          session := session.(role := role.value);
          sessions := sessions[key := session];
        }
      } else {
        if role.None? || role.value == "" {
          assert Prepared(sessions, expertName, role).None?;
          assert (sessions, NeedsRoleMessage(expertName)) == Consulted(old(sessions), expertName, question, role, service);
          return NeedsRoleMessage(expertName);
        }
        session := Session(expertName, role.value, []);
        sessions := sessions[key := session];
        isNew := true;
      }
      var before := session.history;
      session := session.(history := before + [UserText(question)]);
      sessions := sessions[key := session];
      var reply := service(GeminiClient.Request(session.history, None, Some(session.role)));
      var history, text := SettleReply(expertName, isNew, session.role, before, question, reply);
      sessions := sessions[key := session.(history := history)];
      r := text;
      assert Prepared(old(sessions), expertName, role) == Some(session.(history := before));
      assert isNew == (key !in old(sessions));
      assert sessions == old(sessions)[key := session.(history := history)];
      assert (sessions, r) == Consulted(old(sessions), expertName, question, role, service);
    }

    /** The reply's handling: the question and the answer join the history;
        a failure or a reply without text takes the question back, and the
        reply's content with it when it had been added. */
    static method SettleReply(name: string, isNew: bool, role: string, before: seq<Turn>, question: string, reply: Reply)
      returns (history: seq<Turn>, text: string)
      ensures (history, text) == SettleIntended(name, isNew, role, before, question, reply)
    {
      history, text := before + [UserText(question)], "";
      assert history[..|history| - 1] == before;
      match reply {
        case Failure(message) =>
          history := history[..|history| - 1];
          text := FailureMessage(name, message);
        case NoCandidates =>
          history := history[..|history| - 1];
          text := NoResponseMessage(name);
        case Answer(content, listed) =>
          history := history + [content];
          assert history[..|history| - 2] == before;
          if !listed {
            history := history[..|history| - 2];
            text := NoResponseMessage(name);
          } else if FirstBroken(content.parts).Some? {
            history := history[..|history| - 2];
            text := FailureMessage(name, FirstBroken(content.parts).value);
          } else if |Texts(content.parts)| == 0 {
            history := history[..|history| - 2];
            text := NoResponseMessage(name);
          } else {
            text := AnswerText(name, isNew, role, |history| / 2, Texts(content.parts));
          }
      }
    }

    /** `ListExperts`, enumerating the table in `order`. */
    method ListExperts(order: seq<string>) returns (r: string)
      requires IsEnumeration(sessions, order)
      ensures r == ListText(sessions, order)
    {
      var table := sessions;
      if |table| == 0 {
        return NoSessionsMessage;
      }
      var head := [ListHeader(|table|), ""];
      var sb := new StringBuilder();
      sb.AppendLine(head[0]);
      sb.AppendLine(head[1]);
      HeadLines(head[0], head[1]);
      assert order[..0] == [];
      for i := 0 to |order|
        invariant sb.text == Lines(head + ExpertLines(table, order[..i]))
      {
        ListingStep(head, table, order, i);
        sb.AppendLine(ExpertLine(table[order[i]]));
      }
      assert order[..|order|] == order;
      r := TrimEnd(sb.text);
    }

    /** `DismissExpert(name)`: removes exactly the named session; the others
        are untouched. */
    method DismissExpert(expertName: string) returns (r: string)
      modifies this
      ensures (sessions, r) == Dismissed(old(sessions), expertName)
    {
      if expertName == "" {
        return NoNameMessage;
      }
      var key := Fold(expertName);
      if key in sessions {
        var turns := |sessions[key].history| / 2;
        sessions := sessions - {key};
        return DismissedMessage(expertName, turns);
      }
      r := NotFoundMessage(expertName);
    }

    /** `TryHandleToolCallAsync(name, args)`: `expert_name` defaults to
        `default` (to the empty name when dismissing), `question` to the empty
        text and `role` to null; a present null argument throws. */
    method TryHandle(name: string, args: Args, service: ExpertService, order: seq<string>) returns (r: Outcome)
      requires IsEnumeration(sessions, order)
      modifies this
      ensures name != "consult_expert" && name != "list_experts" && name != "dismiss_expert" ==>
                r == NotHandled && sessions == old(sessions)
      ensures name == "list_experts" ==> sessions == old(sessions) && r == Handled(ListText(old(sessions), order))
      ensures name == "consult_expert" && ConsultArgs(args).Err? ==>
                r == Threw(ConsultArgs(args).error) && sessions == old(sessions)
      ensures name == "consult_expert" && ConsultArgs(args).Ok? ==>
                var (expertName, question, role) := ConsultArgs(args).value;
                sessions == Consulted(old(sessions), expertName, question, role, service).0
                && r == Handled(Consulted(old(sessions), expertName, question, role, service).1)
      ensures name == "dismiss_expert" && DismissArg(args).Err? ==>
                r == Threw(DismissArg(args).error) && sessions == old(sessions)
      ensures name == "dismiss_expert" && DismissArg(args).Ok? ==>
                sessions == Dismissed(old(sessions), DismissArg(args).value).0
                && r == Handled(Dismissed(old(sessions), DismissArg(args).value).1)
    {
      match name {
        case "consult_expert" =>
          match ConsultArgs(args) {
            case Err(message) =>
              r := Threw(message);
            case Ok((expertName, question, role)) =>
              var text := ConsultExpert(expertName, question, role, service);
              r := Handled(text);
          }
        case "list_experts" =>
          var text := ListExperts(order);
          r := Handled(text);
        case "dismiss_expert" =>
          match DismissArg(args) {
            case Err(message) =>
              r := Threw(message);
            case Ok(expertName) =>
              var text := DismissExpert(expertName);
              r := Handled(text);
          }
        case _ =>
          r := NotHandled;
      }
    }
  }

  const ConsultDescription: string :=
    "諮詢一個特定領域的 AI 專家，支援多輪對話。使用相同的 expert_name 可延續先前的對話。\n"
    + "首次建立專家時必須提供 role，之後追問只需 expert_name 和 question。\n"
    + "目前活躍的專家列表會在回應中附帶提示。"

  function StringProperty(description: string): Json {
    JObj([("type", JStr("string")), ("description", JStr(description))])
  }

  function ConsultDeclaration(): (d: Json)
    ensures GeminiClient.DeclaredName(d) == Some("consult_expert")
  {
    GeminiClient.CreateFunctionDeclaration(
      "consult_expert", ConsultDescription,
      JObj([("type", JStr("object")),
            ("properties", JObj([
              ("expert_name", StringProperty("專家的識別名稱 (例如 'security_expert', 'arch_expert')，用於多輪對話時識別同一位專家")),
              ("question", StringProperty("要問專家的具體問題或任務內容")),
              ("role", StringProperty("專家的角色設定與專業背景 (System Instruction)。首次建立專家時必填，後續追問可省略"))])),
            ("required", JArr([JStr("expert_name"), JStr("question")]))]))
  }

  function ListDeclaration(): (d: Json)
    ensures GeminiClient.DeclaredName(d) == Some("list_experts")
  {
    GeminiClient.CreateFunctionDeclaration(
      "list_experts", "列出目前所有活躍中的專家 Session，包含名稱、角色設定、對話輪數。",
      JObj([("type", JStr("object")), ("properties", JObj([]))]))
  }

  function DismissDeclaration(): (d: Json)
    ensures GeminiClient.DeclaredName(d) == Some("dismiss_expert")
  {
    GeminiClient.CreateFunctionDeclaration(
      "dismiss_expert", "結束某位專家的 Session，釋放其對話歷史。",
      JObj([("type", JStr("object")),
            ("properties", JObj([("expert_name", StringProperty("要結束的專家識別名稱"))])),
            ("required", JArr([JStr("expert_name")]))]))
  }

  /** `GetToolDeclarations`: `consult_expert`, `list_experts`, `dismiss_expert`. */
  function Declarations(): (ds: seq<Json>)
    ensures |ds| == 3
    ensures GeminiClient.DeclaredName(ds[0]) == Some("consult_expert")
    ensures GeminiClient.DeclaredName(ds[1]) == Some("list_experts")
    ensures GeminiClient.DeclaredName(ds[2]) == Some("dismiss_expert")
  {
    [ConsultDeclaration(), ListDeclaration(), DismissDeclaration()]
  }
}
