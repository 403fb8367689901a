/** The conversation transcript: the turns the agent keeps in its chat
    history and sends to the generative service on every round. */
module Transcript {
  import opened Json

  datatype Role = User | Model | Function

  /** One part of a turn, as the service's content schema has them. */
  datatype Part =
    | TextPart(text: string)
    | CallPart(name: string, args: Args)
    | ResponsePart(name: string, content: string)
    | InlinePart(mimeType: string, data: string)
    | OtherPart
      /** An entry of a reply's parts list that cannot be read, and reading
          it throws `message`: it is not an object, or its text is null, or,
          for the agent, which also reads calls, its call is null. The
          expert service reads only texts, so for it a part whose call is
          null is an `OtherPart`. */
    | BrokenPart(message: string)

  datatype Turn = Turn(role: Role, parts: seq<Part>)

  /** A function call requested by the model. */
  datatype Call = Call(name: string, args: Args)

  /** The `functionCall` parts of a model turn, in the order they appear. */
  function Calls(parts: seq<Part>): (calls: seq<Call>)
    ensures |calls| <= |parts|
  {
    if |parts| == 0 then []
    else if parts[0].CallPart? then [Call(parts[0].name, parts[0].args)] + Calls(parts[1..])
    else Calls(parts[1..])
  }

  /** A reply has no calls exactly when none of its parts is a call. */
  lemma {:induction false} NoCalls(parts: seq<Part>)
    ensures |Calls(parts)| == 0 <==> forall i :: 0 <= i < |parts| ==> !parts[i].CallPart?
    decreases |parts|
  {
    if |parts| > 0 {
      NoCalls(parts[1..]);
      assert forall i :: 1 <= i < |parts| ==> parts[i] == parts[1..][i - 1];
    }
  }

  /** The calls of `a + b` are those of `a` followed by those of `b`. */
  lemma {:induction false} CallsAppend(a: seq<Part>, b: seq<Part>)
    ensures Calls(a + b) == Calls(a) + Calls(b)
  {
    if |a| > 0 {
      assert (a + b)[1..] == a[1..] + b;
      CallsAppend(a[1..], b);
    } else {
      assert a + b == b;
    }
  }

  function UserText(text: string): Turn {
    Turn(User, [TextPart(text)])
  }

  /** What one call to the generative service yields once its reply has been
      read as far as the first candidate's content. */
  datatype Reply =
      /** The call threw (an HTTP error, a reply that is not JSON), or reading
          the reply up to the content threw (a missing key, a null entry). */
    | Failure(message: string)
      /** The `candidates` key was there, but its value was not a list or
          the list was empty. A missing key throws and is a `Failure`. */
    | NoCandidates
      /** The content of the first candidate; `listed` is false when it has no
          parts list. */
    | Answer(content: Turn, listed: bool)
}
