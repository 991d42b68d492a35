/** The `POST /api/gemini` route: prompt construction and the choice of
    reply for every outcome of the upstream call. */
module Relay {
  import opened Wrappers
  import Text

  /** One entry of `conversationHistory`. */
  datatype Turn = Turn(role: string, content: string)

  /** `conversationHistory`: absent (defaulting to `[]`), an array, or some
      other JSON value, which `Array.isArray` rejects. */
  datatype History = NotAnArray | Turns(turns: seq<Turn>)

  /** What `request.json()` produces: a body that is not JSON (the call
      throws), or the two fields the route reads; `None` is an absent or
      null `message`. */
  datatype RequestBody = Unparseable | Body(message: Option<string>, history: History)

  /** What `resp.json()` produces: a body that is not JSON (it throws), or
      the value of `data?.candidates?.[0]?.content?.parts?.[0]?.text`. */
  datatype UpstreamBody = BadJson | Data(candidateText: Option<string>)

  /** The upstream call: an HTTP response, or an exception (the 8-second
      abort throws an `Error` named `AbortError`). */
  datatype Upstream =
    | Responded(ok: bool, body: UpstreamBody)
    | Threw(isError: bool, name: string)

  datatype ResponseBody = ErrorBody(error: string) | ReplyBody(response: string)
  datatype Response = Response(status: int, body: ResponseBody)

  const DefaultInstructions: string :=
    "You are a friendly AI robot assistant named OneRobo who looks after little children who were left at home by their working parents. Keep responses under 100 words."
  const MessageRequired: string := "Message is required"
  const EchoReply: string := "I heard you. Let's play a game or chat!"
  const TroubleReply: string := "Sorry, I'm having trouble right now."
  const NotUnderstoodReply: string := "I'm sorry, I didn't understand that."
  const TooLongReply: string := "Sorry, that took too long. Please try again!"
  const CannotProcessReply: string := "Sorry, I couldn't process that."
  const HistoryHeader: string := "\n\nCONVERSATION HISTORY:\n"
  const Closing: string := "\"\n\nONEROBO, respond as yourself in 1-3 sentences."

  /** A JavaScript string is truthy when it is present and not empty. */
  predicate Truthy(s: Option<string>) { s.Some? && s.value != "" }

  /** The instructions: the trimmed file contents, or the default text when
      the file cannot be read (`None`). */
  function Instructions(file: Option<string>): string {
    match file
    case None => DefaultInstructions
    case Some(contents) => Text.Trim(contents)
  }

  /** The instructions are the default text when the file cannot be read;
      otherwise they are the file's contents cut at both ends to their
      first and last characters that are not `\s`. */
  lemma InstructionsFromFile(file: Option<string>)
    ensures file.None? ==> Instructions(file) == DefaultInstructions
    ensures file.Some? ==> var r := Instructions(file);
      && (r == [] || (!Text.IsJsSpace(r[0]) && !Text.IsJsSpace(r[|r| - 1])))
      && exists i, j :: 0 <= i <= j <= |file.value| && r == file.value[i..j]
           && (forall k :: 0 <= k < i ==> Text.IsJsSpace(file.value[k]))
           && (forall k :: j <= k < |file.value| ==> Text.IsJsSpace(file.value[k]))
  {
    if file.Some? {
      var i, j := Text.TrimIsSlice(file.value);
    }
  }

  function RoleLabel(role: string): (tag: string)
    ensures tag == "CHILD" <==> role == "user"
    ensures tag == "CHILD" || tag == "ONEROBO"
  {
    if role == "user" then "CHILD" else "ONEROBO"
  }

  /** The line `ROLE: content` of one turn. */
  function TurnLine(t: Turn): string {
    RoleLabel(t.role) + ": " + t.content + "\n"
  }

  /** The lines of the turns, one per turn, in order. */
  function TurnLines(ts: seq<Turn>): (ls: seq<string>)
    ensures |ls| == |ts| && forall i :: 0 <= i < |ts| ==> ls[i] == TurnLine(ts[i])
  {
    seq(|ts|, i requires 0 <= i < |ts| => TurnLine(ts[i]))
  }

  /** Strings joined end to end. */
  function Concat(ls: seq<string>): string {
    if |ls| == 0 then "" else Concat(ls[..|ls| - 1]) + ls[|ls| - 1]
  }

  /** The history rendered line by line. */
  function HistoryLines(ts: seq<Turn>): string {
    Concat(TurnLines(ts))
  }

  /** The history block; empty unless the history is a non-empty array. */
  function HistoryBlock(h: History): string {
    if h.Turns? && |h.turns| > 0 then HistoryHeader + HistoryLines(h.turns) else ""
  }

  function MessageLine(message: string): string {
    "\nCHILD: \"" + message + Closing
  }

  /** The prompt sent upstream. */
  function Prompt(instructions: string, h: History, message: string): string {
    instructions + HistoryBlock(h) + MessageLine(message)
  }

  lemma {:induction false} ConcatAppend(a: seq<string>, b: seq<string>)
    decreases |b|
    ensures Concat(a + b) == Concat(a) + Concat(b)
  {
    if |b| == 0 {
      assert a + b == a;
    } else {
      var ab := a + b;
      assert ab[..|ab| - 1] == a + b[..|b| - 1];
      ConcatAppend(a, b[..|b| - 1]);
    }
  }

  /** Rendering a history turn by turn: the lines of two runs of turns are
      the lines of the first followed by those of the second. */
  lemma HistoryLinesAppend(a: seq<Turn>, b: seq<Turn>)
    ensures HistoryLines(a + b) == HistoryLines(a) + HistoryLines(b)
  {
    assert TurnLines(a + b) == TurnLines(a) + TurnLines(b);
    ConcatAppend(TurnLines(a), TurnLines(b));
  }

  /** One more turn adds its line at the end. */
  lemma HistoryLinesSnoc(ts: seq<Turn>, t: Turn)
    ensures HistoryLines(ts + [t]) == HistoryLines(ts) + TurnLine(t)
  {
    HistoryLinesAppend(ts, [t]);
    var one := TurnLines([t]);
    assert one == [TurnLine(t)];
    assert one[..0] == [];
    assert HistoryLines([t]) == Concat(one) == Concat(one[..0]) + one[0];
  }

  /** Each turn is one line: the rendering of the turns is the
      concatenation of their lines, in the order of the history. */
  lemma {:induction false} HistoryLinesAreTurnLines(ts: seq<Turn>, k: nat)
    requires k < |ts|
    ensures exists pre, post ::
      HistoryLines(ts) == pre + TurnLine(ts[k]) + post &&
      pre == HistoryLines(ts[..k]) && post == HistoryLines(ts[k + 1..])
  {
    assert ts == ts[..k] + [ts[k]] + ts[k + 1..];
    HistoryLinesAppend(ts[..k] + [ts[k]], ts[k + 1..]);
    HistoryLinesSnoc(ts[..k], ts[k]);
    assert HistoryLines(ts) == HistoryLines(ts[..k]) + TurnLine(ts[k]) + HistoryLines(ts[k + 1..]);
  }

  /** Where the pieces of `a + b + c` sit. */
  lemma ThreeParts(a: string, b: string, c: string)
    ensures Text.StartsWith(a + b + c, a)
    ensures |c| <= |a + b + c| && (a + b + c)[|a + b + c| - |c|..] == c
    ensures forall w :: Text.StartsWith(b, w) ==> Text.OccursAt(a + b + c, w, |a|)
  {
    var s := a + b + c;
    assert s[..|a|] == a;
    assert s[|s| - |c|..] == c;
    forall w | Text.StartsWith(b, w) ensures Text.OccursAt(s, w, |a|) {
      assert s[|a|..|a| + |w|] == b[..|w|];
    }
  }

  /** The prompt starts with the instructions and ends with the quoted
      message and the closing instruction; the header appears only for a
      non-empty history array. */
  lemma PromptShape(instructions: string, h: History, message: string)
    ensures Text.StartsWith(Prompt(instructions, h, message), instructions)
    ensures var p := Prompt(instructions, h, message);
      var tail := MessageLine(message);
      |tail| <= |p| && p[|p| - |tail|..] == tail
    ensures !(h.Turns? && |h.turns| > 0) ==> Prompt(instructions, h, message) == instructions + MessageLine(message)
    ensures h.Turns? && |h.turns| > 0 ==>
      Text.OccursAt(Prompt(instructions, h, message), HistoryHeader, |instructions|)
  {
    var block := HistoryBlock(h);
    ThreeParts(instructions, block, MessageLine(message));
    if h.Turns? && |h.turns| > 0 {
      ThreeParts(HistoryHeader, HistoryLines(h.turns), "");
      assert block[..|HistoryHeader|] == HistoryHeader;
    }
  }

  lemma PrefixLinesStep(context: string, ts: seq<Turn>, i: nat)
    requires i < |ts|
    ensures context + HistoryLines(ts[..i + 1]) == context + HistoryLines(ts[..i]) + TurnLine(ts[i])
  {
    assert ts[..i + 1] == ts[..i] + [ts[i]];
    HistoryLinesSnoc(ts[..i], ts[i]);
  }

  /** The `for (const msg of conversationHistory)` loop: one line per turn
      appended to `context`. */
  method AppendTurns(context: string, ts: seq<Turn>) returns (p: string)
    ensures p == context + HistoryLines(ts)
  {
    p := context;
    var i := 0;
    while i < |ts|
      invariant 0 <= i <= |ts|
      invariant p == context + HistoryLines(ts[..i])
    {
      PrefixLinesStep(context, ts, i);
      p := p + TurnLine(ts[i]);
      i := i + 1;
    }
    assert ts[..i] == ts;
  }

  /** The prompt built by appending to a string, as the route does. */
  method BuildPrompt(instructions: string, h: History, message: string) returns (p: string)
    ensures p == Prompt(instructions, h, message)
  {
    p := instructions;
    if h.Turns? && |h.turns| > 0 {
      p := AppendTurns(p + HistoryHeader, h.turns);
    }
    p := p + MessageLine(message);
  }

  /** The reply text for an upstream outcome. */
  function UpstreamReply(u: Upstream): (text: string)
    ensures text != ""
    ensures u.Threw? ==> (text == TooLongReply <==> u.isError && u.name == "AbortError")
    ensures u.Threw? && !(u.isError && u.name == "AbortError") ==> text == CannotProcessReply
    ensures u.Responded? && u.body.BadJson? ==> text == CannotProcessReply
    ensures u.Responded? && u.body.Data? && !u.ok ==> text == TroubleReply
    ensures u.Responded? && u.body.Data? && u.ok ==>
      text == (if Truthy(u.body.candidateText) then u.body.candidateText.value else NotUnderstoodReply)
  {
    match u
    case Threw(isError, name) =>
      if isError && name == "AbortError" then TooLongReply else CannotProcessReply
    case Responded(ok, body) =>
      match body
      case BadJson => CannotProcessReply
      case Data(candidate) =>
        if !ok then TroubleReply
        else if Truthy(candidate) then candidate.value
        else NotUnderstoodReply
  }

  /** `POST(request)`. `hasKey` says whether `GEMINI_API_KEY` is set and
      not empty, `file` is the instructions file (`None` when it cannot be
      read) and `upstream` what the call to the model returns. `sent` is
      the prompt handed to the upstream call, if it is made. */
  method Post(body: RequestBody, hasKey: bool, file: Option<string>, upstream: Upstream)
    returns (resp: Response, sent: Option<string>)
    ensures body.Unparseable? ==> resp == Response(200, ReplyBody(CannotProcessReply)) && sent == None
    ensures resp.status == 400 <==> body.Body? && !Truthy(body.message)
    ensures resp.status == 400 ==> resp.body == ErrorBody(MessageRequired) && sent == None
    ensures resp.status != 400 ==> resp.status == 200 && resp.body.ReplyBody? && resp.body.response != ""
    ensures body.Body? && Truthy(body.message) && !hasKey ==>
      resp == Response(200, ReplyBody(EchoReply)) && sent == None
    ensures body.Body? && Truthy(body.message) && hasKey ==>
      && sent == Some(Prompt(Instructions(file), body.history, body.message.value))
      && resp == Response(200, ReplyBody(UpstreamReply(upstream)))
  {
    sent := None;
    if body.Unparseable? {
      return Response(200, ReplyBody(CannotProcessReply)), sent;
    }
    if !Truthy(body.message) {
      return Response(400, ErrorBody(MessageRequired)), sent;
    }
    var instructions := DefaultInstructions;
    if file.Some? {
      instructions := Text.Trim(file.value);
    }
    var context := BuildPrompt(instructions, body.history, body.message.value);
    if !hasKey {
      return Response(200, ReplyBody(EchoReply)), sent;
    }
    sent := Some(context);
    resp := Response(200, ReplyBody(UpstreamReply(upstream)));
  }
}
