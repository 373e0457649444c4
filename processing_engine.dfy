/**
 * The single-command protocol: the model answers a question either with
 * `OUT: <answer>` or with one HTTP command `CMD: METHOD PATH; REQ_BODY
 * {..}; HEADER {..}`, which the engine sends, reporting the server's data
 * back as `CMD_RESP: <data>` and returning the model's next reply.
 *
 * The language model is the chat's oracle; `json.loads`, `json.dumps` and
 * the HTTP request are function-valued fields of the engine. The recursion
 * of `ask` has no bound in the source; here it is bounded by `fuel`.
 */
module SingleCommand {
  import opened Wrappers
  import opened PyText
  import opened PyValue
  import opened Conversation

  /** `json.loads`: the decoded value, or the exception it raises. */
  type Loads = string -> Result<Json, PyError>

  /** What `requests.request` returns: the body text and what `.json()`
      makes of it. */
  datatype Response = Response(text: string, json: Result<Json, PyError>)

  /** `requests.request(method, url, data=data, headers=headers)`. */
  type Http = (string, string, Option<string>, Json) -> Result<Response, PyError>

  /** How a question ends: with the text returned, with an exception raised
      by the command processing, or, in the model only, out of fuel. */
  datatype Answer = Answered(text: string) | Raised(error: PyError) | OutOfFuel

  // -----------------------------------------------------------------------
  // Replies.

  /** `process_out`: the first `OUT: ` removed. */
  function ProcessOut(text: string): string
  {
    ReplaceFirst(text, "OUT: ", "")
  }

  /** On a reply that starts with `OUT: `, only that prefix is removed. */
  lemma ProcessOutStripsPrefix(text: string)
    requires StartsWith(text, "OUT: ")
    ensures ProcessOut(text) == text[5..]
  {
    ReplaceFirstOfPrefix(text, "OUT: ");
  }

  /** `process_out` undoes writing an answer after `OUT: `. */
  lemma ProcessOutInverse(answer: string)
    ensures ProcessOut("OUT: " + answer) == answer
  {
    var text := "OUT: " + answer;
    assert text[..5] == "OUT: ";
    ProcessOutStripsPrefix(text);
    assert text[5..] == answer;
  }

  const ReaskPrefix: string := "Your answer does not start with either OUT: or CMD:. Answer again. The question is '"

  /** The question `ask` asks again with when a reply has neither prefix. */
  function Reask(question: string): string
  {
    ReaskPrefix + question + "'"
  }

  /** The question after `k` re-asks: the wrappings nest. */
  function Nested(question: string, k: nat): string
  {
    if k == 0 then question else Reask(Nested(question, k - 1))
  }

  // -----------------------------------------------------------------------
  // The command grammar of `process_cmd`.

  const ListIndexError: PyError := IndexError("list index out of range")

  /** A parsed command; an absent body or header is `None`. */
  datatype Command = Command(httpMethod: string, path: string, body: Json, headers: Json)

  /** The index of the first part that contains `marker`. */
  function FirstContaining(parts: seq<string>, marker: string): (r: Option<nat>)
    ensures r.Some? ==> r.value < |parts| && Contains(parts[r.value], marker)
    ensures r.Some? ==> forall k :: 0 <= k < r.value ==> !Contains(parts[k], marker)
    ensures r.None? ==> forall k :: 0 <= k < |parts| ==> !Contains(parts[k], marker)
    decreases |parts|
  {
    if parts == [] then None
    else if Contains(parts[0], marker) then Some(0)
    else
      var r := FirstContaining(parts[1..], marker);
      if r.Some? then
        assert forall k :: 1 <= k < |parts| ==> parts[k] == parts[1..][k - 1];
        Some(r.value + 1)
      else
        assert forall k :: 1 <= k < |parts| ==> parts[k] == parts[1..][k - 1];
        None
  }

  /** The body loop: the first part containing `REQ_BODY`, split on
      `REQ_BODY `; element 1 decoded, and both failures raised. */
  function BodyOf(parts: seq<string>, loads: Loads): Result<Json, PyError>
  {
    match FirstContaining(parts, "REQ_BODY")
    case None => Success(JNull)
    case Some(k) =>
      match SplitPiece(parts[k], "REQ_BODY ", 1)
      case None => Failure(ListIndexError)
      case Some(bodyText) => loads(bodyText)
  }

  /** The header loop: the first part containing `HEADER`, split on
      `HEADER `; a missing element 1 raises, since the split is outside the
      `try`, while a decoding failure leaves the headers `None`. */
  function HeadersOf(parts: seq<string>, loads: Loads): Result<Json, PyError>
  {
    match FirstContaining(parts, "HEADER")
    case None => Success(JNull)
    case Some(k) =>
      match SplitPiece(parts[k], "HEADER ", 1)
      case None => Failure(ListIndexError)
      case Some(headerText) =>
        var decoded := loads(headerText);
        Success(if decoded.Success? then decoded.value else JNull)
  }

  /** What `process_cmd` makes of a reply before sending, or the exception
      it raises, in the order Python evaluates them. */
  function ParseCommand(text: string, loads: Loads): Result<Command, PyError>
  {
    var command := ReplaceFirst(text, "CMD: ", "");
    var parts := Split(command, ";");
    var words := Split(parts[0], " ");
    if |words| < 2 then Failure(ListIndexError)
    else
      var body :- if Contains(command, "REQ_BODY") then BodyOf(parts, loads) else Success(JNull);
      var headers :- if Contains(command, "HEADER") then HeadersOf(parts, loads) else Success(JNull);
      Success(Command(words[0], words[1], body, headers))
  }

  /** A first segment without a second space-separated token is an index
      error, whatever follows it. */
  lemma MissingPathRaises(text: string, loads: Loads)
    requires |Split(Split(ReplaceFirst(text, "CMD: ", ""), ";")[0], " ")| < 2
    ensures ParseCommand(text, loads) == Failure(ListIndexError)
  {
  }

  /** A header that does not decode leaves the headers `None` and does not
      make the command fail. */
  lemma UndecodableHeaderIsNone(parts: seq<string>, loads: Loads, k: nat, headerText: string)
    requires FirstContaining(parts, "HEADER") == Some(k)
    requires SplitPiece(parts[k], "HEADER ", 1) == Some(headerText)
    requires loads(headerText).Failure?
    ensures HeadersOf(parts, loads) == Success(JNull)
  {
  }

  /** A body that does not decode makes the command fail with the decoder's
      exception. */
  lemma UndecodableBodyRaises(parts: seq<string>, loads: Loads, k: nat, bodyText: string)
    requires FirstContaining(parts, "REQ_BODY") == Some(k)
    requires SplitPiece(parts[k], "REQ_BODY ", 1) == Some(bodyText)
    requires loads(bodyText).Failure?
    ensures BodyOf(parts, loads) == Failure(loads(bodyText).error)
  {
  }

  /** Removing the first `CMD: ` of a text written with that prefix gives
      back what follows it. */
  lemma StripCommandPrefix(command: string)
    ensures ReplaceFirst("CMD: " + command, "CMD: ", "") == command
  {
    var text := "CMD: " + command;
    assert text[..5] == "CMD: ";
    ReplaceFirstOfPrefix(text, "CMD: ");
    assert text[5..] == command;
  }

  /** The command text for a method and a path. */
  function CommandText(httpMethod: string, path: string): string
  {
    "CMD: " + httpMethod + " " + path
  }

  /** Parsing undoes writing a command with no body and no header: a method
      and a path without spaces or semicolons come back, and the body and
      the headers are `None`. */
  lemma ParseCommandText(httpMethod: string, path: string, loads: Loads)
    requires ' ' !in httpMethod && ';' !in httpMethod && ' ' !in path && ';' !in path
    requires !Contains(httpMethod + " " + path, "REQ_BODY") && !Contains(httpMethod + " " + path, "HEADER")
    ensures ParseCommand(CommandText(httpMethod, path), loads) == Success(Command(httpMethod, path, JNull, JNull))
  {
    var command := httpMethod + " " + path;
    assert CommandText(httpMethod, path) == "CMD: " + command;
    StripCommandPrefix(command);
    assert ';' !in command;
    assert Join([command], ";") == command;
    SplitJoinChar([command], ';');
    assert Join([httpMethod, path], " ") == command;
    SplitJoinChar([httpMethod, path], ' ');
  }

  /** The command text for a method, a path and a body. */
  function CommandWithBodyText(httpMethod: string, path: string, bodyText: string): string
  {
    "CMD: " + httpMethod + " " + path + "; REQ_BODY " + bodyText
  }

  /** Parsing a command written with a body gives back the method and the
      path, and decodes the body text: the command fails exactly when that
      decoding does, and the headers are `None`. */
  lemma ParseCommandWithBodyText(httpMethod: string, path: string, bodyText: string, loads: Loads)
    requires ' ' !in httpMethod && ';' !in httpMethod && ' ' !in path && ';' !in path && ';' !in bodyText
    requires !Contains(httpMethod + " " + path, "REQ_BODY") && !Contains(bodyText, "REQ_BODY ")
    requires !Contains(httpMethod + " " + path + "; REQ_BODY " + bodyText, "HEADER")
    ensures loads(bodyText).Failure? ==>
      ParseCommand(CommandWithBodyText(httpMethod, path, bodyText), loads) == Failure(loads(bodyText).error)
    ensures loads(bodyText).Success? ==>
      ParseCommand(CommandWithBodyText(httpMethod, path, bodyText), loads)
        == Success(Command(httpMethod, path, loads(bodyText).value, JNull))
  {
    var head := httpMethod + " " + path;
    var bodyPart := " REQ_BODY " + bodyText;
    var command := head + ";" + bodyPart;
    var text := CommandWithBodyText(httpMethod, path, bodyText);
    assert command == httpMethod + " " + path + "; REQ_BODY " + bodyText;
    assert text == "CMD: " + command;
    StripCommandPrefix(command);
    BodyPartFacts(bodyText);
    TwoPartsSplit(head, bodyPart);
    assert Join([httpMethod, path], " ") == head;
    SplitJoinChar([httpMethod, path], ' ');
    ContainsInSuffix(head + ";", bodyPart, "REQ_BODY");
    BodyOfSecondPart(head, bodyPart, bodyText, loads);
    ParseCommandOfPieces(text, command, [head, bodyPart], httpMethod, path, loads);
  }

  /** A command whose first segment holds a method and a path, with a body
      and no header, carries the body `BodyOf` finds, or fails with its
      exception. */
  lemma ParseCommandOfPieces(text: string, command: string, parts: seq<string>, httpMethod: string, path: string, loads: Loads)
    requires ReplaceFirst(text, "CMD: ", "") == command && Split(command, ";") == parts
    requires Split(parts[0], " ") == [httpMethod, path]
    requires Contains(command, "REQ_BODY") && !Contains(command, "HEADER")
    ensures BodyOf(parts, loads).Failure? ==> ParseCommand(text, loads) == Failure(BodyOf(parts, loads).error)
    ensures BodyOf(parts, loads).Success? ==>
      ParseCommand(text, loads) == Success(Command(httpMethod, path, BodyOf(parts, loads).value, JNull))
  {
  }

  /** The body of a command whose second segment holds the marker is that
      segment's text after `REQ_BODY `, decoded. */
  lemma BodyOfSecondPart(head: string, bodyPart: string, bodyText: string, loads: Loads)
    requires !Contains(head, "REQ_BODY") && Contains(bodyPart, "REQ_BODY")
    requires SplitPiece(bodyPart, "REQ_BODY ", 1) == Some(bodyText)
    ensures BodyOf([head, bodyPart], loads) == loads(bodyText)
  {
    assert FirstContaining([head, bodyPart], "REQ_BODY") == Some(1);
  }

  /** The segment `" REQ_BODY " + bodyText` has no semicolon, contains the
      marker, and its element 1 on `REQ_BODY ` is the body text. */
  lemma BodyPartFacts(bodyText: string)
    requires ';' !in bodyText && !Contains(bodyText, "REQ_BODY ")
    ensures ';' !in " REQ_BODY " + bodyText
    ensures Contains(" REQ_BODY " + bodyText, "REQ_BODY")
    ensures SplitPiece(" REQ_BODY " + bodyText, "REQ_BODY ", 1) == Some(bodyText)
  {
    var bodyPart := " REQ_BODY " + bodyText;
    forall j | 0 <= j < |bodyPart| ensures bodyPart[j] != ';' {
      if j >= 10 { assert bodyPart[j] == bodyText[j - 10]; }
    }
    assert bodyPart[1..9] == "REQ_BODY";
    assert OccursAt(bodyPart, "REQ_BODY", 1);
    MarkerThenText("REQ_BODY ", bodyText);
    assert bodyPart == " " + "REQ_BODY " + bodyText;
  }

  /** Two segments without semicolons, joined by one, split back apart. */
  lemma TwoPartsSplit(head: string, tail: string)
    requires ';' !in head && ';' !in tail
    ensures Split(head + ";" + tail, ";") == [head, tail]
  {
    assert Join([head, tail], ";") == head + ";" + tail;
    SplitJoinChar([head, tail], ';');
  }

  /** A text that contains a marker still does behind any prefix. */
  lemma ContainsInSuffix(prefix: string, s: string, marker: string)
    requires Contains(s, marker)
    ensures Contains(prefix + s, marker)
  {
    var i := Find(s, marker, 0).value;
    assert (prefix + s)[|prefix| + i..|prefix| + i + |marker|] == s[i..i + |marker|];
    assert OccursAt(prefix + s, marker, |prefix| + i);
  }

  /** Splitting a space, a marker and a text without the marker on that
      marker gives the space and the text. */
  lemma MarkerThenText(marker: string, rest: string)
    requires |marker| > 0 && marker[0] != ' ' && !Contains(rest, marker)
    ensures Split(" " + marker + rest, marker) == [" ", rest]
  {
    var s := " " + marker + rest;
    assert !OccursAt(s, marker, 0) by { assert s[0] == ' '; }
    assert s[1..1 + |marker|] == marker;
    assert OccursAt(s, marker, 1);
    assert Find(s, marker, 0) == Some(1);
    assert s[..1] == " ";
    assert s[1 + |marker|..] == rest;
  }

  // -----------------------------------------------------------------------
  // Sending.

  /** `send_request` as `cmd_resp` prints it: a truthy body is sent as its
      JSON text, and the result is the JSON text of the response's decoded
      body, or the text of the exception raised on the way. */
  function SendRequest(http: Http, dumps: Json -> string, baseUrl: string, command: Command): string
  {
    var data := if Truthy(command.body) then Some(dumps(command.body)) else None;
    match http(command.httpMethod, baseUrl + command.path, data, command.headers)
    case Failure(e) => ErrorText(e)
    case Success(response) =>
      match response.json
      case Failure(e) => ErrorText(e)
      case Success(decoded) => dumps(decoded)
  }

  /** What `process_cmd` sends back as server data, or raises. */
  function ServerData(loads: Loads, http: Http, dumps: Json -> string, baseUrl: string, text: string): Result<string, PyError>
  {
    var command :- ParseCommand(text, loads);
    Success(SendRequest(http, dumps, baseUrl, command))
  }

  // -----------------------------------------------------------------------
  // The conversation.

  /** `process_cmd` followed by `cmd_resp`, over the transcript `messages`:
      `handle` turns the reply into the server data or raises. The reply to
      `CMD_RESP: ` goes through `process_out` unchecked. */
  function CmdRun(oracle: seq<Turn> -> string, handle: string -> Result<string, PyError>,
                  messages: seq<Turn>, text: string): (Answer, seq<Turn>)
  {
    match handle(text)
    case Failure(e) => (Raised(e), messages)
    case Success(data) =>
      var sent := "CMD_RESP: " + data;
      (Answered(ProcessOut(oracle(messages + [Turn(User, sent)]))), Exchange(oracle, messages, sent))
  }

  /** `ask(question)` over the transcript `messages`, with at most `fuel`
      questions sent: the outcome and the final transcript. */
  function AskRun(oracle: seq<Turn> -> string, handle: string -> Result<string, PyError>,
                  messages: seq<Turn>, question: string, fuel: nat): (Answer, seq<Turn>)
    decreases fuel
  {
    if fuel == 0 then (OutOfFuel, messages)
    else
      var prompt := "PROMPT: " + question;
      var reply := oracle(messages + [Turn(User, prompt)]);
      var after := Exchange(oracle, messages, prompt);
      if StartsWith(reply, "OUT: ") then (Answered(ProcessOut(reply)), after)
      else if StartsWith(reply, "CMD: ") then CmdRun(oracle, handle, after, reply)
      else AskRun(oracle, handle, after, Reask(question), fuel - 1)
  }

  /** An oracle that never starts a reply with `OUT: ` or `CMD: `. */
  ghost predicate NeverMarked(oracle: seq<Turn> -> string)
  {
    forall t: seq<Turn> :: !StartsWith(oracle(t), "OUT: ") && !StartsWith(oracle(t), "CMD: ")
  }

  /** With such an oracle no answer ever comes: every question is asked
      again, wrapped once more, until the fuel runs out; the `k`-th prompt
      sent carries the question wrapped `k` times. */
  lemma {:induction false} UnmarkedRepliesNeverAnswer(oracle: seq<Turn> -> string, handle: string -> Result<string, PyError>,
                                                      messages: seq<Turn>, question: string, fuel: nat)
    requires NeverMarked(oracle)
    ensures AskRun(oracle, handle, messages, question, fuel).0 == OutOfFuel
    ensures |AskRun(oracle, handle, messages, question, fuel).1| == |messages| + 2 * fuel
    ensures forall k :: 0 <= k < fuel ==>
      AskRun(oracle, handle, messages, question, fuel).1[|messages| + 2 * k] == Turn(User, "PROMPT: " + Nested(question, k))
    decreases fuel
  {
    if fuel > 0 {
      var prompt := "PROMPT: " + question;
      var after := Exchange(oracle, messages, prompt);
      ExchangeFacts(oracle, messages, prompt);
      var rest := AskRun(oracle, handle, after, Reask(question), fuel - 1);
      UnmarkedRepliesNeverAnswer(oracle, handle, after, Reask(question), fuel - 1);
      assert AskRun(oracle, handle, messages, question, fuel) == rest;
      PrefixOfRun(oracle, handle, after, Reask(question), fuel - 1);
      forall k | 0 <= k < fuel
        ensures rest.1[|messages| + 2 * k] == Turn(User, "PROMPT: " + Nested(question, k))
      {
        if k == 0 {
          assert rest.1[|messages|] == after[|messages|];
        } else {
          NestedOuter(question, k - 1);
          assert |messages| + 2 * k == |after| + 2 * (k - 1);
        }
      }
    }
  }

  /** Wrapping `k + 1` times is wrapping the re-asked question `k` times. */
  lemma {:induction false} NestedOuter(question: string, k: nat)
    ensures Nested(question, k + 1) == Nested(Reask(question), k)
    decreases k
  {
    if k > 0 {
      NestedOuter(question, k - 1);
    }
  }

  /** The transcript only grows. */
  lemma {:induction false} PrefixOfRun(oracle: seq<Turn> -> string, handle: string -> Result<string, PyError>,
                                       messages: seq<Turn>, question: string, fuel: nat)
    ensures var r := AskRun(oracle, handle, messages, question, fuel).1;
      |messages| <= |r| && r[..|messages|] == messages
    decreases fuel
  {
    if fuel > 0 {
      var prompt := "PROMPT: " + question;
      var reply := oracle(messages + [Turn(User, prompt)]);
      var after := Exchange(oracle, messages, prompt);
      ExchangeFacts(oracle, messages, prompt);
      if StartsWith(reply, "OUT: ") {
      } else if StartsWith(reply, "CMD: ") {
        CmdRunFacts(oracle, handle, after, reply);
        var r := CmdRun(oracle, handle, after, reply).1;
        assert r[..|after|][..|messages|] == r[..|messages|];
      } else {
        PrefixOfRun(oracle, handle, after, Reask(question), fuel - 1);
        var r := AskRun(oracle, handle, after, Reask(question), fuel - 1).1;
        assert r[..|after|][..|messages|] == r[..|messages|];
      }
    }
  }

  /** Command processing keeps the transcript and, unless it raises, adds
      the `CMD_RESP: ` turn and the reply whose `process_out` is the answer. */
  lemma CmdRunFacts(oracle: seq<Turn> -> string, handle: string -> Result<string, PyError>,
                    messages: seq<Turn>, text: string)
    ensures var r := CmdRun(oracle, handle, messages, text);
      && |messages| <= |r.1| && r.1[..|messages|] == messages
      && (handle(text).Failure? ==> r == (Raised(handle(text).error), messages))
      && (handle(text).Success? ==>
            && |r.1| == |messages| + 2
            && r.1[|messages|] == Turn(User, "CMD_RESP: " + handle(text).value)
            && r.0 == Answered(ProcessOut(r.1[|messages| + 1].content)))
  {
    if handle(text).Success? {
      ExchangeFacts(oracle, messages, "CMD_RESP: " + handle(text).value);
    }
  }

  /** An answer is always the last reply of the transcript with its first
      `OUT: ` removed, and that reply is the assistant's. */
  lemma {:induction false} AnswerIsLastReply(oracle: seq<Turn> -> string, handle: string -> Result<string, PyError>,
                                             messages: seq<Turn>, question: string, fuel: nat)
    ensures var r := AskRun(oracle, handle, messages, question, fuel);
      r.0.Answered? ==> r.1 != [] && r.1[|r.1| - 1].role == Assistant && r.0.text == ProcessOut(r.1[|r.1| - 1].content)
    decreases fuel
  {
    if fuel > 0 {
      var prompt := "PROMPT: " + question;
      var reply := oracle(messages + [Turn(User, prompt)]);
      var after := Exchange(oracle, messages, prompt);
      ExchangeFacts(oracle, messages, prompt);
      if StartsWith(reply, "OUT: ") {
      } else if StartsWith(reply, "CMD: ") {
        CmdRunFacts(oracle, handle, after, reply);
      } else {
        AnswerIsLastReply(oracle, handle, after, Reask(question), fuel - 1);
      }
    }
  }

  /** The base URL an engine gets when none is given. */
  const DefaultBaseUrl: string := "http://0.0.0.0:8000"

  /** `ProcessingEngine`: the chat it drives, the base URL, and the JSON and
      HTTP functions it calls. */
  class ProcessingEngine {
    const chat: Chat
    const baseUrl: string
    const loads: Loads
    const dumps: Json -> string
    const http: Http

    constructor (chat: Chat, baseUrl: string, loads: Loads, dumps: Json -> string, http: Http)
      ensures this.chat == chat && this.baseUrl == baseUrl
      ensures this.loads == loads && this.dumps == dumps && this.http == http
    {
      this.chat := chat;
      this.baseUrl := baseUrl;
      this.loads := loads;
      this.dumps := dumps;
      this.http := http;
    }

    /** The engine with the default base URL. */
    constructor WithDefaultUrl(chat: Chat, loads: Loads, dumps: Json -> string, http: Http)
      ensures this.chat == chat && this.baseUrl == DefaultBaseUrl
      ensures this.loads == loads && this.dumps == dumps && this.http == http
    {
      this.chat := chat;
      this.baseUrl := DefaultBaseUrl;
      this.loads := loads;
      this.dumps := dumps;
      this.http := http;
    }

    /** How this engine turns a `CMD: ` reply into server data. */
    function Handle(): string -> Result<string, PyError>
    {
      text => ServerData(loads, http, dumps, baseUrl, text)
    }

    /** `ask`: sends the prompt; an `OUT: ` reply is the answer, a `CMD: `
        reply is processed, anything else asks again. */
    method Ask(question: string, fuel: nat) returns (outcome: Answer)
      modifies chat
      ensures (outcome, chat.messages) == AskRun(chat.oracle, Handle(), old(chat.messages), question, fuel)
      decreases fuel
    {
      if fuel == 0 {
        return OutOfFuel;
      }
      var response := chat.UserMessage("PROMPT: " + question);
      if StartsWith(response, "OUT: ") {
        return Answered(ProcessOut(response));
      } else if StartsWith(response, "CMD: ") {
        outcome := ProcessCmd(response);
        return;
      }
      outcome := Ask(Reask(question), fuel - 1);
    }

    /** `cmd_resp`: reports the server data and returns the reply with its
        first `OUT: ` removed. */
    method CmdResp(serverData: string) returns (answer: string)
      modifies chat
      ensures answer == ProcessOut(chat.oracle(old(chat.messages) + [Turn(User, "CMD_RESP: " + serverData)]))
      ensures chat.messages == Exchange(chat.oracle, old(chat.messages), "CMD_RESP: " + serverData)
    {
      var response := chat.UserMessage("CMD_RESP: " + serverData);
      answer := ProcessOut(response);
    }

    /** `process_cmd`: parses the command, sends it and reports back. */
    method ProcessCmd(text: string) returns (outcome: Answer)
      modifies chat
      ensures (outcome, chat.messages) == CmdRun(chat.oracle, Handle(), old(chat.messages), text)
    {
      var command := ReplaceFirst(text, "CMD: ", "");
      var commandParts := Split(command, ";");
      var words := Split(commandParts[0], " ");
      var httpMethod := words[0];
      if |words| < 2 {
        return Raised(ListIndexError);
      }
      var path := words[1];
      var body := JNull;
      var headers := JNull;
      if Contains(command, "REQ_BODY") {
        var found := FindBody(commandParts);
        if found.Failure? {
          return Raised(found.error);
        }
        body := found.value;
      }
      if Contains(command, "HEADER") {
        var found := FindHeaders(commandParts);
        if found.Failure? {
          return Raised(found.error);
        }
        headers := found.value;
      }
      assert ParseCommand(text, loads) == Success(Command(httpMethod, path, body, headers));
      var response := SendRequest(http, dumps, baseUrl, Command(httpMethod, path, body, headers));
      var answer := CmdResp(response);
      outcome := Answered(answer);
    }

    /** The body loop of `process_cmd`, up to its `break`. */
    method FindBody(parts: seq<string>) returns (body: Result<Json, PyError>)
      ensures body == BodyOf(parts, loads)
    {
      body := Success(JNull);
      for i := 0 to |parts|
        invariant forall k :: 0 <= k < i ==> !Contains(parts[k], "REQ_BODY")
      {
        if Contains(parts[i], "REQ_BODY") {
          assert FirstContaining(parts, "REQ_BODY") == Some(i);
          var pieces := Split(parts[i], "REQ_BODY ");
          if |pieces| < 2 {
            return Failure(ListIndexError);
          }
          return loads(pieces[1]);
        }
      }
    }

    /** The header loop of `process_cmd`, up to its `break`. */
    method FindHeaders(parts: seq<string>) returns (headers: Result<Json, PyError>)
      ensures headers == HeadersOf(parts, loads)
    {
      headers := Success(JNull);
      for i := 0 to |parts|
        invariant forall k :: 0 <= k < i ==> !Contains(parts[k], "HEADER")
      {
        if Contains(parts[i], "HEADER") {
          assert FirstContaining(parts, "HEADER") == Some(i);
          var pieces := Split(parts[i], "HEADER ");
          if |pieces| < 2 {
            return Failure(ListIndexError);
          }
          var decoded := loads(pieces[1]);
          if decoded.Success? {
            headers := Success(decoded.value);
          } else {
            headers := Success(JNull);
          }
          return;
        }
      }
    }
  }
}
