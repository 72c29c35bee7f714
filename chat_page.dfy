/**
 * The dashboard chat page: an input line and the transcript of messages.
 * Sending posts the input to the chat endpoint and, on an ok answer, appends
 * the question and the answer to the transcript.
 */
module ChatPage {
  import opened Wrappers
  import opened Js
  import Strings

  /** A transcript entry; `content` is absent when the answer carried no `response`. */
  datatype Message = Message(role: string, content: Option<Json>)

  /** How the request to the chat endpoint ended. */
  datatype Reply =
    | Ok(body: Json)   // an ok response whose body parsed
    | NotOk            // a response with a failing status
    | Failed           // the request or the body parse threw

  class ChatPageState {
    var input: string
    var messages: seq<Message>

    constructor ()
      ensures input == "" && messages == []
    {
      input := "";
      messages := [];
    }

    /** Typing replaces the input line. */
    method Type(text: string)
      modifies this
      ensures input == text && messages == old(messages)
    {
      input := text;
    }

    /**
     * `sendMessage`: blank input sends nothing. Otherwise the body sent holds
     * the input as `message` and nothing else; when the reply is ok and its
     * body can be destructured, the question and the answer are appended and
     * the input is cleared. Any other outcome leaves both unchanged.
     */
    method SendMessage(reply: Reply) returns (sent: Option<Json>)
      modifies this
      ensures sent.Some? <==> Strings.Trim(old(input)) != ""
      ensures sent.Some? ==> sent.value == JObj(map["message" := JStr(old(input))])
      ensures |messages| >= |old(messages)| && messages[..|old(messages)|] == old(messages)
      ensures sent.Some? && reply.Ok? && !reply.body.JNull? ==>
        messages == old(messages) + [Message("user", Some(JStr(old(input)))),
                                     Message("bot", Prop(reply.body, "response"))] &&
        input == ""
      ensures !(sent.Some? && reply.Ok? && !reply.body.JNull?) ==>
        messages == old(messages) && input == old(input)
    {
      if Strings.Trim(input) == "" {
        return None;
      }
      sent := Some(JObj(map["message" := JStr(input)]));
      if reply.Ok? && !reply.body.JNull? {
        var response := Prop(reply.body, "response");
        messages := messages + [Message("user", Some(JStr(input))), Message("bot", response)];
        input := "";
      }
    }

    /** `onKeyDown`: Enter sends, any other key does nothing. */
    method KeyDown(key: string, reply: Reply) returns (sent: Option<Json>)
      modifies this
      ensures key != "Enter" ==> sent == None && input == old(input) && messages == old(messages)
      ensures key == "Enter" ==> (sent.Some? <==> Strings.Trim(old(input)) != "")
      ensures key == "Enter" && sent.Some? && reply.Ok? && !reply.body.JNull? ==>
        messages == old(messages) + [Message("user", Some(JStr(old(input)))),
                                     Message("bot", Prop(reply.body, "response"))] &&
        input == ""
      ensures !(key == "Enter" && sent.Some? && reply.Ok? && !reply.body.JNull?) ==>
        messages == old(messages) && input == old(input)
      ensures |messages| >= |old(messages)| && messages[..|old(messages)|] == old(messages)
    {
      sent := None;
      if key == "Enter" {
        sent := SendMessage(reply);
      }
    }
  }

  /** Every entry sent with role "user" is followed by the "bot" entry: the transcript is a list of pairs. */
  ghost predicate Paired(messages: seq<Message>) {
    |messages| % 2 == 0 &&
    forall i :: 0 <= i < |messages| ==> messages[i].role == (if i % 2 == 0 then "user" else "bot")
  }

  /** Sending keeps the transcript a list of question/answer pairs. */
  lemma SendKeepsPairs(before: seq<Message>, question: string, answer: Option<Json>)
    requires Paired(before)
    ensures Paired(before + [Message("user", Some(JStr(question))), Message("bot", answer)])
  {
  }
}
