/**
 * The AI service wrapper: cleaning the model's reply to an upload, turning the
 * decoded reply into a list of material records (with fixed fallback records
 * for a malformed reply or a failed call), and the message list of a chat call.
 *
 * The chat-completion client is a function argument: `Success(text)` is the
 * reply text, `Failure(message)` the text of the exception it raised.
 */
module LlmService {
  import opened Wrappers
  import opened Text
  import opened Json
  import DbManager

  const FenceJson := "```json"
  const FormatErrorTag := "格式错误"
  const ServiceErrorTag := "AI服务异常"
  const InputPreviewLength := 50

  // ---------------------------------------------------------------------------
  // Cleaning the reply

  /** Remove every "```json" and then every "```", and strip again, when the text has a fence. */
  function RemoveFences(s: string): (r: string)
    ensures !Contains(r, Fence)
    ensures !Contains(s, Fence) ==> r == s
    ensures Contains(s, Fence) ==> Strip(Python, r) == r
  {
    if Contains(s, Fence) then
      var unfenced := ReplaceAll(ReplaceAll(s, FenceJson, ""), Fence, "");
      NoFenceAfterRemoval(ReplaceAll(s, FenceJson, ""));
      StripContains(Python, unfenced, Fence);
      StripIdempotent(Python, unfenced);
      Strip(Python, unfenced)
    else s
  }

  /** A closing fence followed by text that is not "json" is not an opening "```json" fence. */
  lemma ClosingFenceKept(b: string)
    requires '`' !in b && !StartsWith(b, "json")
    ensures ReplaceAll(Fence + b, FenceJson, "") == Fence + b
  {
    var t := Fence + b;
    assert t[1..] == "``" + b && t[1..][1..] == "`" + b;
    assert ReplaceAll(t, FenceJson, "") == "`" + ReplaceAll("``" + b, FenceJson, "") by {
      if |t| >= 7 {
        assert t[..7][3..] == b[..4];
        assert FenceJson[3..] == "json";
      }
      ReplaceAllStep(t, FenceJson, "");
    }
    assert ReplaceAll("``" + b, FenceJson, "") == "`" + ReplaceAll("`" + b, FenceJson, "") by {
      var u := "``" + b;
      if |u| >= 7 {
        assert u[2] == b[0] && FenceJson[2] == '`';
      }
      ReplaceAllStep(u, FenceJson, "");
      assert u[1..] == "`" + b;
    }
    assert ReplaceAll("`" + b, FenceJson, "") == "`" + b by {
      var v := "`" + b;
      if |v| >= 7 {
        assert v[1] == b[0] && FenceJson[1] == '`';
      }
      ReplaceAllStep(v, FenceJson, "");
      assert v[1..] == b;
      ReplaceAllFree(b, [], FenceJson, "");
      assert b + [] == b;
    }
    assert "`" + ("`" + ("`" + b)) == t;
  }

  /** The pass for the opening fence `open` removes it and leaves the closing fence `close`. */
  lemma OpeningFenceRemoved(a: string, open: string, p: string, close: string, b: string)
    requires open != [] && open[0] !in a && open[0] !in p
    requires ReplaceAll(close + b, open, "") == close + b
    ensures ReplaceAll(a + open + p + close + b, open, "") == a + p + close + b
  {
    var closing := close + b;
    var rest := p + closing;
    assert ReplaceAll(rest, open, "") == rest by {
      ReplaceAllFree(p, closing, open, "");
    }
    assert ReplaceAll(a + open + rest, open, "") == a + "" + rest by {
      ReplaceAllOnce(a, open, rest, "");
    }
    assert a + open + rest == a + open + p + close + b;
    assert a + "" + rest == a + p + close + b;
  }

  /** The pass for the closing fence `close` then removes it. */
  lemma ClosingFenceRemoved(a: string, p: string, close: string, b: string)
    requires close != [] && close[0] !in a && close[0] !in p && close[0] !in b
    ensures ReplaceAll(a + p + close + b, close, "") == a + p + b
  {
    var ap := a + p;
    assert close[0] !in ap;
    assert ReplaceAll(b, close, "") == b by {
      ReplaceAllFree(b, [], close, "");
      assert b + [] == b;
    }
    assert ReplaceAll(ap + close + b, close, "") == ap + "" + b by {
      ReplaceAllOnce(ap, close, b, "");
    }
    assert ap + "" + b == ap + b;
  }

  /**
   * The usual fenced reply: text, a "```json" fence, the payload, a closing
   * fence and text, with no back-tick outside the fences.  Removing the
   * fences leaves the three texts joined, stripped.
   */
  lemma RemoveFencesPayload(a: string, p: string, b: string)
    requires '`' !in a && '`' !in p && '`' !in b && !StartsWith(b, "json")
    ensures RemoveFences(a + FenceJson + p + Fence + b) == Strip(Python, a + p + b)
  {
    var s := a + FenceJson + p + Fence + b;
    assert s == a + Fence + ("json" + p + Fence + b) by {
      assert FenceJson == Fence + "json";
    }
    ContainsPart(a, Fence, "json" + p + Fence + b);
    ClosingFenceKept(b);
    OpeningFenceRemoved(a, FenceJson, p, Fence, b);
    ClosingFenceRemoved(a, p, Fence, b);
  }

  /** Keep the text from the first "[" to the last "]", when both occur. */
  function SliceBrackets(s: string): (r: string)
    ensures '[' !in s || ']' !in s ==> r == s
    ensures '[' in s && ']' in s && Find(s, '[') <= RFind(s, ']') ==>
      && r == s[Find(s, '[')..RFind(s, ']') + 1]
      && r[0] == '[' && r[|r| - 1] == ']'
    ensures '[' in s && ']' in s && RFind(s, ']') < Find(s, '[') ==> r == ""
  {
    var start, end := Find(s, '['), RFind(s, ']');
    if start != -1 && end != -1 then
      // Python's s[start:end + 1] is empty when end + 1 <= start
      if start <= end + 1 then s[start..end + 1] else ""
    else s
  }

  /** Cutting to the brackets cannot create an occurrence. */
  lemma SliceBracketsContains(s: string, sub: string)
    ensures Contains(SliceBrackets(s), sub) ==> Contains(s, sub)
  {
    var start, end := Find(s, '['), RFind(s, ']');
    if start != -1 && end != -1 && start <= end + 1 {
      ContainsSlice(s, start, end + 1, sub);
    } else if start != -1 && end != -1 && sub != [] {
      ContainsTooShort(SliceBrackets(s), sub);
    }
  }

  /** The text given to `json.loads`: stripped, unfenced, cut to the outer brackets. */
  function CleanReply(reply: string): (r: string)
    ensures !Contains(r, Fence)
    ensures !Contains(reply, Fence) && '[' !in reply ==> r == Strip(Python, reply)
  {
    var stripped := Strip(Python, reply);
    StripContains(Python, reply, Fence);
    var unfenced := RemoveFences(stripped);
    SliceBracketsContains(unfenced, Fence);
    SliceBrackets(unfenced)
  }

  /** A reply that is exactly a "```json" block gives the parser the block's payload, stripped and cut to its brackets. */
  lemma CleanFencedReply(p: string)
    requires '`' !in p
    ensures CleanReply(FenceJson + p + Fence) == SliceBrackets(Strip(Python, p))
  {
    var reply := FenceJson + p + Fence;
    assert Strip(Python, reply) == reply by {
      assert reply[0] == FenceJson[0] == '`' && reply[|reply| - 1] == Fence[2] == '`';
      StripUnchanged(Python, reply);
    }
    assert RemoveFences(reply) == Strip(Python, p) by {
      var e: string := [];
      RemoveFencesPayload(e, p, e);
      assert e + FenceJson == FenceJson;
      assert reply + e == reply;
      assert e + p + e == p;
    }
    assert CleanReply(reply) == SliceBrackets(RemoveFences(Strip(Python, reply)));
  }

  // ---------------------------------------------------------------------------
  // From the decoded reply to material records

  /** A material record as the service builds it. */
  function Record(themes: seq<string>, tags: seq<string>, content: string): (r: Json)
    ensures r.Obj? && r.fields.Keys == {"type", "themes", "tags", "content"}
    ensures r.fields["type"] == Str(DbManager.Uncategorised)
    ensures r.fields["themes"] == StrArr(themes) && r.fields["tags"] == StrArr(tags)
    ensures r.fields["content"] == Str(content)
  {
    Obj(map["type" := Str(DbManager.Uncategorised), "themes" := StrArr(themes),
            "tags" := StrArr(tags), "content" := Str(content)])
  }

  /** The record returned when the cleaned reply is not valid JSON: the whole input, tagged 格式错误. */
  function FormatErrorRecord(input: string): Json {
    Record([], [FormatErrorTag], input)
  }

  /** The part of the service-error text before the input preview. */
  function ServiceErrorPrefix(error: string): string {
    "AI 连接错误: " + error + "。原始内容: "
  }

  /**
   * The text of the record returned when the call raised: between the prefix
   * and the final "..." stand the first 50 characters of the input.
   */
  function ServiceErrorContent(error: string, input: string): (r: string)
    ensures StartsWith(r, ServiceErrorPrefix(error))
    ensures EndsWith(r, "...")
    ensures |ServiceErrorPrefix(error)| <= |r| - 3
    ensures r[|ServiceErrorPrefix(error)|..|r| - 3] == Take(input, InputPreviewLength)
    ensures |r| <= |ServiceErrorPrefix(error)| + InputPreviewLength + 3
  {
    ServiceErrorPrefix(error) + Take(input, InputPreviewLength) + "..."
  }

  /** The record returned when the call raised: at most 50 characters of the input, tagged AI服务异常. */
  function ServiceErrorRecord(error: string, input: string): Json {
    Record([], [ServiceErrorTag], ServiceErrorContent(error, input))
  }

  /** A list is returned as it is, a dict's "materials" list is unwrapped, another dict is wrapped, anything else gives []. */
  function Normalise(data: Json): (r: seq<Json>)
    ensures data.Arr? ==> r == data.items
    ensures data.Obj? && "materials" in data.fields && data.fields["materials"].Arr? ==>
              r == data.fields["materials"].items
    ensures data.Obj? && !("materials" in data.fields && data.fields["materials"].Arr?) ==> r == [data]
    ensures !data.Arr? && !data.Obj? ==> r == []
  {
    match data
    case Arr(items) => items
    case Obj(fields) =>
      if "materials" in fields && fields["materials"].Arr? then fields["materials"].items else [data]
    case _ => []
  }

  /**
   * `service_process_upload`: the records for an input, given the client's
   * outcome for it and the JSON parser.
   */
  function ProcessUpload(input: string, reply: Result<string, string>, parse: string -> Option<Json>): (r: seq<Json>)
    ensures reply.Failure? ==> r == [ServiceErrorRecord(reply.error, input)]
    ensures reply.Success? && parse(CleanReply(reply.value)).None? ==> r == [FormatErrorRecord(input)]
    ensures reply.Success? && parse(CleanReply(reply.value)).Some? ==>
              r == Normalise(parse(CleanReply(reply.value)).value)
  {
    match reply
    case Failure(e) => [ServiceErrorRecord(e, input)]
    case Success(text) =>
      match parse(CleanReply(text))
      case None => [FormatErrorRecord(input)]
      case Some(data) => Normalise(data)
  }

  /** Only a reply that decodes to something other than a non-empty list or dict yields no records. */
  lemma ProcessUploadEmpty(input: string, reply: Result<string, string>, parse: string -> Option<Json>)
    ensures ProcessUpload(input, reply, parse) == [] <==>
      && reply.Success?
      && parse(CleanReply(reply.value)).Some?
      && var data := parse(CleanReply(reply.value)).value;
         (data.Arr? && data.items == [])
         || (data.Obj? && "materials" in data.fields && data.fields["materials"] == Arr([]))
         || (!data.Arr? && !data.Obj?)
  {
  }

  // ---------------------------------------------------------------------------
  // The chat call

  datatype Role = SystemRole | UserRole
  datatype ChatMessage = ChatMessage(role: Role, content: string)

  /** `service_chat`'s message list: the user message, preceded by a non-empty system prompt. */
  method ChatMessages(userMessage: string, systemPrompt: Option<string>) returns (msgs: seq<ChatMessage>)
    ensures 1 <= |msgs| <= 2
    ensures msgs[|msgs| - 1] == ChatMessage(UserRole, userMessage)
    ensures |msgs| == 2 <==> systemPrompt.Some? && systemPrompt.value != ""
    ensures |msgs| == 2 ==> msgs[0] == ChatMessage(SystemRole, systemPrompt.value)
  {
    msgs := [ChatMessage(UserRole, userMessage)];
    if systemPrompt.Some? && systemPrompt.value != "" {
      msgs := [ChatMessage(SystemRole, systemPrompt.value)] + msgs;
    }
  }

  /** The three reply services; each has its own apology for a failed call. */
  datatype Service = Analyse | Imitate | Chat

  function Unavailable(service: Service): string {
    match service
    case Analyse => "解析服务暂时不可用: "
    case Imitate => "仿写服务暂时不可用: "
    case Chat => "对话服务暂时不可用: "
  }

  /** The text a reply service returns: the reply, or its apology followed by the exception text. */
  function ServiceReply(service: Service, outcome: Result<string, string>): (r: string)
    ensures outcome.Success? ==> r == outcome.value
    ensures outcome.Failure? ==> StartsWith(r, Unavailable(service)) && r[|Unavailable(service)|..] == outcome.error
  {
    match outcome
    case Success(text) => text
    case Failure(e) => Unavailable(service) + e
  }

  /** `service_chat(user_message, system_prompt)` against a completion client. */
  method ServiceChat(userMessage: string, systemPrompt: Option<string>,
                     complete: seq<ChatMessage> -> Result<string, string>) returns (reply: string, sent: seq<ChatMessage>)
    ensures |sent| == (if systemPrompt.Some? && systemPrompt.value != "" then 2 else 1)
    ensures sent[|sent| - 1] == ChatMessage(UserRole, userMessage)
    ensures reply == ServiceReply(Chat, complete(sent))
  {
    sent := ChatMessages(userMessage, systemPrompt);
    reply := ServiceReply(Chat, complete(sent));
  }
}
