/** The request serializers of src/llm/openai.rs. */
module RequestBody {
  import opened Wrappers
  import opened Text
  import opened Json
  import opened LlmTypes
  import Seqs

  // ----- specification -----------------------------------------------------------------

  function TextMessage(role: string, content: string): Json {
    Obj(map["role" := Str(role), "content" := Str(content)])
  }

  function ToolMessage(id: string, content: string): Json {
    Obj(map["role" := Str("tool"), "tool_call_id" := Str(id), "content" := Str(content)])
  }

  function ImageNote(mediaType: string, data: string): string {
    "[image: " + mediaType + ", " + Decimal(Utf8Len(data)) + " bytes base64]"
  }

  function UserTexts(items: seq<UserContent>): seq<string> {
    if items == [] then []
    else
      (match items[0]
       case UserText(text) => [text]
       case Image(mediaType, data) => [ImageNote(mediaType, data)]
       case ToolResult(_, _, _) => []) + UserTexts(items[1..])
  }

  function ToolMessages(items: seq<UserContent>): seq<Json> {
    if items == [] then []
    else (if items[0].ToolResult? then [ToolMessage(items[0].toolUseId, items[0].content)] else []) + ToolMessages(items[1..])
  }

  function UserRun(items: seq<UserContent>): seq<Json> {
    var texts := UserTexts(items);
    (if texts == [] then [] else [TextMessage("user", Join(texts))]) + ToolMessages(items)
  }

  function BlockTexts(blocks: seq<ContentBlock>): seq<string> {
    if blocks == [] then [] else (if blocks[0].Text? then [blocks[0].text] else []) + BlockTexts(blocks[1..])
  }

  function ToolCall(codec: Codec, id: string, name: string, input: Json): Json {
    Obj(map["id" := Str(id), "type" := Str("function"),
            "function" := Obj(map["name" := Str(name), "arguments" := Str(codec.show(input))])])
  }

  function ToolCalls(codec: Codec, blocks: seq<ContentBlock>): seq<Json> {
    if blocks == [] then []
    else
      (if blocks[0].ToolUse? then [ToolCall(codec, blocks[0].id, blocks[0].name, blocks[0].input)] else [])
      + ToolCalls(codec, blocks[1..])
  }

  function AssistantMessage(codec: Codec, blocks: seq<ContentBlock>): Json {
    var content := Join(BlockTexts(blocks));
    var calls := ToolCalls(codec, blocks);
    var fields := map["role" := Str("assistant")];
    var fields' := if content == "" then fields else fields["content" := Str(content)];
    Obj(if calls == [] then fields' else fields'["tool_calls" := Arr(calls)])
  }

  /** The wire messages of one canonical message. */
  function RunOf(codec: Codec, m: Message): seq<Json> {
    match m
    case System(prompt) => [TextMessage("system", prompt)]
    case User(items) => UserRun(items)
    case Assistant(blocks) => [AssistantMessage(codec, blocks)]
  }

  function Runs(codec: Codec, ms: seq<Message>): seq<Json> {
    if ms == [] then [] else RunOf(codec, ms[0]) + Runs(codec, ms[1..])
  }

  function ToolJson(t: ToolDefinition): Json {
    Obj(map["type" := Str("function"),
            "function" := Obj(map["name" := Str(t.name), "description" := Str(t.description), "parameters" := t.inputSchema])])
  }

  function ToolJsons(ts: seq<ToolDefinition>): seq<Json> {
    if ts == [] then [] else [ToolJson(ts[0])] + ToolJsons(ts[1..])
  }

  // ----- the serializers ---------------------------------------------------------------

  method SerializeUserMessage(items: seq<UserContent>, messages: seq<Json>) returns (extended: seq<Json>)
    ensures extended == messages + UserRun(items)
  {
    var texts: seq<string> := [];
    var results: seq<Json> := [];
    var i := 0;
    while i < |items|
      invariant 0 <= i <= |items|
      invariant texts + UserTexts(items[i..]) == UserTexts(items)
      invariant results + ToolMessages(items[i..]) == ToolMessages(items)
    {
      assert items[i..][0] == items[i] && items[i..][1..] == items[i + 1..];
      ghost var laterTexts, laterResults := UserTexts(items[i + 1..]), ToolMessages(items[i + 1..]);
      match items[i] {
        case UserText(text) =>
          Seqs.Assoc(texts, [text], laterTexts);
          Seqs.Unit(laterResults);
          texts := texts + [text];
        case ToolResult(id, content, _) =>
          Seqs.Assoc(results, [ToolMessage(id, content)], laterResults);
          Seqs.Unit(laterTexts);
          results := results + [ToolMessage(id, content)];
        case Image(mediaType, data) =>
          Seqs.Assoc(texts, [ImageNote(mediaType, data)], laterTexts);
          Seqs.Unit(laterResults);
          texts := texts + [ImageNote(mediaType, data)];
      }
      i := i + 1;
    }
    assert items[i..] == [];
    Seqs.Unit(texts);
    Seqs.Unit(results);
    extended := messages;
    if texts != [] {
      extended := extended + [TextMessage("user", Join(texts))];
    }
    ghost var head := if texts == [] then [] else [TextMessage("user", Join(texts))];
    Seqs.Unit(messages);
    Seqs.Assoc(messages, head, results);
    extended := extended + results;
  }

  method SerializeAssistantMessage(codec: Codec, blocks: seq<ContentBlock>, messages: seq<Json>) returns (extended: seq<Json>)
    ensures extended == messages + [AssistantMessage(codec, blocks)]
  {
    var texts: seq<string> := [];
    var calls: seq<Json> := [];
    var i := 0;
    while i < |blocks|
      invariant 0 <= i <= |blocks|
      invariant texts + BlockTexts(blocks[i..]) == BlockTexts(blocks)
      invariant calls + ToolCalls(codec, blocks[i..]) == ToolCalls(codec, blocks)
    {
      assert blocks[i..][0] == blocks[i] && blocks[i..][1..] == blocks[i + 1..];
      ghost var laterTexts, laterCalls := BlockTexts(blocks[i + 1..]), ToolCalls(codec, blocks[i + 1..]);
      Seqs.Unit(laterTexts);
      Seqs.Unit(laterCalls);
      match blocks[i] {
        case Text(text) =>
          Seqs.Assoc(texts, [text], laterTexts);
          texts := texts + [text];
        case Thinking(_) =>
        case ToolUse(id, name, input) =>
          Seqs.Assoc(calls, [ToolCall(codec, id, name, input)], laterCalls);
          calls := calls + [ToolCall(codec, id, name, input)];
      }
      i := i + 1;
    }
    assert blocks[i..] == [];
    Seqs.Unit(texts);
    Seqs.Unit(calls);
    var fields := map["role" := Str("assistant")];
    var content := Join(texts);
    if content != "" {
      fields := fields["content" := Str(content)];
    }
    if calls != [] {
      fields := fields["tool_calls" := Arr(calls)];
    }
    extended := messages + [Obj(fields)];
  }

  lemma RunIs(codec: Codec, m: Message)
    ensures m.System? ==> RunOf(codec, m) == [TextMessage("system", m.prompt)]
    ensures m.User? ==> RunOf(codec, m) == UserRun(m.items)
    ensures m.Assistant? ==> RunOf(codec, m) == [AssistantMessage(codec, m.blocks)]
  {
  }

  /**
   The request in wire form: the system prompt, then one contiguous run of messages per canonical message; optional
   fields are there exactly when the request has them.
   */
  method BuildRequestBody(codec: Codec, request: CompletionRequest, streaming: bool) returns (body: Json)
    ensures At(body, "model") == Str(request.model) && At(body, "max_tokens") == Int(request.maxTokens)
    ensures At(body, "messages") ==
              Arr([Obj(map["role" := Str("system"), "content" := Str(request.system)])] + Runs(codec, request.messages))
    ensures request.temperature.None? ==> Get(body, "temperature") == None
    ensures request.temperature.Some? ==>
              Get(body, "temperature") ==
              Some(if IsFinite(request.temperature.value) then Float(request.temperature.value) else Null)
    ensures Get(body, "tools") == if request.tools == [] then None else Some(Arr(ToolJsons(request.tools)))
    ensures Get(body, "stream") == if streaming then Some(Bool(true)) else None
  {
    hide RunOf, ToolJsons;
    var messages := [TextMessage("system", request.system)];
    ghost var first := messages;
    var ms := request.messages;
    var i := 0;
    while i < |ms|
      invariant 0 <= i <= |ms|
      invariant messages + Runs(codec, ms[i..]) == first + Runs(codec, ms)
    {
      assert ms[i..][0] == ms[i] && ms[i..][1..] == ms[i + 1..];
      Seqs.Assoc(messages, RunOf(codec, ms[i]), Runs(codec, ms[i + 1..]));
      RunIs(codec, ms[i]);
      match ms[i] {
        case System(prompt) => messages := messages + [TextMessage("system", prompt)];
        case User(items) => messages := SerializeUserMessage(items, messages);
        case Assistant(blocks) => messages := SerializeAssistantMessage(codec, blocks, messages);
      }
      i := i + 1;
    }
    assert ms[i..] == [];
    Seqs.Unit(messages);
    var fields := map["model" := Str(request.model), "messages" := Arr(messages), "max_tokens" := Int(request.maxTokens)];
    if request.temperature.Some? {
      fields := fields["temperature" := OfF64(request.temperature.value)];
    }
    if request.tools != [] {
      fields := fields["tools" := Arr(ToolJsons(request.tools))];
    }
    if streaming {
      fields := fields["stream" := Bool(true)];
    }
    body := Obj(fields);
  }

  // ----- what reaches the wire ---------------------------------------------------------

  /** What one item of a user message adds to the text. */
  predicate AddsText(item: UserContent, texts: seq<string>) {
    match item
    case UserText(text) => texts == [text]
    case Image(mediaType, data) => texts == ["[image: " + mediaType + ", " + Decimal(Utf8Len(data)) + " bytes base64]"]
    case ToolResult(_, _, _) => texts == []
  }

  /** What one item adds to the tool messages. */
  predicate AddsResult(item: UserContent, wire: seq<Json>) {
    match item
    case UserText(_) => wire == []
    case Image(_, _) => wire == []
    case ToolResult(id, content, _) =>
      wire == [Obj(map["role" := Str("tool"), "tool_call_id" := Str(id), "content" := Str(content)])]
  }

  lemma OneItem(item: UserContent)
    ensures AddsText(item, UserTexts([item])) && UserTexts([]) == []
    ensures AddsResult(item, ToolMessages([item])) && ToolMessages([]) == []
  {
    hide Decimal, Utf8Len;
    assert [item][1..] == [];
  }

  lemma {:induction false} ItemsAppend(a: seq<UserContent>, b: seq<UserContent>)
    ensures UserTexts(a + b) == UserTexts(a) + UserTexts(b)
    ensures ToolMessages(a + b) == ToolMessages(a) + ToolMessages(b)
  {
    hide ImageNote, ToolMessage;
    if a == [] {
      Seqs.Unit(b);
      Seqs.Unit(UserTexts(b));
      Seqs.Unit(ToolMessages(b));
    } else {
      Seqs.TailOfSum(a, b);
      ItemsAppend(a[1..], b);
      Seqs.Assoc(match a[0] case UserText(text) => [text] case Image(mediaType, data) => [ImageNote(mediaType, data)] case ToolResult(_, _, _) => [],
        UserTexts(a[1..]), UserTexts(b));
      Seqs.Assoc(if a[0].ToolResult? then [ToolMessage(a[0].toolUseId, a[0].content)] else [], ToolMessages(a[1..]), ToolMessages(b));
    }
  }

  /** The texts and the wire messages of a user message, item by item. */
  predicate ByItem(items: seq<UserContent>, texts: seq<seq<string>>, wire: seq<seq<Json>>) {
    && |texts| == |items| && |wire| == |items|
    && forall i | 0 <= i < |items| :: AddsText(items[i], texts[i]) && AddsResult(items[i], wire[i])
  }

  function Flat<T>(parts: seq<seq<T>>): seq<T> {
    if parts == [] then [] else Flat(parts[..|parts| - 1]) + parts[|parts| - 1]
  }

  lemma {:induction false} FlatByItem(items: seq<UserContent>, texts: seq<seq<string>>, wire: seq<seq<Json>>)
    requires ByItem(items, texts, wire)
    ensures UserTexts(items) == Flat(texts) && ToolMessages(items) == Flat(wire)
    decreases |items|
  {
    hide UserTexts, ToolMessages, AddsText, AddsResult;
    if items == [] {
      OneItem(UserText(""));
    } else {
      var n := |items| - 1;
      assert items == items[..n] + [items[n]];
      FlatByItem(items[..n], texts[..n], wire[..n]);
      ItemsAppend(items[..n], [items[n]]);
      OneItem(items[n]);
      AddsUnique(items[n], texts[n], UserTexts([items[n]]), wire[n], ToolMessages([items[n]]));
    }
  }

  lemma AddsUnique(item: UserContent, a: seq<string>, b: seq<string>, v: seq<Json>, w: seq<Json>)
    requires AddsText(item, a) && AddsText(item, b) && AddsResult(item, v) && AddsResult(item, w)
    ensures a == b && v == w
  {
  }

  /**
   A user message goes out as one `user` message with all its texts and image notes, in order and joined by LF, if it
   has any, and then one `tool` message for each of its results, in order, with its id and its content.
   */
  lemma UserOnWire(items: seq<UserContent>, texts: seq<seq<string>>, wire: seq<seq<Json>>)
    requires ByItem(items, texts, wire)
    ensures UserRun(items) ==
              (if Flat(texts) == [] then [] else [Obj(map["role" := Str("user"), "content" := Str(Join(Flat(texts)))])])
              + Flat(wire)
  {
    FlatByItem(items, texts, wire);
  }

  /** A system message goes out as it is, and an assistant message as one that has exactly these fields. */
  lemma OthersOnWire(codec: Codec, m: Message)
    ensures m.System? ==> RunOf(codec, m) == [Obj(map["role" := Str("system"), "content" := Str(m.prompt)])]
    ensures m.Assistant? ==>
              && |RunOf(codec, m)| == 1 && RunOf(codec, m)[0].Obj?
              && var fields := RunOf(codec, m)[0].fields;
                 && fields.Keys <= {"role", "content", "tool_calls"}
                 && "role" in fields && fields["role"] == Str("assistant")
                 && ("content" in fields <==> Join(BlockTexts(m.blocks)) != "")
                 && ("content" in fields ==> fields["content"] == Str(Join(BlockTexts(m.blocks))))
                 && ("tool_calls" in fields <==> ToolCalls(codec, m.blocks) != [])
                 && ("tool_calls" in fields ==> fields["tool_calls"] == Arr(ToolCalls(codec, m.blocks)))
  {
  }

  /** What one block of an assistant message adds. */
  predicate AddsBlock(codec: Codec, b: ContentBlock, texts: seq<string>, calls: seq<Json>) {
    match b
    case Text(text) => texts == [text] && calls == []
    case Thinking(_) => texts == [] && calls == []
    case ToolUse(id, name, input) =>
      texts == [] && calls == [Obj(map["id" := Str(id), "type" := Str("function"),
        "function" := Obj(map["name" := Str(name), "arguments" := Str(codec.show(input))])])]
  }

  lemma OneBlock(codec: Codec, b: ContentBlock)
    ensures AddsBlock(codec, b, BlockTexts([b]), ToolCalls(codec, [b])) && BlockTexts([]) == [] && ToolCalls(codec, []) == []
  {
    assert [b][1..] == [];
  }

  /** Texts and calls of an assistant message follow its blocks in order. */
  lemma {:induction false} BlocksAppend(codec: Codec, a: seq<ContentBlock>, b: seq<ContentBlock>)
    ensures BlockTexts(a + b) == BlockTexts(a) + BlockTexts(b)
    ensures ToolCalls(codec, a + b) == ToolCalls(codec, a) + ToolCalls(codec, b)
  {
    hide ToolCall;
    if a == [] {
      Seqs.Unit(b);
      Seqs.Unit(BlockTexts(b));
      Seqs.Unit(ToolCalls(codec, b));
    } else {
      Seqs.TailOfSum(a, b);
      BlocksAppend(codec, a[1..], b);
      Seqs.Assoc(if a[0].Text? then [a[0].text] else [], BlockTexts(a[1..]), BlockTexts(b));
      Seqs.Assoc(if a[0].ToolUse? then [ToolCall(codec, a[0].id, a[0].name, a[0].input)] else [],
        ToolCalls(codec, a[1..]), ToolCalls(codec, b));
    }
  }

  /** Every tool goes out, in order, with its name, description and schema. */
  lemma {:induction false} ToolsOnWire(ts: seq<ToolDefinition>)
    ensures |ToolJsons(ts)| == |ts|
    ensures forall i | 0 <= i < |ts| ::
              ToolJsons(ts)[i] == Obj(map["type" := Str("function"), "function" := Obj(map["name" := Str(ts[i].name),
                "description" := Str(ts[i].description), "parameters" := ts[i].inputSchema])])
  {
    if ts != [] {
      ToolsOnWire(ts[1..]);
      assert forall i | 1 <= i < |ts| :: ts[i] == ts[1..][i - 1] && ToolJsons(ts)[i] == ToolJsons(ts[1..])[i - 1];
    }
  }

  // ----- tool results stay paired with their calls -------------------------------------

  function ToolIdOf(wire: Json): Option<string> {
    if At(wire, "role") == Str("tool") then AsStr(At(wire, "tool_call_id")) else None
  }

  /** An assistant message that lists a call with this id. */
  predicate Lists(wire: Json, id: string) {
    && At(wire, "role") == Str("assistant")
    && exists i :: 0 <= i < |AsArr(At(wire, "tool_calls")).GetOr([])|
                && At(AsArr(At(wire, "tool_calls")).GetOr([])[i], "id") == Str(id)
  }

  predicate Answers(m: Message, id: string) {
    m.User? && exists i :: 0 <= i < |m.items| && m.items[i].ToolResult? && m.items[i].toolUseId == id
  }

  predicate Asks(m: Message, id: string) {
    m.Assistant? && exists i :: 0 <= i < |m.blocks| && m.blocks[i].ToolUse? && m.blocks[i].id == id
  }

  /** Every tool result follows an assistant message that made the call. */
  ghost predicate Paired(ms: seq<Message>) {
    forall i: nat, id | i < |ms| && Answers(ms[i], id) :: exists k: nat :: k < i && Asks(ms[k], id)
  }

  ghost predicate WirePaired(wire: seq<Json>) {
    forall x: nat, id | x < |wire| && ToolIdOf(wire[x]) == Some(id) :: exists y: nat :: y < x && Lists(wire[y], id)
  }

  lemma {:induction false} RunsSnoc(codec: Codec, ms: seq<Message>, m: Message)
    ensures Runs(codec, ms + [m]) == Runs(codec, ms) + RunOf(codec, m)
  {
    if ms == [] {
      assert [m][1..] == [] && [] + [m] == [m];
      Seqs.Unit(RunOf(codec, m));
    } else {
      Seqs.TailOfSum(ms, [m]);
      RunsSnoc(codec, ms[1..], m);
      Seqs.Assoc(RunOf(codec, ms[0]), Runs(codec, ms[1..]), RunOf(codec, m));
    }
  }

  lemma {:induction false} ToolMessagesAnswer(items: seq<UserContent>, x: nat)
    requires x < |ToolMessages(items)|
    ensures ToolIdOf(ToolMessages(items)[x]).Some?
    ensures exists i :: 0 <= i < |items| && items[i].ToolResult? && ToolIdOf(ToolMessages(items)[x]) == Some(items[i].toolUseId)
  {
    var rest := items[1..];
    if items[0].ToolResult? && x == 0 {
      assert ToolIdOf(ToolMessages(items)[0]) == Some(items[0].toolUseId);
    } else {
      var x' := if items[0].ToolResult? then x - 1 else x;
      ToolMessagesAnswer(rest, x');
      assert ToolMessages(items)[x] == ToolMessages(rest)[x'];
      var i :| 0 <= i < |rest| && rest[i].ToolResult? && ToolIdOf(ToolMessages(rest)[x']) == Some(rest[i].toolUseId);
      assert items[i + 1] == rest[i];
    }
  }

  /** A tool message in a run answers for the canonical message. */
  lemma RunAnswers(codec: Codec, m: Message, x: nat, id: string)
    requires x < |RunOf(codec, m)| && ToolIdOf(RunOf(codec, m)[x]) == Some(id)
    ensures Answers(m, id)
  {
    if m.User? {
      var texts := UserTexts(m.items);
      var k := if texts == [] then 0 else 1;
      assert x >= k;
      assert RunOf(codec, m)[x] == ToolMessages(m.items)[x - k];
      ToolMessagesAnswer(m.items, x - k);
    }
  }

  lemma {:induction false} CallListed(codec: Codec, blocks: seq<ContentBlock>, i: nat)
    requires i < |blocks| && blocks[i].ToolUse?
    ensures exists k :: 0 <= k < |ToolCalls(codec, blocks)| && At(ToolCalls(codec, blocks)[k], "id") == Str(blocks[i].id)
  {
    var rest := blocks[1..];
    if i == 0 {
      assert At(ToolCalls(codec, blocks)[0], "id") == Str(blocks[0].id);
    } else {
      CallListed(codec, rest, i - 1);
      var k :| 0 <= k < |ToolCalls(codec, rest)| && At(ToolCalls(codec, rest)[k], "id") == Str(rest[i - 1].id);
      var k' := if blocks[0].ToolUse? then k + 1 else k;
      assert ToolCalls(codec, blocks)[k'] == ToolCalls(codec, rest)[k];
    }
  }

  lemma RunLists(codec: Codec, m: Message, id: string)
    requires Asks(m, id)
    ensures |RunOf(codec, m)| == 1 && Lists(RunOf(codec, m)[0], id)
  {
    var i :| 0 <= i < |m.blocks| && m.blocks[i].ToolUse? && m.blocks[i].id == id;
    CallListed(codec, m.blocks, i);
    var calls := ToolCalls(codec, m.blocks);
    var k :| 0 <= k < |calls| && At(calls[k], "id") == Str(id);
    assert AsArr(At(RunOf(codec, m)[0], "tool_calls")).GetOr([]) == calls;
  }

  lemma {:induction false} AskIsListed(codec: Codec, ms: seq<Message>, k: nat, id: string)
    requires k < |ms| && Asks(ms[k], id)
    ensures exists y: nat :: y < |Runs(codec, ms)| && Lists(Runs(codec, ms)[y], id)
    decreases |ms|
  {
    var n := |ms| - 1;
    assert ms == ms[..n] + [ms[n]];
    RunsSnoc(codec, ms[..n], ms[n]);
    if k == n {
      RunLists(codec, ms[n], id);
      assert Runs(codec, ms)[|Runs(codec, ms[..n])|] == RunOf(codec, ms[n])[0];
    } else {
      AskIsListed(codec, ms[..n], k, id);
      var y: nat :| y < |Runs(codec, ms[..n])| && Lists(Runs(codec, ms[..n])[y], id);
      assert Runs(codec, ms)[y] == Runs(codec, ms[..n])[y];
    }
  }

  /** If every tool result follows its call, so does every `tool` message on the wire. */
  lemma {:induction false} FlatteningKeepsPairing(codec: Codec, ms: seq<Message>)
    requires Paired(ms)
    ensures WirePaired(Runs(codec, ms))
    decreases |ms|
  {
    if ms != [] {
      var n := |ms| - 1;
      var init, last := ms[..n], ms[n];
      assert ms == init + [last];
      forall i: nat, id | i < |init| && Answers(init[i], id) ensures exists k: nat :: k < i && Asks(init[k], id) {
        assert Answers(ms[i], id);
        var k: nat :| k < i && Asks(ms[k], id);
        assert Asks(init[k], id);
      }
      FlatteningKeepsPairing(codec, init);
      RunsSnoc(codec, init, last);
      forall x: nat, id | x < |Runs(codec, ms)| && ToolIdOf(Runs(codec, ms)[x]) == Some(id)
        ensures exists y: nat :: y < x && Lists(Runs(codec, ms)[y], id)
      {
        LastRunPaired(codec, ms, x, id);
      }
    }
  }

  lemma AnswerIsListed(codec: Codec, ms: seq<Message>, id: string) returns (y: nat)
    requires ms != [] && Paired(ms) && Answers(ms[|ms| - 1], id)
    ensures y < |Runs(codec, ms[..|ms| - 1])| && Lists(Runs(codec, ms[..|ms| - 1])[y], id)
  {
    hide Runs, RunOf, Lists, Answers, Asks;
    var n := |ms| - 1;
    var init := ms[..n];
    var k: nat :| k < n && Asks(ms[k], id);
    assert init[k] == ms[k];
    AskIsListed(codec, init, k, id);
    y :| y < |Runs(codec, init)| && Lists(Runs(codec, init)[y], id);
  }

  lemma LastRunPaired(codec: Codec, ms: seq<Message>, x: nat, id: string)
    requires ms != [] && Paired(ms) && WirePaired(Runs(codec, ms[..|ms| - 1]))
    requires x < |Runs(codec, ms)| && ToolIdOf(Runs(codec, ms)[x]) == Some(id)
    ensures exists y: nat :: y < x && Lists(Runs(codec, ms)[y], id)
  {
    hide Runs, RunOf, Lists, Answers, Asks, ToolIdOf;
    var n := |ms| - 1;
    var init, last := ms[..n], ms[n];
    assert ms == init + [last];
    RunsSnoc(codec, init, last);
    var before := Runs(codec, init);
    if x < |before| {
      assert before[x] == Runs(codec, ms)[x];
      var y: nat :| y < x && Lists(before[y], id);
      assert Runs(codec, ms)[y] == before[y];
    } else {
      assert RunOf(codec, last)[x - |before|] == Runs(codec, ms)[x];
      RunAnswers(codec, last, x - |before|, id);
      var y := AnswerIsListed(codec, ms, id);
      assert Runs(codec, ms)[y] == before[y];
    }
  }

  // ----- every tool result appears once, in order --------------------------------------

  function OnlyToolMessages(wire: seq<Json>): seq<Json> {
    if wire == [] then [] else (if ToolIdOf(wire[0]).Some? then [wire[0]] else []) + OnlyToolMessages(wire[1..])
  }

  function AllToolMessages(ms: seq<Message>): seq<Json> {
    if ms == [] then [] else (if ms[0].User? then ToolMessages(ms[0].items) else []) + AllToolMessages(ms[1..])
  }

  lemma {:induction false} OnlyToolsAppend(a: seq<Json>, b: seq<Json>)
    ensures OnlyToolMessages(a + b) == OnlyToolMessages(a) + OnlyToolMessages(b)
  {
    if a == [] {
      Seqs.Unit(b);
      Seqs.Unit(OnlyToolMessages(b));
    } else {
      Seqs.TailOfSum(a, b);
      OnlyToolsAppend(a[1..], b);
      Seqs.Assoc(if ToolIdOf(a[0]).Some? then [a[0]] else [], OnlyToolMessages(a[1..]), OnlyToolMessages(b));
    }
  }

  lemma {:induction false} ToolMessagesAreTools(items: seq<UserContent>)
    ensures OnlyToolMessages(ToolMessages(items)) == ToolMessages(items)
  {
    if items != [] {
      ToolMessagesAreTools(items[1..]);
      if items[0].ToolResult? {
        var m := ToolMessage(items[0].toolUseId, items[0].content);
        Seqs.TailOfSum([m], ToolMessages(items[1..]));
        assert [m][1..] == [];
        Seqs.Unit(ToolMessages(items[1..]));
        assert ToolIdOf(m).Some?;
      } else {
        Seqs.Unit(ToolMessages(items[1..]));
      }
    }
  }

  lemma RunTools(codec: Codec, m: Message)
    ensures OnlyToolMessages(RunOf(codec, m)) == if m.User? then ToolMessages(m.items) else []
  {
    match m
    case System(prompt) =>
      assert [TextMessage("system", prompt)][1..] == [];
    case Assistant(blocks) =>
      assert At(AssistantMessage(codec, blocks), "role") == Str("assistant");
      assert [AssistantMessage(codec, blocks)][1..] == [];
    case User(items) =>
      var texts := UserTexts(items);
      var head := if texts == [] then [] else [TextMessage("user", Join(texts))];
      OnlyToolsAppend(head, ToolMessages(items));
      ToolMessagesAreTools(items);
      assert OnlyToolMessages(head) == [] by {
        if texts != [] {
          assert head[1..] == [];
        }
      }
      Seqs.Unit(ToolMessages(items));
  }

  /** The `tool` messages on the wire are the tool results, each once and in order. */
  lemma {:induction false} ToolResultsOnceInOrder(codec: Codec, ms: seq<Message>)
    ensures OnlyToolMessages(Runs(codec, ms)) == AllToolMessages(ms)
  {
    if ms != [] {
      RunTools(codec, ms[0]);
      OnlyToolsAppend(RunOf(codec, ms[0]), Runs(codec, ms[1..]));
      ToolResultsOnceInOrder(codec, ms[1..]);
    }
  }
}
