/** Conversation records shared by the chat engine and the language-model clients. */
module ChatTypes {
  import opened Wrappers

  /** A JSON value known by its text; only objects may be stored as tool input. */
  datatype Json = Obj(repr: string) | NonObj(repr: string, truthy: bool)

  const EMPTY_OBJECT: Json := Obj("{}")

  /** `value or {}` */
  function OrEmpty(j: Json): Json { if j.NonObj? && !j.truthy then EMPTY_OBJECT else j }

  datatype Block =
    | Text(text: string)
    | ToolUse(id: string, name: string, input: Json)
    | ToolResult(toolUseId: string, parts: seq<string>, isError: bool)
    | Unknown(kind: string)

  datatype Role = System | User | Assistant | Tool

  datatype Message = Message(role: Role, content: seq<Block>)

  class ChatSession {
    var messages: seq<Message>

    constructor ()
      ensures messages == []
    {
      messages := [];
    }

    method Append(m: Message)
      modifies this
      ensures messages == old(messages) + [m]
    {
      messages := messages + [m];
    }
  }

  function ToolUses(content: seq<Block>): (uses: seq<Block>)
    ensures forall i :: 0 <= i < |uses| ==> uses[i].ToolUse?
  {
    if content == [] then []
    else (if content[0].ToolUse? then [content[0]] else []) + ToolUses(content[1..])
  }

  function TextParts(content: seq<Block>): seq<string> {
    if content == [] then []
    else (if content[0].Text? then [content[0].text] else []) + TextParts(content[1..])
  }

  /** `"\n".join(parts)` */
  function JoinLines(parts: seq<string>): string {
    if parts == [] then "" else if |parts| == 1 then parts[0] else parts[0] + "\n" + JoinLines(parts[1..])
  }

  /** `text.split("\n")` */
  function SplitLines(text: string): (parts: seq<string>)
    ensures parts != []
  {
    if text == "" then [""]
    else
      var rest := SplitLines(text[1..]);
      if text[0] == '\n' then [""] + rest else [[text[0]] + rest[0]] + rest[1..]
  }

  lemma {:induction false} SplitsAtFirst(line: string, text: string)
    requires '\n' !in line
    ensures SplitLines(line) == [line]
    ensures SplitLines(line + "\n" + text) == [line] + SplitLines(text)
  {
    var whole := line + "\n" + text;
    if line == "" {
      assert whole[1..] == text;
    } else {
      SplitsAtFirst(line[1..], text);
      assert whole[1..] == line[1..] + "\n" + text;
      assert [line[0]] + line[1..] == line;
    }
  }

  /** Splitting the joined text at its line ends gives the parts back. */
  lemma {:induction false} JoinedPartsSplit(parts: seq<string>)
    requires parts != [] && forall i :: 0 <= i < |parts| ==> '\n' !in parts[i]
    ensures SplitLines(JoinLines(parts)) == parts
  {
    if |parts| == 1 {
      SplitsAtFirst(parts[0], "");
    } else {
      JoinedPartsSplit(parts[1..]);
      SplitsAtFirst(parts[0], JoinLines(parts[1..]));
    }
  }

  /** The calls and the texts of a content are those of its parts, in order. */
  lemma {:induction false} PartsAppend(s: seq<Block>, t: seq<Block>)
    ensures ToolUses(s + t) == ToolUses(s) + ToolUses(t)
    ensures TextParts(s + t) == TextParts(s) + TextParts(t)
  {
    if s == [] {
      assert s + t == t;
    } else {
      assert (s + t)[1..] == s[1..] + t;
      PartsAppend(s[1..], t);
    }
  }

  /** A block is one call, one text, or neither. */
  lemma PartsOfOne(b: Block)
    ensures ToolUses([b]) == if b.ToolUse? then [b] else []
    ensures TextParts([b]) == if b.Text? then [b.text] else []
  {
    assert [b][1..] == [];
  }
}

/** Translation of the history to the OpenAI chat-completions format. */
module Translation {
  import opened Wrappers
  import opened ChatTypes

  datatype Call = Call(id: string, name: string, arguments: string)

  datatype OaiMessage = OaiMessage(
    role: Role, content: Option<string>, toolCallId: Option<string>, toolCalls: seq<Call>)

  // ---------- reference ----------

  function ToolMessages(content: seq<Block>): seq<OaiMessage> {
    if content == [] then []
    else (if content[0].ToolResult?
          then [OaiMessage(Tool, Some(JoinLines(content[0].parts)), Some(content[0].toolUseId), [])] else [])
         + ToolMessages(content[1..])
  }

  function Calls(content: seq<Block>): seq<Call> {
    if content == [] then []
    else (if content[0].ToolUse? then [Call(content[0].id, content[0].name, content[0].input.repr)] else [])
         + Calls(content[1..])
  }

  function TranslateOne(m: Message): seq<OaiMessage> {
    var texts := TextParts(m.content);
    match m.role
    case User =>
      ToolMessages(m.content) + (if texts == [] then [] else [OaiMessage(User, Some(JoinLines(texts)), None, [])])
    case Assistant =>
      var calls := Calls(m.content);
      if texts == [] && calls == [] then []
      else [OaiMessage(Assistant, if texts == [] then None else Some(JoinLines(texts)), None, calls)]
    case _ => []
  }

  function TranslateAll(messages: seq<Message>): seq<OaiMessage> {
    if messages == [] then [] else TranslateOne(messages[0]) + TranslateAll(messages[1..])
  }

  function Translate(system: string, messages: seq<Message>): seq<OaiMessage> {
    (if system == "" then [] else [OaiMessage(System, Some(system), None, [])]) + TranslateAll(messages)
  }

  // ---------- the code ----------

  method MessagesToOpenAi(system: string, messages: seq<Message>) returns (out: seq<OaiMessage>)
    ensures out == Translate(system, messages)
  {
    hide TranslateOne;
    out := [];
    if system != "" {
      out := out + [OaiMessage(System, Some(system), None, [])];
    }
    for i := 0 to |messages|
      invariant out + TranslateAll(messages[i..]) == Translate(system, messages)
    {
      assert messages[i..][0] == messages[i] && messages[i..][1..] == messages[i + 1..];
      ghost var before := out;
      out := AppendTranslated(out, messages[i]);
      assert out + TranslateAll(messages[i + 1..])
          == before + (TranslateOne(messages[i]) + TranslateAll(messages[i + 1..]));
    }
    assert messages[|messages|..] == [];
  }

  method AppendTranslated(before: seq<OaiMessage>, m: Message) returns (out: seq<OaiMessage>)
    ensures out == before + TranslateOne(m)
  {
    assert m == Message(m.role, m.content);
    if m.role == User {
      out := AppendUser(before, m.content);
    } else if m.role == Assistant {
      out := AppendAssistant(before, m.content);
    } else {
      out := before;
    }
  }

  method AppendUser(before: seq<OaiMessage>, content: seq<Block>) returns (out: seq<OaiMessage>)
    ensures out == before + TranslateOne(Message(User, content))
  {
    out := before;
    var texts: seq<string> := [];
    for j := 0 to |content|
      invariant out + ToolMessages(content[j..]) == before + ToolMessages(content)
      invariant texts + TextParts(content[j..]) == TextParts(content)
    {
      var block := content[j];
      assert content[j..][0] == block && content[j..][1..] == content[j + 1..];
      if block.Text? {
        texts := texts + [block.text];
      } else if block.ToolResult? {
        out := out + [OaiMessage(Tool, Some(JoinLines(block.parts)), Some(block.toolUseId), [])];
      }
    }
    assert content[|content|..] == [];
    assert out == before + ToolMessages(content) && texts == TextParts(content);
    if texts != [] {
      out := out + [OaiMessage(User, Some(JoinLines(texts)), None, [])];
    }
  }

  method AppendAssistant(before: seq<OaiMessage>, content: seq<Block>) returns (out: seq<OaiMessage>)
    ensures out == before + TranslateOne(Message(Assistant, content))
  {
    var texts: seq<string> := [];
    var calls: seq<Call> := [];
    for j := 0 to |content|
      invariant calls + Calls(content[j..]) == Calls(content)
      invariant texts + TextParts(content[j..]) == TextParts(content)
    {
      var block := content[j];
      assert content[j..][0] == block && content[j..][1..] == content[j + 1..];
      if block.Text? {
        texts := texts + [block.text];
      } else if block.ToolUse? {
        calls := calls + [Call(block.id, block.name, block.input.repr)];
      }
    }
    assert content[|content|..] == [];
    assert calls == Calls(content) && texts == TextParts(content);
    var text := None;
    if texts != [] {
      text := Some(JoinLines(texts));
    }
    out := before;
    if text.Some? || calls != [] {
      out := out + [OaiMessage(Assistant, text, None, calls)];
    }
  }

  // ---------- what a translated turn says ----------

  lemma {:induction false} CallsOfUses(content: seq<Block>)
    ensures |Calls(content)| == |ToolUses(content)|
    ensures forall j :: 0 <= j < |Calls(content)| ==>
              var use := ToolUses(content)[j];
              Calls(content)[j] == Call(use.id, use.name, use.input.repr)
  {
    if content != [] {
      CallsOfUses(content[1..]);
    }
  }

  lemma {:induction false} ToolMessagesAppend(s: seq<Block>, t: seq<Block>)
    ensures ToolMessages(s + t) == ToolMessages(s) + ToolMessages(t)
  {
    if s == [] {
      assert s + t == t;
    } else {
      assert (s + t)[1..] == s[1..] + t;
      ToolMessagesAppend(s[1..], t);
    }
  }

  /** What the provider gets of an assistant turn: its calls one by one and its joined text, if there is either. */
  lemma AssistantTurnMeaning(content: seq<Block>)
    ensures var uses, texts := ToolUses(content), TextParts(content);
      var out := TranslateOne(Message(Assistant, content));
      if uses == [] && texts == [] then out == []
      else
        |out| == 1 && out[0].role == Assistant && out[0].toolCallId == None
        && out[0].content == (if texts == [] then None else Some(JoinLines(texts)))
        && |out[0].toolCalls| == |uses|
        && forall j :: 0 <= j < |uses| ==>
             out[0].toolCalls[j].id == uses[j].id && out[0].toolCalls[j].name == uses[j].name
             && out[0].toolCalls[j].arguments == uses[j].input.repr
  {
    CallsOfUses(content);
  }

  /** What a user turn of one block more consists of. */
  lemma OneBlockMore(content: seq<Block>, b: Block)
    ensures ToolMessages(content + [b])
         == if b.ToolResult? then ToolMessages(content) + [OaiMessage(Tool, Some(JoinLines(b.parts)),
                                                                      Some(b.toolUseId), [])]
            else ToolMessages(content)
    ensures TextParts(content + [b]) == if b.Text? then TextParts(content) + [b.text] else TextParts(content)
  {
    PartsAppend(content, [b]);
    PartsOfOne(b);
    ToolMessagesAppend(content, [b]);
    assert [b][1..] == [];
    assert ToolMessages(content) + [] == ToolMessages(content) && TextParts(content) + [] == TextParts(content);
  }

  /** What it gets of a user turn with one block more: another tool message before the text, or a longer text. */
  lemma UserTurnMeaning(content: seq<Block>, b: Block)
    ensures var out, out' := TranslateOne(Message(User, content)), TranslateOne(Message(User, content + [b]));
      var n, texts := |ToolMessages(content)|, TextParts(content);
      n <= |out|
      && (texts == [] ==> n == |out|)
      && (b.ToolResult? ==>
            out' == out[..n] + [OaiMessage(Tool, Some(JoinLines(b.parts)), Some(b.toolUseId), [])] + out[n..])
      && (b.Text? ==> out' == out[..n] + [OaiMessage(User, Some(JoinLines(texts + [b.text])), None, [])])
      && (b.ToolUse? || b.Unknown? ==> out' == out)
  {
    hide ToolMessages, TextParts, JoinLines;
    OneBlockMore(content, b);
  }

  // ---------- what the receiving API demands ----------

  /** Every assistant message is followed at once by one tool message per call, in order, and there are no others. */
  predicate Paired(out: seq<OaiMessage>) {
    out == [] ||
    var m := |out[0].toolCalls|;
    out[0].role != Tool && m < |out| && AnsweredBy(out[0].toolCalls, out[1..m + 1]) && Paired(out[m + 1..])
  }

  predicate AnsweredBy(calls: seq<Call>, answers: seq<OaiMessage>) {
    |calls| == |answers|
    && forall j :: 0 <= j < |calls| ==>
         answers[j].role == Tool && answers[j].toolCallId == Some(calls[j].id) && answers[j].toolCalls == []
  }

  /** The message at `i` is answered: its calls in order by the messages right after it, and by no more than those. */
  predicate Answered(out: seq<OaiMessage>, i: nat)
    requires i < |out|
  {
    var m := |out[i].toolCalls|;
    i + m < |out|
    && AnsweredBy(out[i].toolCalls, out[i + 1..i + m + 1])
    && (i + m + 1 < |out| ==> out[i + m + 1].role != Tool)
  }

  lemma AnsweredShift(out: seq<OaiMessage>, c: nat, i: nat)
    requires c <= i < |out|
    ensures Answered(out, i) <==> Answered(out[c..], i - c)
  {
    var m := |out[i].toolCalls|;
    if i + m < |out| {
      assert out[i + 1..i + m + 1] == out[c..][i - c + 1..i - c + m + 1];
    }
  }

  /** From position `c` on, every message that is not itself an answer is answered. */
  predicate AllAnswered(out: seq<OaiMessage>, c: nat) {
    forall i :: c <= i < |out| && out[i].role != Tool ==> Answered(out, i)
  }

  lemma AllAnsweredShift(out: seq<OaiMessage>, c: nat)
    requires c <= |out|
    ensures AllAnswered(out, c) <==> AllAnswered(out[c..], 0)
  {
    hide Answered;
    var rest := out[c..];
    if AllAnswered(out, c) {
      forall i | 0 <= i < |rest| && rest[i].role != Tool
        ensures Answered(rest, i)
      {
        AnsweredShift(out, c, i + c);
      }
    }
    if AllAnswered(rest, 0) {
      forall i | c <= i < |out| && out[i].role != Tool
        ensures Answered(out, i)
      {
        assert rest[i - c] == out[i];
        AnsweredShift(out, c, i);
      }
    }
  }

  /** The same demand position by position: no answer comes first, and every other message is answered. */
  lemma {:induction false} PairedMeaning(out: seq<OaiMessage>)
    ensures Paired(out) <==> (out == [] || out[0].role != Tool) && AllAnswered(out, 0)
    decreases |out|
  {
    if out == [] || out[0].role == Tool {
    } else if |out[0].toolCalls| < |out| && AnsweredBy(out[0].toolCalls, out[1..|out[0].toolCalls| + 1]) {
      var m := |out[0].toolCalls|;
      PairedMeaning(out[m + 1..]);
      AllAnsweredShift(out, m + 1);
      FirstAnswered(out, m);
    } else {
      assert !Answered(out, 0);
    }
  }

  lemma FirstAnswered(out: seq<OaiMessage>, m: nat)
    requires out != [] && out[0].role != Tool && m == |out[0].toolCalls| < |out|
    requires AnsweredBy(out[0].toolCalls, out[1..m + 1])
    ensures AllAnswered(out, 0) <==> (m + 1 < |out| ==> out[m + 1].role != Tool) && AllAnswered(out, m + 1)
  {
    assert forall i :: 1 <= i <= m ==> out[i] == out[1..m + 1][i - 1];
    if AllAnswered(out, 0) {
      assert Answered(out, 0);
    }
  }

  lemma Slices(s: seq<OaiMessage>, t: seq<OaiMessage>, n: nat)
    requires 0 < n <= |s|
    ensures (s + t)[0] == s[0] && (s + t)[1..n] == s[1..n] && (s + t)[n..] == s[n..] + t
  {
  }

  lemma {:induction false} PairedConcat(s: seq<OaiMessage>, t: seq<OaiMessage>)
    requires Paired(s)
    ensures Paired(s + t) <==> Paired(t)
  {
    hide AnsweredBy;
    if s == [] {
      assert s + t == t;
    } else {
      var m := |s[0].toolCalls|;
      PairedConcat(s[m + 1..], t);
      Slices(s, t, m + 1);
    }
  }

  lemma {:induction false} TranslateConcat(s: seq<Message>, t: seq<Message>)
    ensures TranslateAll(s + t) == TranslateAll(s) + TranslateAll(t)
  {
    if s == [] {
      assert s + t == t;
    } else {
      assert (s + t)[1..] == s[1..] + t;
      TranslateConcat(s[1..], t);
    }
  }
}
