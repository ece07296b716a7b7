/** The bounded tool loop that drives one user turn. */
module Engine {
  import opened Wrappers
  import opened ChatTypes

  datatype LlmOutcome = Reply(content: seq<Block>, stopReason: string) | LlmError(message: string)

  /** What executing a tool gives: a JSON value, a value `json.dumps` refuses, or an exception. */
  datatype ToolOutcome = Output(value: Json) | Unserialisable | Raised(message: string)

  datatype ToolCallRecord = ToolCallRecord(tool: string, input: Json, output: Json, error: Option<string>)

  /** The two ways a run can die between recording tool calls and recording their answers. */
  datatype Failure = RecordRejected | NotSerialisable

  datatype TurnResult =
    | Finished(reply: string, toolCalls: seq<ToolCallRecord>, finishReason: string, iterations: nat)
    | MaxIterations(lastStopReason: string)
    | LlmFailed(message: string)
    | Aborted(failure: Failure)

  /** The environment of one run: any model (it sees the iteration and the history) and any tools. */
  datatype Env = Env(llm: (nat, seq<Message>) -> LlmOutcome, exec: (nat, string, Json) -> ToolOutcome)

  function UserText(text: string): Message { Message(User, [Text(text)]) }

  // ---------- reference ----------

  /** Why the outcome of a call cannot be recorded and reported, if it cannot. */
  function CallFailure(input: Json, outcome: ToolOutcome): (f: Option<Failure>)
    ensures outcome.Unserialisable? ==> f.Some?
  {
    if !input.Obj? || (outcome.Output? && !outcome.value.Obj?) then Some(RecordRejected)
    else if outcome.Unserialisable? then Some(NotSerialisable)
    else None
  }

  function Record(name: string, input: Json, outcome: ToolOutcome): ToolCallRecord
    requires !outcome.Unserialisable?
  {
    match outcome
    case Output(v) => ToolCallRecord(name, input, v, None)
    case Raised(m) => ToolCallRecord(name, input, EMPTY_OBJECT, Some(m))
  }

  function Payload(r: ToolCallRecord): string {
    match r.error case Some(m) => m case None => r.output.repr
  }

  function Answer(id: string, r: ToolCallRecord): Block { ToolResult(id, [Payload(r)], r.error.Some?) }

  datatype Phase = Phase(records: seq<ToolCallRecord>, blocks: seq<Block>, failure: Option<Failure>)

  /** Executes the calls of one assistant turn in order, stopping at the first that cannot be reported. */
  function ToolPhase(uses: seq<Block>, exec: (nat, string, Json) -> ToolOutcome, done: nat): Phase
    requires forall i :: 0 <= i < |uses| ==> uses[i].ToolUse?
  {
    if uses == [] then Phase([], [], None)
    else
      var input := OrEmpty(uses[0].input);
      var outcome := exec(done, uses[0].name, input);
      var failure := CallFailure(input, outcome);
      if failure.Some? then Phase([], [], failure)
      else
        var r := Record(uses[0].name, input, outcome);
        var rest := ToolPhase(uses[1..], exec, done + 1);
        Extended([r], [Answer(uses[0].id, r)], rest)
  }

  function Extended(records: seq<ToolCallRecord>, blocks: seq<Block>, rest: Phase): Phase {
    Phase(records + rest.records, blocks + rest.blocks, rest.failure)
  }

  lemma ExtendedTwice(records: seq<ToolCallRecord>, blocks: seq<Block>, r: ToolCallRecord, b: Block, rest: Phase)
    ensures Extended(records, blocks, Extended([r], [b], rest)) == Extended(records + [r], blocks + [b], rest)
  {
  }

  lemma ExtendedEnds(none: seq<ToolCallRecord>, nothing: seq<Block>, p: Phase)
    requires none == [] && nothing == []
    ensures Extended(none, nothing, p) == p
  {
  }

  lemma ExtendedByNone(records: seq<ToolCallRecord>, blocks: seq<Block>, f: Option<Failure>)
    ensures Extended(records, blocks, Phase([], [], f)) == Phase(records, blocks, f)
  {
  }

  lemma EmptyPhase(exec: (nat, string, Json) -> ToolOutcome, done: nat)
    ensures ToolPhase([], exec, done) == Phase([], [], None)
  {
  }

  lemma PhaseStep(uses: seq<Block>, i: nat, exec: (nat, string, Json) -> ToolOutcome, done: nat)
    requires i < |uses| && forall i :: 0 <= i < |uses| ==> uses[i].ToolUse?
    ensures var input := OrEmpty(uses[i].input);
      var outcome := exec(done, uses[i].name, input);
      ToolPhase(uses[i..], exec, done)
      == if CallFailure(input, outcome).Some? then Phase([], [], CallFailure(input, outcome))
         else
           var r := Record(uses[i].name, input, outcome);
           Extended([r], [Answer(uses[i].id, r)], ToolPhase(uses[i + 1..], exec, done + 1))
  {
    assert uses[i..][0] == uses[i] && uses[i..][1..] == uses[i + 1..];
  }

  /** The final history and result, and the histories the model was shown on the way. */
  datatype Outcome = Outcome(messages: seq<Message>, result: TurnResult, requests: seq<seq<Message>>)

  /** Iterations `iteration` to `maxIters`, from a history that already ends with the user's turn. */
  function Drive(history: seq<Message>, env: Env, iteration: nat, maxIters: int,
                 records: seq<ToolCallRecord>, lastStop: string): Outcome
    decreases maxIters - iteration
  {
    if iteration > maxIters then Outcome(history, MaxIterations(lastStop), [])
    else
      match env.llm(iteration, history)
      case LlmError(m) => Outcome(history, LlmFailed(m), [history])
      case Reply(content, stop) =>
        var told := history + [Message(Assistant, content)];
        var uses := ToolUses(content);
        if uses == [] then
          Outcome(told, Finished(JoinLines(TextParts(content)), records,
                                 if stop == "" then "end_turn" else stop, iteration), [history])
        else
          var phase := ToolPhase(uses, env.exec, |records|);
          if phase.failure.Some? then Outcome(told, Aborted(phase.failure.value), [history])
          else
            var rest := Drive(told + [Message(User, phase.blocks)], env, iteration + 1, maxIters,
                              records + phase.records, stop);
            Outcome(rest.messages, rest.result, [history] + rest.requests)
  }

  function RunOutcome(history: seq<Message>, userText: string, env: Env, maxIters: int): Outcome {
    Drive(history + [UserText(userText)], env, 1, maxIters, [], "")
  }

  // ---------- the code ----------

  class ChatEngine {
    const env: Env
    const maxIters: int

    constructor (env: Env, maxIters: int)
      ensures this.env == env && this.maxIters == maxIters
    {
      this.env := env;
      this.maxIters := maxIters;
    }

    method Run(session: ChatSession, userText: string) returns (r: TurnResult)
      modifies session
      ensures var o := RunOutcome(old(session.messages), userText, env, maxIters);
        session.messages == o.messages && r == o.result
    {
      session.Append(UserText(userText));
      var records: seq<ToolCallRecord> := [];
      var lastStop := "";
      var iteration: nat := 1;
      ghost var target := RunOutcome(old(session.messages), userText, env, maxIters);
      while iteration <= maxIters
        invariant var o := Drive(session.messages, env, iteration, maxIters, records, lastStop);
          o.messages == target.messages && o.result == target.result
        decreases maxIters - iteration
      {
        var reply := env.llm(iteration, session.messages);
        if reply.LlmError? {
          return LlmFailed(reply.message);
        }
        lastStop := reply.stopReason;
        session.Append(Message(Assistant, reply.content));
        var uses := ToolUses(reply.content);
        if uses == [] {
          return Finished(JoinLines(TextParts(reply.content)), records,
                          if reply.stopReason == "" then "end_turn" else reply.stopReason, iteration);
        }
        var phase := ExecuteAll(uses, |records|);
        if phase.failure.Some? {
          return Aborted(phase.failure.value);
        }
        records := records + phase.records;
        session.Append(Message(User, phase.blocks));
        iteration := iteration + 1;
      }
      return MaxIterations(lastStop);
    }

    method ExecuteAll(uses: seq<Block>, done: nat) returns (phase: Phase)
      requires forall i :: 0 <= i < |uses| ==> uses[i].ToolUse?
      ensures phase == ToolPhase(uses, env.exec, done)
    {
      hide Record, Answer, Extended, CallFailure, OrEmpty, ToolPhase;
      var records: seq<ToolCallRecord> := [];
      var blocks: seq<Block> := [];
      ExtendedEnds(records, blocks, ToolPhase(uses, env.exec, done));
      assert uses[0..] == uses;
      for i := 0 to |uses|
        invariant ToolPhase(uses, env.exec, done)
               == Extended(records, blocks, ToolPhase(uses[i..], env.exec, done + i))
        invariant |records| == i
      {
        PhaseStep(uses, i, env.exec, done + i);
        var input := OrEmpty(uses[i].input);
        var outcome := env.exec(done + i, uses[i].name, input);
        var failure := CallFailure(input, outcome);
        if failure.Some? {
          ExtendedByNone(records, blocks, failure);
          return Phase(records, blocks, failure);
        }
        var r := Record(uses[i].name, input, outcome);
        ExtendedTwice(records, blocks, r, Answer(uses[i].id, r), ToolPhase(uses[i + 1..], env.exec, done + i + 1));
        records := records + [r];
        blocks := blocks + [Answer(uses[i].id, r)];
      }
      assert uses[|uses|..] == [];
      EmptyPhase(env.exec, done + |uses|);
      ExtendedByNone(records, blocks, None);
      phase := Phase(records, blocks, None);
    }
  }
}

/** What every run keeps, and what that means for the translated history. */
module ChatProtocol {
  import opened Wrappers
  import opened ChatTypes
  import opened Translation
  import opened Engine

  // ---------- one assistant turn and its answers ----------

  /** Executed as call number `n` of the run, `use` is recorded, and its answer tells the model the output's text, or
      the exception's and that it is one. */
  predicate Told(use: Block, exec: (nat, string, Json) -> ToolOutcome, n: nat, record: ToolCallRecord, answer: Block) {
    use.ToolUse?
    && var input := if use.input.NonObj? && !use.input.truthy then Obj("{}") else use.input;
    input.Obj?
    && match exec(n, use.name, input)
    case Output(v) =>
      v.Obj? && record == ToolCallRecord(use.name, input, v, None) && answer == ToolResult(use.id, [v.repr], false)
    case Raised(m) =>
      record == ToolCallRecord(use.name, input, Obj("{}"), Some(m)) && answer == ToolResult(use.id, [m], true)
    case Unserialisable => false
  }

  lemma {:induction false} PhaseAnswers(uses: seq<Block>, exec: (nat, string, Json) -> ToolOutcome, done: nat)
    requires forall i :: 0 <= i < |uses| ==> uses[i].ToolUse?
    ensures var phase := ToolPhase(uses, exec, done);
      TextParts(phase.blocks) == []
      && (phase.failure.None? ==>
            |ToolMessages(phase.blocks)| == |uses| == |phase.records| == |phase.blocks|
            && forall j :: 0 <= j < |uses| ==>
                 var t := ToolMessages(phase.blocks)[j];
                 t.role == Tool && t.toolCallId == Some(uses[j].id) && t.toolCalls == []
                 && phase.blocks[j].ToolResult?)
  {
    if uses != [] {
      PhaseAnswers(uses[1..], exec, done + 1);
    }
  }

  /** A tool phase records the calls before the first bad one, each with its input and what came of it, and tells the
      model that. */
  lemma {:induction false} PhaseTells(uses: seq<Block>, exec: (nat, string, Json) -> ToolOutcome, done: nat)
    requires forall i :: 0 <= i < |uses| ==> uses[i].ToolUse?
    ensures var phase := ToolPhase(uses, exec, done);
      var n := |phase.records|;
      n == |phase.blocks| <= |uses|
      && (forall j :: 0 <= j < n ==> Told(uses[j], exec, done + j, phase.records[j], phase.blocks[j]))
      && if n == |uses| then phase.failure.None?
         else phase.failure == Some(FailureOf(uses[n], exec, done + n)) && BadCall(uses, n, exec, done)
  {
    hide Told, Record, Answer, OrEmpty, CallFailure, FailureOf, BadCall;
    if uses != [] {
      var phase, rest := ToolPhase(uses, exec, done), ToolPhase(uses[1..], exec, done + 1);
      PhaseTells(uses[1..], exec, done + 1);
      ToldOrBad(uses, exec, done);
      if phase.records != [] {
        var n := |rest.records|;
        forall j | 0 <= j <= n
          ensures Told(uses[j], exec, done + j, phase.records[j], phase.blocks[j])
        {
          if j > 0 {
            assert Told(uses[1..][j - 1], exec, done + 1 + (j - 1), rest.records[j - 1], rest.blocks[j - 1]);
          }
        }
        if n < |uses| - 1 {
          BadLater(uses, n, exec, done);
        }
      }
    }
  }

  /** Why the call of a bad turn kills the run: a value that is no object comes before one that is not serialisable. */
  function FailureOf(use: Block, exec: (nat, string, Json) -> ToolOutcome, n: nat): Failure
    requires use.ToolUse?
  {
    if OrEmpty(use.input).Obj? && exec(n, use.name, OrEmpty(use.input)).Unserialisable? then NotSerialisable
    else RecordRejected
  }

  lemma ToldOrBad(uses: seq<Block>, exec: (nat, string, Json) -> ToolOutcome, n: nat)
    requires uses != [] && uses[0].ToolUse?
    ensures var use := uses[0];
      var outcome := exec(n, use.name, OrEmpty(use.input));
      var failure := CallFailure(OrEmpty(use.input), outcome);
      if failure.Some? then failure == Some(FailureOf(use, exec, n)) && BadCall(uses, 0, exec, n)
      else
        var r := Record(use.name, OrEmpty(use.input), outcome);
        Told(use, exec, n, r, Answer(use.id, r))
  {
    assert n + 0 == n;
  }

  lemma BadLater(uses: seq<Block>, i: nat, exec: (nat, string, Json) -> ToolOutcome, done: nat)
    requires i + 1 < |uses| && uses[i + 1].ToolUse?
    ensures BadCall(uses[1..], i, exec, done + 1) == BadCall(uses, i + 1, exec, done)
  {
    assert uses[1..][i] == uses[i + 1] && done + 1 + i == done + (i + 1);
  }

  /** A completed tool round translates to a message with calls and exactly its answers. */
  lemma RoundIsPaired(content: seq<Block>, exec: (nat, string, Json) -> ToolOutcome, done: nat)
    requires ToolUses(content) != []
    requires ToolPhase(ToolUses(content), exec, done).failure.None?
    ensures Paired(TranslateAll([Message(Assistant, content),
                                 Message(User, ToolPhase(ToolUses(content), exec, done).blocks)]))
  {
    var blocks := ToolPhase(ToolUses(content), exec, done).blocks;
    var turn, answers := Message(Assistant, content), Message(User, blocks);
    CallsOfUses(content);
    PhaseAnswers(ToolUses(content), exec, done);
    assert TranslateOne(turn) == [TranslateOne(turn)[0]] && TranslateOne(turn)[0].toolCalls == Calls(content);
    assert TranslateOne(answers) == ToolMessages(blocks);
    TranslatePair(turn, answers);
    CallsThenAnswers(TranslateOne(turn)[0], ToolMessages(blocks));
  }

  lemma TranslatePair(m: Message, n: Message)
    ensures TranslateAll([m, n]) == TranslateOne(m) + TranslateOne(n)
  {
    assert [m, n][1..] == [n] && [n][1..] == [];
    assert TranslateAll([n]) == TranslateOne(n);
  }

  lemma CallsThenAnswers(head: OaiMessage, answers: seq<OaiMessage>)
    requires head.role != Tool && AnsweredBy(head.toolCalls, answers)
    ensures Paired([head] + answers)
  {
    var out := [head] + answers;
    assert out[1..|answers| + 1] == answers && out[|answers| + 1..] == [];
  }

  lemma PlainTurnIsPaired(m: Message)
    requires (m.role == Assistant && ToolUses(m.content) == []) || (m.role == User && ToolMessages(m.content) == [])
    ensures Paired(TranslateAll([m]))
  {
    CallsOfUses(m.content);
    assert [m][1..] == [];
    assert TranslateAll([m]) == TranslateOne(m);
    if m.role == User && TextParts(m.content) != [] {
      var u := TranslateOne(m);
      assert u[1..] == [] && u[1..1] == [];
    } else if m.role == Assistant && TextParts(m.content) != [] {
      var u := TranslateOne(m);
      assert u[1..] == [] && u[1..1] == [];
    }
  }

  /** Paired histories stay paired when a paired piece is appended. */
  lemma AppendPaired(history: seq<Message>, piece: seq<Message>)
    requires Paired(TranslateAll(history)) && Paired(TranslateAll(piece))
    ensures Paired(TranslateAll(history + piece))
  {
    TranslateConcat(history, piece);
    PairedConcat(TranslateAll(history), TranslateAll(piece));
  }

  // ---------- one run ----------

  /** An answerless call: the message at `i` has calls and what follows it is no answer. */
  predicate Dangling(out: seq<OaiMessage>, i: nat) {
    i < |out| && out[i].role != Tool && out[i].toolCalls != [] && (i + 1 < |out| ==> out[i + 1].role != Tool)
  }

  lemma DanglingIsNotPaired(out: seq<OaiMessage>, i: nat)
    requires Dangling(out, i)
    ensures !Paired(out)
  {
    PairedMeaning(out);
    if Answered(out, i) {
      assert out[i + 1..i + |out[i].toolCalls| + 1][0] == out[i + 1];
    }
  }

  /** From a paired history, a run shows the model paired histories only, and leaves one exactly unless it aborts. */
  lemma {:induction false} DriveKeepsPairing(history: seq<Message>, env: Env, iteration: nat, maxIters: int,
                                             records: seq<ToolCallRecord>, lastStop: string)
    requires Paired(TranslateAll(history))
    ensures var o := Drive(history, env, iteration, maxIters, records, lastStop);
      history <= o.messages
      && (forall q :: q in o.requests ==> Paired(TranslateAll(q)))
      && (!o.result.Aborted? ==> Paired(TranslateAll(o.messages)))
      && (o.result.Aborted? ==>
            exists i: nat :: i + 1 == |TranslateAll(o.messages)| && Dangling(TranslateAll(o.messages), i))
    decreases maxIters - iteration
  {
    hide TranslateAll, Paired, ToolPhase;
    if iteration <= maxIters && env.llm(iteration, history).Reply? {
      var content := env.llm(iteration, history).content;
      var turn := Message(Assistant, content);
      var uses := ToolUses(content);
      if uses == [] {
        PlainTurnIsPaired(turn);
        AppendPaired(history, [turn]);
      } else {
        var phase := ToolPhase(uses, env.exec, |records|);
        if phase.failure.Some? {
          AbortLeavesDangling(history, content);
        } else {
          RoundIsPaired(content, env.exec, |records|);
          AppendPaired(history, [turn, Message(User, phase.blocks)]);
          assert history + [turn] + [Message(User, phase.blocks)] == history + [turn, Message(User, phase.blocks)];
          DriveKeepsPairing(history + [turn] + [Message(User, phase.blocks)], env, iteration + 1, maxIters,
                            records + phase.records, env.llm(iteration, history).stopReason);
        }
      }
    }
  }

  lemma AbortLeavesDangling(history: seq<Message>, content: seq<Block>)
    requires ToolUses(content) != []
    ensures var out := TranslateAll(history + [Message(Assistant, content)]);
      out != [] && Dangling(out, |out| - 1)
  {
    var turn := Message(Assistant, content);
    CallsOfUses(content);
    TranslateConcat(history, [turn]);
    assert [turn][1..] == [];
    assert TranslateAll([turn]) == TranslateOne(turn);
  }

  lemma {:induction false} DriveExtends(history: seq<Message>, env: Env, iteration: nat, maxIters: int,
                                        records: seq<ToolCallRecord>, lastStop: string)
    ensures history <= Drive(history, env, iteration, maxIters, records, lastStop).messages
    decreases maxIters - iteration
  {
    if iteration <= maxIters && env.llm(iteration, history).Reply? {
      var reply := env.llm(iteration, history);
      var uses := ToolUses(reply.content);
      var phase := ToolPhase(uses, env.exec, |records|);
      if uses != [] && phase.failure.None? {
        DriveExtends(history + [Message(Assistant, reply.content)] + [Message(User, phase.blocks)],
                     env, iteration + 1, maxIters, records + phase.records, reply.stopReason);
      }
    }
  }

  /** How a run ends follows from what the model answered to its last request. */
  lemma {:induction false} DriveEnds(history: seq<Message>, env: Env, iteration: nat, maxIters: int,
                                     records: seq<ToolCallRecord>, lastStop: string)
    ensures var o := Drive(history, env, iteration, maxIters, records, lastStop);
      if o.requests == [] then iteration > maxIters && o.messages == history && o.result == MaxIterations(lastStop)
      else
        o.requests[0] == history
        && EndsAt(env, iteration + |o.requests| - 1, o.requests[|o.requests| - 1], maxIters, o.messages, o.result)
    decreases maxIters - iteration
  {
    hide ToolPhase, EndsAt;
    if iteration <= maxIters {
      var o := Drive(history, env, iteration, maxIters, records, lastStop);
      var reply := env.llm(iteration, history);
      if reply.Reply? && ToolUses(reply.content) != [] {
        var phase := ToolPhase(ToolUses(reply.content), env.exec, |records|);
        if phase.failure.None? {
          var turn, answers := Message(Assistant, reply.content), Message(User, phase.blocks);
          DriveEnds(history + [turn] + [answers], env, iteration + 1, maxIters, records + phase.records,
                    reply.stopReason);
          if iteration == maxIters {
            CappedAt(env, iteration, history, phase.blocks);
          }
        } else {
          EndedAt(env, iteration, history, maxIters, o.messages, o.result);
        }
      } else {
        EndedAt(env, iteration, history, maxIters, o.messages, o.result);
      }
    }
  }

  /** The model, shown `last` at iteration `n`, fails, or answers without calls, or its calls abort the run, or they
      were the last ones allowed. */
  predicate EndsAt(env: Env, n: nat, last: seq<Message>, maxIters: int, messages: seq<Message>, result: TurnResult) {
    match env.llm(n, last)
    case LlmError(m) => messages == last && result == LlmFailed(m)
    case Reply(content, stop) =>
      var told := last + [Message(Assistant, content)];
      if ToolUses(content) == [] then
        messages == told && result.Finished? && result.iterations == n
        && result.reply == JoinLines(TextParts(content))
        && result.finishReason == (if stop == "" then "end_turn" else stop)
      else
        (messages == told && result.Aborted?)
        || (n == maxIters && result == MaxIterations(stop)
            && |messages| == |told| + 1 && messages[..|told|] == told && messages[|told|].role == User)
  }

  lemma CappedAt(env: Env, n: nat, history: seq<Message>, blocks: seq<Block>)
    requires env.llm(n, history).Reply? && ToolUses(env.llm(n, history).content) != []
    ensures var reply := env.llm(n, history);
      EndsAt(env, n, history, n, history + [Message(Assistant, reply.content)] + [Message(User, blocks)],
             MaxIterations(reply.stopReason))
  {
  }

  lemma EndedAt(env: Env, n: nat, history: seq<Message>, maxIters: int, messages: seq<Message>, result: TurnResult)
    requires var reply := env.llm(n, history);
      if reply.LlmError? then messages == history && result == LlmFailed(reply.message)
      else
        messages == history + [Message(Assistant, reply.content)]
        && if ToolUses(reply.content) != [] then result.Aborted?
           else
             result.Finished? && result.reply == JoinLines(TextParts(reply.content)) && result.iterations == n
             && result.finishReason == if reply.stopReason == "" then "end_turn" else reply.stopReason
    ensures EndsAt(env, n, history, maxIters, messages, result)
  {
  }

  // ---------- many runs on one session ----------

  datatype Run = Run(userText: string, env: Env, maxIters: int)

  function History(runs: seq<Run>): seq<Message>
    decreases |runs|, 1
  {
    if runs == [] then [] else LastOutcome(runs).messages
  }

  function LastOutcome(runs: seq<Run>): Outcome
    requires runs != []
    decreases |runs|, 0
  {
    var r := runs[|runs| - 1];
    RunOutcome(History(runs[..|runs| - 1]), r.userText, r.env, r.maxIters)
  }

  /** Call `i` of a turn has an input that cannot be recorded, or a result that cannot be recorded or serialised. */
  predicate BadCall(uses: seq<Block>, i: nat, exec: (nat, string, Json) -> ToolOutcome, done: nat)
    requires i < |uses| && uses[i].ToolUse?
  {
    var input := OrEmpty(uses[i].input);
    var outcome := exec(done + i, uses[i].name, input);
    !input.Obj? || outcome.Unserialisable? || (outcome.Output? && !outcome.value.Obj?)
  }

  /** Shown `q` at this iteration, after `done` calls, the model replies with a call of that kind. */
  predicate BadTurn(env: Env, iteration: nat, q: seq<Message>, done: nat) {
    var reply := env.llm(iteration, q);
    reply.Reply?
    && exists i :: 0 <= i < |ToolUses(reply.content)| && BadCall(ToolUses(reply.content), i, env.exec, done)
  }

  /** Some request of the run, `start` messages of which were there before it, is answered by a bad turn. */
  predicate MeetsBadTurn(env: Env, requests: seq<seq<Message>>, iteration: nat, start: nat) {
    exists j :: 0 <= j < |requests| && BadTurnAt(env, requests, iteration, start, j)
  }

  predicate BadTurnAt(env: Env, requests: seq<seq<Message>>, iteration: nat, start: nat, j: nat) {
    j < |requests| && start <= |requests[j]| && BadTurn(env, iteration + j, requests[j], |UsesIn(requests[j][start..])|)
  }

  /** In some run so far the model made a call that cannot be recorded or reported. */
  predicate SomeBadTurn(runs: seq<Run>) {
    exists n :: 0 < n <= |runs| && EndsInBadTurn(runs[..n])
  }

  predicate EndsInBadTurn(runs: seq<Run>)
    requires runs != []
  {
    MeetsBadTurn(runs[|runs| - 1].env, LastOutcome(runs).requests, 1, |History(runs[..|runs| - 1])|)
  }

  lemma UserTextTurn(history: seq<Message>, text: string)
    ensures TranslateAll(history + [UserText(text)])
         == TranslateAll(history) + [OaiMessage(User, Some(text), None, [])]
    ensures Paired(TranslateAll(history)) ==> Paired(TranslateAll(history + [UserText(text)]))
  {
    hide Paired, TranslateOne;
    UserTextAlone(text);
    TranslateConcat(history, [UserText(text)]);
    if Paired(TranslateAll(history)) {
      PlainTurnIsPaired(UserText(text));
      AppendPaired(history, [UserText(text)]);
    }
  }

  lemma UserTextAlone(text: string)
    ensures TranslateAll([UserText(text)]) == [OaiMessage(User, Some(text), None, [])]
  {
    hide Paired;
    var m := UserText(text);
    assert [m][1..] == [] && m.content[1..] == [];
    assert TextParts(m.content) == [text] && ToolMessages(m.content) == [];
    assert TranslateAll([m]) == TranslateOne(m);
  }

  /** A call left unanswered stays unanswered: the next run puts the user's text right behind it. */
  lemma RunKeepsDangling(history: seq<Message>, r: Run, i: nat)
    requires Dangling(TranslateAll(history), i)
    ensures Dangling(TranslateAll(RunOutcome(history, r.userText, r.env, r.maxIters).messages), i)
  {
    hide Drive;
    var start := history + [UserText(r.userText)];
    var o := RunOutcome(history, r.userText, r.env, r.maxIters);
    UserTextTurn(history, r.userText);
    DriveExtends(start, r.env, 1, r.maxIters, [], "");
    assert o.messages == start + o.messages[|start|..];
    TranslateConcat(start, o.messages[|start|..]);
  }

  lemma SomeBadTurnStep(runs: seq<Run>)
    requires runs != []
    ensures SomeBadTurn(runs) <==> SomeBadTurn(runs[..|runs| - 1]) || EndsInBadTurn(runs)
  {
    hide EndsInBadTurn;
    var before := runs[..|runs| - 1];
    assert runs[..|runs|] == runs;
    assert forall n :: 0 < n <= |before| ==> before[..n] == runs[..n];
    if SomeBadTurn(before) {
      var n :| 0 < n <= |before| && EndsInBadTurn(before[..n]);
      assert EndsInBadTurn(runs[..n]);
    }
  }

  lemma {:induction false} HistoryPairedOrDangling(runs: seq<Run>)
    ensures SomeBadTurn(runs) ==> exists i: nat :: Dangling(TranslateAll(History(runs)), i)
    ensures !SomeBadTurn(runs) ==> Paired(TranslateAll(History(runs)))
    decreases |runs|
  {
    hide Drive, SomeBadTurn, MeetsBadTurn, TranslateAll, Paired, Dangling;
    if runs == [] {
      EmptyHistory();
    } else {
      var before, r := runs[..|runs| - 1], runs[|runs| - 1];
      HistoryPairedOrDangling(before);
      SomeBadTurnStep(runs);
      RunAbortsIff(History(before), r.userText, r.env, r.maxIters);
      assert History(runs) == RunOutcome(History(before), r.userText, r.env, r.maxIters).messages;
      if SomeBadTurn(before) {
        var i: nat :| Dangling(TranslateAll(History(before)), i);
        RunKeepsDangling(History(before), r, i);
      } else {
        UserTextTurn(History(before), r.userText);
        DriveKeepsPairing(History(before) + [UserText(r.userText)], r.env, 1, r.maxIters, [], "");
      }
    }
  }

  lemma EmptyHistory()
    ensures !SomeBadTurn([]) && Paired(TranslateAll([]))
  {
  }

  /** For every sequence of runs, the translated history answers every call in order exactly unless in some run the
      model called a tool whose input or result cannot be recorded or serialised. */
  lemma HistoryPairedIff(system: string, runs: seq<Run>)
    ensures Paired(Translate(system, History(runs))) <==> !SomeBadTurn(runs)
  {
    hide History, TranslateAll, Translate, Paired, Dangling, SomeBadTurn;
    HistoryPairedOrDangling(runs);
    PairedWithSystem(system, History(runs));
    if SomeBadTurn(runs) {
      var i: nat :| Dangling(TranslateAll(History(runs)), i);
      DanglingIsNotPaired(TranslateAll(History(runs)), i);
    }
  }

  lemma PairedWithSystem(system: string, history: seq<Message>)
    ensures Paired(Translate(system, history)) <==> Paired(TranslateAll(history))
  {
    hide TranslateAll;
    var body := TranslateAll(history);
    if system != "" {
      var head := [OaiMessage(System, Some(system), None, [])];
      assert head[1..1] == [] && head[1..] == [];
      assert Paired(head);
      hide Paired;
      PairedConcat(head, body);
    } else {
      assert [] + body == body;
    }
  }

  /** What the model is shown is paired as long as no earlier run met a bad turn, whatever this run does. */
  lemma RequestsPaired(runs: seq<Run>)
    requires runs != [] && !SomeBadTurn(runs[..|runs| - 1])
    ensures forall q :: q in LastOutcome(runs).requests ==> Paired(TranslateAll(q))
  {
    var before, r := runs[..|runs| - 1], runs[|runs| - 1];
    HistoryPairedOrDangling(before);
    UserTextTurn(History(before), r.userText);
    DriveKeepsPairing(History(before) + [UserText(r.userText)], r.env, 1, r.maxIters, [], "");
  }

  /** A turn's tools fail to be reported exactly when some call of it is bad. */
  lemma {:induction false} PhaseFailsIff(uses: seq<Block>, exec: (nat, string, Json) -> ToolOutcome, done: nat)
    requires forall i :: 0 <= i < |uses| ==> uses[i].ToolUse?
    ensures ToolPhase(uses, exec, done).failure.Some? <==> exists i :: 0 <= i < |uses| && BadCall(uses, i, exec, done)
  {
    if uses != [] {
      var tail, next := uses[1..], done + 1;
      PhaseFailsIff(tail, exec, next);
      if i :| 0 <= i < |tail| && BadCall(tail, i, exec, next) {
        assert tail[i] == uses[i + 1] && next + i == done + (i + 1);
        assert BadCall(uses, i + 1, exec, done);
      }
      if i :| 0 <= i < |uses| && BadCall(uses, i, exec, done) {
        if i > 0 {
          assert tail[i - 1] == uses[i] && next + (i - 1) == done + i;
          assert BadCall(tail, i - 1, exec, next);
        } else {
          assert done + 0 == done;
        }
      } else {
        assert !BadCall(uses, 0, exec, done) && done + 0 == done;
      }
    }
  }

  /** A run aborts exactly when the model meets one of its requests with a bad turn. */
  lemma {:induction false} DriveAbortsIff(start: nat, history: seq<Message>, env: Env, iteration: nat, maxIters: int,
                                          records: seq<ToolCallRecord>, lastStop: string)
    requires start <= |history| && |records| == |UsesIn(history[start..])|
    ensures var o := Drive(history, env, iteration, maxIters, records, lastStop);
      o.result.Aborted? <==> MeetsBadTurn(env, o.requests, iteration, start)
    decreases maxIters - iteration
  {
    hide UsesIn, ToolPhase, BadTurn;
    if iteration <= maxIters {
      var o := Drive(history, env, iteration, maxIters, records, lastStop);
      FirstTurn(env, o.requests, iteration, start);
      TurnFailsIff(env, iteration, history, |records|);
      EmptyPhase(env.exec, |records|);
      NoFurtherTurn(env, iteration + 1, start);
      if env.llm(iteration, history).Reply? {
        var reply := env.llm(iteration, history);
        var turn, uses := Message(Assistant, reply.content), ToolUses(reply.content);
        var phase := ToolPhase(uses, env.exec, |records|);
        if uses != [] && phase.failure.None? {
          var answers := Message(User, phase.blocks);
          PhaseAnswers(uses, env.exec, |records|);
          ExtendSuffix(start, history, turn);
          ExtendSuffix(start, history + [turn], answers);
          DriveAbortsIff(start, history + [turn] + [answers], env, iteration + 1, maxIters,
                         records + phase.records, reply.stopReason);
          assert o.requests[1..] == Drive(history + [turn] + [answers], env, iteration + 1, maxIters,
                                          records + phase.records, reply.stopReason).requests;
        } else {
          assert o.requests[1..] == [];
        }
      } else {
        assert o.requests[1..] == [];
      }
    }
  }

  lemma TurnFailsIff(env: Env, iteration: nat, q: seq<Message>, done: nat)
    ensures BadTurn(env, iteration, q, done)
       <==> env.llm(iteration, q).Reply?
            && ToolPhase(ToolUses(env.llm(iteration, q).content), env.exec, done).failure.Some?
  {
    if env.llm(iteration, q).Reply? {
      PhaseFailsIff(ToolUses(env.llm(iteration, q).content), env.exec, done);
    }
  }

  /** A bad turn is the first or one of the later ones. */
  lemma FirstTurn(env: Env, requests: seq<seq<Message>>, iteration: nat, start: nat)
    requires requests != [] && start <= |requests[0]|
    ensures MeetsBadTurn(env, requests, iteration, start)
       <==> BadTurn(env, iteration, requests[0], |UsesIn(requests[0][start..])|)
            || MeetsBadTurn(env, requests[1..], iteration + 1, start)
  {
    hide BadTurn, UsesIn;
    if MeetsBadTurn(env, requests, iteration, start) {
      var j :| 0 <= j < |requests| && BadTurnAt(env, requests, iteration, start, j);
      if j > 0 {
        assert requests[1..][j - 1] == requests[j] && iteration + 1 + (j - 1) == iteration + j;
        assert BadTurnAt(env, requests[1..], iteration + 1, start, j - 1);
      } else {
        assert iteration + 0 == iteration;
      }
    }
    if MeetsBadTurn(env, requests[1..], iteration + 1, start) {
      var j :| 0 <= j < |requests[1..]| && BadTurnAt(env, requests[1..], iteration + 1, start, j);
      assert requests[1..][j] == requests[j + 1] && iteration + 1 + j == iteration + (j + 1);
      assert BadTurnAt(env, requests, iteration, start, j + 1);
    }
    if BadTurn(env, iteration, requests[0], |UsesIn(requests[0][start..])|) {
      assert iteration + 0 == iteration;
      assert BadTurnAt(env, requests, iteration, start, 0);
    }
  }

  lemma NoFurtherTurn(env: Env, iteration: nat, start: nat)
    ensures !MeetsBadTurn(env, [], iteration, start)
  {
  }

  lemma RunAbortsIff(history: seq<Message>, userText: string, env: Env, maxIters: int)
    ensures var o := RunOutcome(history, userText, env, maxIters);
      o.result.Aborted? <==> MeetsBadTurn(env, o.requests, 1, |history|)
  {
    ExtendSuffix(|history|, history, UserText(userText));
    assert history[|history|..] == [];
    DriveAbortsIff(|history|, history + [UserText(userText)], env, 1, maxIters, [], "");
  }

  /** The model calls tools with objects only, and tools return JSON objects or raise. */
  ghost predicate WellBehaved(env: Env) {
    (forall n: nat, h :: env.llm(n, h).Reply? ==>
       forall b :: b in ToolUses(env.llm(n, h).content) ==> OrEmpty(b.input).Obj?)
    && forall n: nat, name, input :: env.exec(n, name, input).Raised?
         || (env.exec(n, name, input).Output? && env.exec(n, name, input).value.Obj?)
  }

  lemma WellBehavedHasNoBadTurn(env: Env, iteration: nat, q: seq<Message>, done: nat)
    requires WellBehaved(env)
    ensures !BadTurn(env, iteration, q, done)
  {
    var reply := env.llm(iteration, q);
    if reply.Reply? {
      forall i | 0 <= i < |ToolUses(reply.content)|
        ensures !BadCall(ToolUses(reply.content), i, env.exec, done)
      {
        var b := ToolUses(reply.content)[i];
        assert b in ToolUses(env.llm(iteration, q).content);
      }
    }
  }

  /** No run with such a model and such tools aborts, from whatever iteration on. */
  lemma {:induction false} WellBehavedNeverAborts(history: seq<Message>, env: Env, iteration: nat, maxIters: int,
                                                  records: seq<ToolCallRecord>, lastStop: string)
    requires WellBehaved(env)
    ensures !Drive(history, env, iteration, maxIters, records, lastStop).result.Aborted?
    decreases maxIters - iteration
  {
    hide WellBehaved, ToolPhase, BadTurn;
    if iteration <= maxIters && env.llm(iteration, history).Reply? {
      var reply := env.llm(iteration, history);
      var phase := ToolPhase(ToolUses(reply.content), env.exec, |records|);
      WellBehavedHasNoBadTurn(env, iteration, history, |records|);
      TurnFailsIff(env, iteration, history, |records|);
      if ToolUses(reply.content) != [] {
        WellBehavedNeverAborts(history + [Message(Assistant, reply.content)] + [Message(User, phase.blocks)],
                               env, iteration + 1, maxIters, records + phase.records, reply.stopReason);
      }
    }
  }

  /** Such models and tools keep every history paired, over any sequence of runs, however each of them ends. */
  lemma WellBehavedStaysPaired(system: string, runs: seq<Run>)
    requires forall n :: 0 <= n < |runs| ==> WellBehaved(runs[n].env)
    ensures Paired(Translate(system, History(runs)))
  {
    hide Paired, Translate, History, LastOutcome, BadTurn, WellBehaved;
    HistoryPairedIff(system, runs);
    forall n | 0 < n <= |runs|
      ensures !EndsInBadTurn(runs[..n])
    {
      var env, run := runs[n - 1].env, runs[..n];
      forall iteration: nat, q, done: nat
        ensures !BadTurn(env, iteration, q, done)
      {
        WellBehavedHasNoBadTurn(env, iteration, q, done);
      }
      assert run[|run| - 1] == runs[n - 1];
    }
  }

  /** The arguments `[1]` parse to a list: the call cannot be recorded, the run dies, and the call stays unanswered. */
  lemma ListArgumentsBreakHistory(system: string, text: string, exec: (nat, string, Json) -> ToolOutcome, maxIters: int)
    requires maxIters >= 1
    ensures var call := ToolUse("c1", "search", NonObj("[1]", true));
      var run := Run(text, Env((n, h) => Reply([call], "tool_use"), exec), maxIters);
      LastOutcome([run]).result.Aborted? && SomeBadTurn([run]) && !Paired(Translate(system, History([run])))
  {
    hide Paired, Translate;
    var call := ToolUse("c1", "search", NonObj("[1]", true));
    var run := Run(text, Env((n, h) => Reply([call], "tool_use"), exec), maxIters);
    assert [run][..0] == [] && [run][..1] == [run] && [call][1..] == [] && ToolUses([call]) == [call];
    assert ToolPhase([call], exec, 0).failure == Some(RecordRejected);
    RunAbortsIff([], text, run.env, maxIters);
    assert EndsInBadTurn([run][..1]);
    HistoryPairedIff(system, [run]);
  }

  // ---------- what a finished run reports ----------

  function UsesIn(ms: seq<Message>): seq<Block> {
    if ms == [] then []
    else (if ms[0].role == Assistant then ToolUses(ms[0].content) else []) + UsesIn(ms[1..])
  }

  function ResultsIn(ms: seq<Message>): seq<Block> {
    if ms == [] then [] else ResultBlocks(ms[0].content, ms[0].role) + ResultsIn(ms[1..])
  }

  function ResultBlocks(content: seq<Block>, role: Role): seq<Block> {
    if content == [] || role != User then []
    else (if content[0].ToolResult? then [content[0]] else []) + ResultBlocks(content[1..], role)
  }

  lemma {:induction false} UsesAndResultsAppend(s: seq<Message>, t: seq<Message>)
    ensures UsesIn(s + t) == UsesIn(s) + UsesIn(t) && ResultsIn(s + t) == ResultsIn(s) + ResultsIn(t)
  {
    if s == [] {
      assert s + t == t;
    } else {
      assert (s + t)[1..] == s[1..] + t;
      UsesAndResultsAppend(s[1..], t);
    }
  }

  lemma {:induction false} AnswersAreResults(blocks: seq<Block>)
    requires forall i :: 0 <= i < |blocks| ==> blocks[i].ToolResult?
    ensures ResultBlocks(blocks, User) == blocks
  {
    if blocks != [] {
      AnswersAreResults(blocks[1..]);
    }
  }

  /** Executed as numbers `done`, `done + 1` and so on, call `j` is what record `j` reports and answer `j` tells. */
  predicate Reported(records: seq<ToolCallRecord>, uses: seq<Block>, results: seq<Block>,
                     exec: (nat, string, Json) -> ToolOutcome, done: nat) {
    |records| == |uses| == |results|
    && forall j :: 0 <= j < |uses| ==> Told(uses[j], exec, done + j, records[j], results[j])
  }

  /** From `start` on, a finished run took as many model calls as it says, within the cap, and its records are the calls
      that the history holds, in order. */
  lemma {:induction false} DriveReports(start: nat, history: seq<Message>, env: Env, iteration: nat,
                                        maxIters: int, records: seq<ToolCallRecord>, lastStop: string)
    requires start <= |history| && Reported(records, UsesIn(history[start..]), ResultsIn(history[start..]), env.exec, 0)
    ensures var o := Drive(history, env, iteration, maxIters, records, lastStop);
      start <= |o.messages|
      && |o.requests| <= Cap(maxIters, iteration)
      && (o.result.MaxIterations? ==> |o.requests| == Cap(maxIters, iteration))
      && (o.result.Finished? ==>
            iteration + |o.requests| == o.result.iterations + 1
            && Reported(o.result.toolCalls, UsesIn(o.messages[start..]), ResultsIn(o.messages[start..]), env.exec, 0)
            && EndsWithReply(o.messages, o.result.reply))
    decreases maxIters - iteration
  {
    hide UsesIn, ResultsIn, ResultBlocks, ToolPhase, Reported;
    if iteration <= maxIters && env.llm(iteration, history).Reply? {
      var reply := env.llm(iteration, history);
      var turn := Message(Assistant, reply.content);
      var uses := ToolUses(reply.content);
      if uses == [] {
        ExtendSuffix(start, history, turn);
        assert UsesIn(history[start..]) + [] == UsesIn(history[start..]);
      } else {
        var phase := ToolPhase(uses, env.exec, |records|);
        if phase.failure.None? {
          var answers := Message(User, phase.blocks);
          PhaseReports(uses, env.exec, |records|);
          ExtendSuffix(start, history, turn);
          ExtendSuffix(start, history + [turn], answers);
          ReportedAppend(records, UsesIn(history[start..]), ResultsIn(history[start..]),
                         phase.records, uses, phase.blocks, env.exec, 0);
          DriveReports(start, history + [turn] + [answers], env, iteration + 1, maxIters,
                       records + phase.records, reply.stopReason);
        }
      }
    }
  }

  lemma PhaseReports(uses: seq<Block>, exec: (nat, string, Json) -> ToolOutcome, done: nat)
    requires forall i :: 0 <= i < |uses| ==> uses[i].ToolUse?
    requires ToolPhase(uses, exec, done).failure.None?
    ensures var phase := ToolPhase(uses, exec, done);
      Reported(phase.records, uses, phase.blocks, exec, done) && ResultBlocks(phase.blocks, User) == phase.blocks
  {
    hide Told;
    PhaseAnswers(uses, exec, done);
    PhaseTells(uses, exec, done);
    AnswersAreResults(ToolPhase(uses, exec, done).blocks);
  }

  lemma ReportedAppend(r: seq<ToolCallRecord>, u: seq<Block>, a: seq<Block>,
                       r': seq<ToolCallRecord>, u': seq<Block>, a': seq<Block>,
                       exec: (nat, string, Json) -> ToolOutcome, done: nat)
    requires Reported(r, u, a, exec, done) && Reported(r', u', a', exec, done + |r|)
    ensures Reported(r + r', u + u', a + a', exec, done)
  {
    hide Told;
    forall j | 0 <= j < |u + u'|
      ensures Told((u + u')[j], exec, done + j, (r + r')[j], (a + a')[j])
    {
      if j >= |u| {
        assert Told(u'[j - |u|], exec, done + |r| + (j - |u|), r'[j - |u|], a'[j - |u|]);
      }
    }
  }

  predicate EndsWithReply(ms: seq<Message>, reply: string) {
    ms != [] && var last := ms[|ms| - 1];
    last.role == Assistant && ToolUses(last.content) == [] && reply == JoinLines(TextParts(last.content))
  }

  lemma ExtendSuffix(start: nat, history: seq<Message>, m: Message)
    requires start <= |history|
    ensures (history + [m])[start..] == history[start..] + [m]
    ensures m.role == Assistant ==> UsesIn((history + [m])[start..]) == UsesIn(history[start..]) + ToolUses(m.content)
    ensures m.role == Assistant ==> ResultsIn((history + [m])[start..]) == ResultsIn(history[start..])
    ensures m.role == User ==> UsesIn((history + [m])[start..]) == UsesIn(history[start..])
    ensures m.role == User ==>
              ResultsIn((history + [m])[start..]) == ResultsIn(history[start..]) + ResultBlocks(m.content, User)
  {
    assert (history + [m])[start..] == history[start..] + [m];
    UsesAndResultsAppend(history[start..], [m]);
    assert [m][1..] == [];
  }

  function Cap(maxIters: int, iteration: nat): nat {
    if iteration <= maxIters then maxIters - iteration + 1 else 0
  }

  lemma RunReports(history: seq<Message>, userText: string, env: Env, maxIters: int)
    ensures var o := RunOutcome(history, userText, env, maxIters);
      history <= o.messages
      && |o.requests| <= Cap(maxIters, 1)
      && (o.result.MaxIterations? ==> |o.requests| == Cap(maxIters, 1))
      && (o.result.Finished? ==>
            1 <= |o.requests| == o.result.iterations <= maxIters
            && Reported(o.result.toolCalls, UsesIn(o.messages[|history|..]), ResultsIn(o.messages[|history|..]),
                        env.exec, 0)
            && EndsWithReply(o.messages, o.result.reply))
  {
    var turn := UserText(userText);
    ExtendSuffix(|history|, history, turn);
    assert turn.content[1..] == [];
    assert ResultBlocks([], User) == [];
    assert history[|history|..] == [];
    DriveExtends(history + [turn], env, 1, maxIters, [], "");
    DriveReports(|history|, history + [turn], env, 1, maxIters, [], "");
  }
}
