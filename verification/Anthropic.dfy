/** Translating a conversation into the Messages API.

    Models encodeAnthropicMessages in internal/llm/provider/anthropic.go. */
module Anthropic {
  import opened Prelude
  import opened Llm
  import Recording
  import opened AgentLoop
  import opened Conversation

  datatype Block =
    | Text(text: string)
    | ToolUse(id: string, name: string, input: string)
    | Answer(toolUseID: string, content: string, isError: bool)

  datatype Side = UserSide | AssistantSide

  datatype Sent = Sent(side: Side, content: seq<Block>)

  function Input(args: string): string {
    if args == "" then "{}" else args
  }

  function UseOf(call: ToolCall): Block {
    ToolUse(call.id, call.name, Input(call.args))
  }

  function Uses(calls: seq<ToolCall>): seq<Block> {
    seq(|calls|, i requires 0 <= i < |calls| => UseOf(calls[i]))
  }

  function AssistantBlocks(m: Message): seq<Block> {
    (if m.text != "" then [Text(m.text)] else []) + Uses(m.toolCalls)
  }

  function AnswerOf(m: Message): Block {
    Answer(m.toolCallID, m.text, m.isError)
  }

  function Answers(results: seq<Message>): seq<Block> {
    seq(|results|, i requires 0 <= i < |results| => AnswerOf(results[i]))
  }

  /** The encoder's two variables. */
  datatype State = State(out: seq<Sent>, pending: seq<Block>) {
    function Flush(): State {
      if pending == [] then this else State(out + [Sent(UserSide, pending)], [])
    }
  }

  function Step(st: State, m: Message): State {
    match m.role
    case ToolResult => st.(pending := st.pending + [AnswerOf(m)])
    case Assistant => State(st.Flush().out + [Sent(AssistantSide, AssistantBlocks(m))], [])
    case User => State(st.Flush().out + [Sent(UserSide, [Text(m.text)])], [])
  }

  function Encoded(messages: seq<Message>): seq<Sent> {
    Fold(Step, State([], []), messages).Flush().out
  }

  method Encode(messages: seq<Message>) returns (out: seq<Sent>)
    ensures out == Encoded(messages)
  {
    out := [];
    var pending: seq<Block> := [];
    for i := 0 to |messages|
      invariant Fold(Step, State(out, pending), messages[i..]) == Fold(Step, State([], []), messages)
    {
      var m := messages[i];
      assert messages[i..][0] == m && messages[i..][1..] == messages[i + 1..];
      match m.role {
        case ToolResult =>
          pending := pending + [AnswerOf(m)];
        case Assistant =>
          if pending != [] {
            out := out + [Sent(UserSide, pending)];
            pending := [];
          }
          var blocks: seq<Block> := [];
          if m.text != "" {
            blocks := blocks + [Text(m.text)];
          }
          for j := 0 to |m.toolCalls|
            invariant blocks == (if m.text != "" then [Text(m.text)] else []) + Uses(m.toolCalls[..j])
          {
            assert Uses(m.toolCalls[..j + 1]) == Uses(m.toolCalls[..j]) + [UseOf(m.toolCalls[j])];
            blocks := blocks + [UseOf(m.toolCalls[j])];
          }
          assert m.toolCalls[..|m.toolCalls|] == m.toolCalls;
          out := out + [Sent(AssistantSide, blocks)];
        case User =>
          if pending != [] {
            out := out + [Sent(UserSide, pending)];
            pending := [];
          }
          out := out + [Sent(UserSide, [Text(m.text)])];
      }
    }
    if pending != [] {
      out := out + [Sent(UserSide, pending)];
    }
  }

  // ---------------------------------------------------------------- properties

  lemma {:induction false} ResultsPend(st: State, results: seq<Message>)
    requires forall i | 0 <= i < |results| :: results[i].role == ToolResult
    ensures Fold(Step, st, results) == State(st.out, st.pending + Answers(results))
    decreases |results|
  {
    if results != [] {
      ResultsPend(Step(st, results[0]), results[1..]);
      assert Answers(results) == [AnswerOf(results[0])] + Answers(results[1..]);
    }
  }

  /** What a conversation comes to: a user message, then for each round an
      assistant message and the one user message that answers it. */
  function Expected(prompt: string, rounds: seq<Round>): seq<Sent>
    decreases |rounds|
  {
    if rounds == [] then [Sent(UserSide, [Text(prompt)])]
    else
      var last := rounds[|rounds| - 1];
      Expected(prompt, rounds[..|rounds| - 1])
      + [Sent(AssistantSide, AssistantBlocks(last.said)), Sent(UserSide, Answers(last.results))]
  }

  lemma {:induction false} EncodedIsExpected(prompt: string, rounds: seq<Round>)
    requires RoundsOk(rounds)
    ensures Encoded(Messages(prompt, rounds)) == Expected(prompt, rounds)
    decreases |rounds|
  {
    var start := State([], []);
    if rounds == [] {
      assert [UserSaid(prompt)][1..] == [];
      assert Fold(Step, start, [UserSaid(prompt)]) == Step(start, UserSaid(prompt));
    } else {
      var init, last := rounds[..|rounds| - 1], rounds[|rounds| - 1];
      EncodedIsExpected(prompt, init);
      var before := Fold(Step, start, Messages(prompt, init));
      FoldAppend(Step, start, Messages(prompt, init), [last.said] + last.results);
      assert ([last.said] + last.results)[1..] == last.results;
      ResultsPend(Step(before, last.said), last.results);
      assert |Answers(last.results)| > 0;
      assert [] + Answers(last.results) == Answers(last.results);
    }
  }

  function UseIDs(content: seq<Block>): seq<string>
    decreases |content|
  {
    if content == [] then []
    else (if content[0].ToolUse? then [content[0].id] else []) + UseIDs(content[1..])
  }

  function AnswerIDs(content: seq<Block>): seq<string>
    decreases |content|
  {
    if content == [] then []
    else (if content[0].Answer? then [content[0].toolUseID] else []) + AnswerIDs(content[1..])
  }

  /** Roles alternate, starting and ending with the user, and every assistant
      message's tool uses are answered, in order and in full, by the very next. */
  ghost predicate ValidExchange(sent: seq<Sent>) {
    && |sent| % 2 == 1
    && (forall i | 0 <= i < |sent| :: sent[i].side == if i % 2 == 0 then UserSide else AssistantSide)
    && (forall i | 0 <= i < |sent| && sent[i].side == AssistantSide ::
          i + 1 < |sent| && UseIDs(sent[i].content) != [] && AnswerIDs(sent[i + 1].content) == UseIDs(sent[i].content))
  }

  lemma {:induction false} UseIDsOf(calls: seq<ToolCall>)
    ensures UseIDs(Uses(calls)) == seq(|calls|, i requires 0 <= i < |calls| => calls[i].id)
    decreases |calls|
  {
    if calls != [] {
      assert Uses(calls)[1..] == Uses(calls[1..]);
      UseIDsOf(calls[1..]);
    }
  }

  lemma {:induction false} AnswerIDsOf(results: seq<Message>)
    ensures AnswerIDs(Answers(results)) == seq(|results|, i requires 0 <= i < |results| => results[i].toolCallID)
    decreases |results|
  {
    if results != [] {
      assert Answers(results)[1..] == Answers(results[1..]);
      AnswerIDsOf(results[1..]);
    }
  }

  lemma RoundAnswered(r: Round)
    requires RoundOk(r)
    ensures UseIDs(AssistantBlocks(r.said)) == AnswerIDs(Answers(r.results)) != []
  {
    UseIDsOf(r.said.toolCalls);
    AnswerIDsOf(r.results);
    if r.said.text != "" {
      assert AssistantBlocks(r.said)[1..] == Uses(r.said.toolCalls);
    } else {
      assert AssistantBlocks(r.said) == Uses(r.said.toolCalls);
    }
    assert UseIDs(AssistantBlocks(r.said)) == UseIDs(Uses(r.said.toolCalls));
    assert |AnswerIDs(Answers(r.results))| == |r.results|;
  }

  lemma {:induction false} ExpectedIsValid(prompt: string, rounds: seq<Round>)
    requires RoundsOk(rounds)
    ensures ValidExchange(Expected(prompt, rounds)) && |Expected(prompt, rounds)| == 1 + 2 * |rounds|
    decreases |rounds|
  {
    if rounds != [] {
      var init, last := rounds[..|rounds| - 1], rounds[|rounds| - 1];
      ExpectedIsValid(prompt, init);
      RoundAnswered(last);
      ValidMore(Expected(prompt, init), Sent(AssistantSide, AssistantBlocks(last.said)),
                Sent(UserSide, Answers(last.results)));
    }
  }

  /** Every conversation the loop builds becomes a valid exchange. */
  lemma EncodingIsValid(prompt: string, rounds: seq<Round>)
    requires RoundsOk(rounds)
    ensures ValidExchange(Encoded(Messages(prompt, rounds)))
    ensures |Encoded(Messages(prompt, rounds))| == 1 + 2 * |rounds|
  {
    EncodedIsExpected(prompt, rounds);
    ExpectedIsValid(prompt, rounds);
  }

  /** Every request of a turn, over any source of answers, encodes as one. */
  lemma EveryRequestIsValid<W>(c: Codec, cfg: Config<W>, prompt: string, src: Recording.Source, world: W)
    requires cfg.registry.Valid()
    ensures forall p | p in Run(c, cfg, prompt, src, world).log && p.ModelRequest? ::
              ValidExchange(Encoded(p.request.messages))
  {
    var law: CallsLaw := calls => true;
    TurnsAskConversations(c, cfg, prompt, src, world, law);
    forall p | p in Run(c, cfg, prompt, src, world).log && p.ModelRequest?
      ensures ValidExchange(Encoded(p.request.messages))
    {
      assert LoopBuilt(law, prompt, p.request.messages);
      var rounds: seq<Round> :| RoundsOk(rounds) && p.request.messages == Messages(prompt, rounds);
      EncodingIsValid(prompt, rounds);
    }
  }

  lemma ValidMore(sent: seq<Sent>, said: Sent, answer: Sent)
    requires ValidExchange(sent) && said.side == AssistantSide && answer.side == UserSide
    requires UseIDs(said.content) == AnswerIDs(answer.content) != []
    ensures ValidExchange(sent + [said, answer])
  {
    var all := sent + [said, answer];
    assert all[|sent|] == said && all[|sent| + 1] == answer;
    forall i | 0 <= i < |all|
      ensures all[i].side == if i % 2 == 0 then UserSide else AssistantSide
    {
      if i < |sent| {
        assert all[i] == sent[i];
      }
    }
    forall i | 0 <= i < |all| && all[i].side == AssistantSide
      ensures i + 1 < |all| && UseIDs(all[i].content) != [] && AnswerIDs(all[i + 1].content) == UseIDs(all[i].content)
    {
      if i < |sent| {
        assert all[i] == sent[i] && sent[i].side == AssistantSide;
        assert all[i + 1] == sent[i + 1];
      }
    }
  }

  // ---------------------------------------------------------------- inverse

  function CallBack(b: Block): ToolCall
    requires b.ToolUse?
  {
    ToolCall(b.id, b.name, b.input)
  }

  function CallsBack(content: seq<Block>): seq<ToolCall>
    decreases |content|
  {
    if content == [] then []
    else (if content[0].ToolUse? then [CallBack(content[0])] else []) + CallsBack(content[1..])
  }

  function ResultsBack(content: seq<Block>): seq<Message>
    decreases |content|
  {
    if content == [] then []
    else
      (if content[0].Answer?
       then [Message(ToolResult, content[0].content, [], content[0].toolUseID, content[0].isError)] else [])
      + ResultsBack(content[1..])
  }

  /** Reads one sent message back into the messages it stands for. */
  function Back(s: Sent): seq<Message> {
    match s.side
    case AssistantSide =>
      var text := if s.content != [] && s.content[0].Text? then s.content[0].text else "";
      [Message(Assistant, text, CallsBack(s.content), "", false)]
    case UserSide =>
      if s.content != [] && s.content[0].Text? then [UserSaid(s.content[0].text)] else ResultsBack(s.content)
  }

  function Decoded(sent: seq<Sent>): seq<Message>
    decreases |sent|
  {
    if sent == [] then [] else Decoded(sent[..|sent| - 1]) + Back(sent[|sent| - 1])
  }

  /** A call as it comes back: one without arguments comes back with an empty object. */
  function Whole(call: ToolCall): ToolCall {
    ToolCall(call.id, call.name, if call.args == "" then "{}" else call.args)
  }

  function WholeMessage(m: Message): Message {
    m.(toolCalls := seq(|m.toolCalls|, i requires 0 <= i < |m.toolCalls| => Whole(m.toolCalls[i])))
  }

  function WholeMessages(messages: seq<Message>): seq<Message> {
    seq(|messages|, i requires 0 <= i < |messages| => WholeMessage(messages[i]))
  }

  lemma {:induction false} CallsComeBack(calls: seq<ToolCall>)
    ensures CallsBack(Uses(calls)) == seq(|calls|, i requires 0 <= i < |calls| => Whole(calls[i]))
    decreases |calls|
  {
    if calls != [] {
      assert Uses(calls)[1..] == Uses(calls[1..]);
      CallsComeBack(calls[1..]);
    }
  }

  lemma {:induction false} ResultsComeBack(results: seq<Message>)
    requires forall i | 0 <= i < |results| ::
               results[i] == Message(ToolResult, results[i].text, [], results[i].toolCallID, results[i].isError)
    ensures ResultsBack(Answers(results)) == results
    decreases |results|
  {
    if results != [] {
      assert Answers(results)[1..] == Answers(results[1..]);
      ResultsComeBack(results[1..]);
    }
  }

  lemma RoundComesBack(r: Round)
    requires RoundOk(r)
    ensures Back(Sent(AssistantSide, AssistantBlocks(r.said))) == [WholeMessage(r.said)]
    ensures Back(Sent(UserSide, Answers(r.results))) == r.results == WholeMessages(r.results)
  {
    CallsComeBack(r.said.toolCalls);
    ResultsComeBack(r.results);
    NoCallsWhole(r.results);
    var calls := CallsBack(Uses(r.said.toolCalls));
    assert WholeMessage(r.said).toolCalls == calls;
    assert WholeMessage(r.said) == Message(Assistant, r.said.text, calls, "", false);
    if r.said.text != "" {
      assert AssistantBlocks(r.said)[1..] == Uses(r.said.toolCalls);
      assert AssistantBlocks(r.said)[0] == Text(r.said.text);
      assert CallsBack(AssistantBlocks(r.said)) == [] + calls == calls;
    } else {
      assert AssistantBlocks(r.said) == Uses(r.said.toolCalls);
      assert AssistantBlocks(r.said)[0] == UseOf(r.said.toolCalls[0]);
    }
  }

  lemma NoCallsWhole(messages: seq<Message>)
    requires forall i | 0 <= i < |messages| :: messages[i].toolCalls == []
    ensures WholeMessages(messages) == messages
  {
    forall i | 0 <= i < |messages|
      ensures WholeMessage(messages[i]) == messages[i]
    {
      assert messages[i].toolCalls == [];
    }
  }

  lemma WholeAppend(xs: seq<Message>, ys: seq<Message>)
    ensures WholeMessages(xs + ys) == WholeMessages(xs) + WholeMessages(ys)
  {
  }

  lemma DecodedOneMore(head: seq<Sent>, a: Sent)
    ensures Decoded(head + [a]) == Decoded(head) + Back(a)
  {
    assert (head + [a])[..|head|] == head;
  }

  lemma DecodedTwoMore(head: seq<Sent>, a: Sent, b: Sent)
    ensures Decoded(head + [a, b]) == Decoded(head) + Back(a) + Back(b)
  {
    assert head + [a, b] == head + [a] + [b];
    DecodedOneMore(head, a);
    DecodedOneMore(head + [a], b);
  }

  /** Nothing is dropped, duplicated or reordered: the conversation can be read back out
      of its encoding, every call with its own arguments, or an empty object for none. */
  lemma {:induction false} EncodingRoundTrips(prompt: string, rounds: seq<Round>)
    requires RoundsOk(rounds)
    ensures Decoded(Encoded(Messages(prompt, rounds))) == WholeMessages(Messages(prompt, rounds))
    decreases |rounds|
  {
    EncodedIsExpected(prompt, rounds);
    if rounds == [] {
      assert Decoded([Sent(UserSide, [Text(prompt)])]) == Decoded([]) + [UserSaid(prompt)];
      NoCallsWhole([UserSaid(prompt)]);
    } else {
      var init, last := rounds[..|rounds| - 1], rounds[|rounds| - 1];
      EncodedIsExpected(prompt, init);
      EncodingRoundTrips(prompt, init);
      RoundComesBack(last);
      var head := Expected(prompt, init);
      var a, b := Sent(AssistantSide, AssistantBlocks(last.said)), Sent(UserSide, Answers(last.results));
      DecodedTwoMore(head, a, b);
      Associates(Decoded(head), [WholeMessage(last.said)], last.results);
      WholeAppend(Messages(prompt, init), [last.said] + last.results);
      WholeAppend([last.said], last.results);
      assert WholeMessages([last.said]) == [WholeMessage(last.said)];
    }
  }

  /** When every call has arguments, as every adapter sees to by compacting them to at
      least "{}", that is the conversation itself. */
  lemma WholeAlready(messages: seq<Message>)
    requires forall i, j | 0 <= i < |messages| && 0 <= j < |messages[i].toolCalls| ::
               messages[i].toolCalls[j].args != ""
    ensures WholeMessages(messages) == messages
  {
    forall i | 0 <= i < |messages|
      ensures WholeMessage(messages[i]) == messages[i]
    {
      forall j | 0 <= j < |messages[i].toolCalls|
        ensures Whole(messages[i].toolCalls[j]) == messages[i].toolCalls[j]
      {
      }
    }
  }
}
