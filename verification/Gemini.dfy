/** Translating a conversation into generateContent, whose calls carry no ids,
    and reading such calls back in.

    Models encodeGeminiContents and decodeGemini in
    internal/llm/provider/gemini.go. */
module Gemini {
  import opened Prelude
  import opened Llm
  import opened Recording
  import opened AgentLoop
  import opened Conversation

  /** A function response's result is wrapped in a one-field object on the wire. */
  datatype Part = Text(text: string) | Call(name: string, args: string) | Reply(name: string, result: string)

  datatype Side = UserSide | ModelSide

  datatype Content = Content(side: Side, parts: seq<Part>)

  type Names = map<string, string>

  function Args(args: string): string {
    if args == "" then "{}" else args
  }

  function CallOf(call: ToolCall): Part {
    Call(call.name, Args(call.args))
  }

  function Calls(calls: seq<ToolCall>): seq<Part> {
    seq(|calls|, i requires 0 <= i < |calls| => CallOf(calls[i]))
  }

  function ModelParts(m: Message): seq<Part> {
    (if m.text != "" then [Text(m.text)] else []) + Calls(m.toolCalls)
  }

  /** The id-to-name map after an assistant message's calls went into it. */
  function Learned(names: Names, calls: seq<ToolCall>): Names
    decreases |calls|
  {
    if calls == [] then names
    else
      var last := calls[|calls| - 1];
      Learned(names, calls[..|calls| - 1])[last.id := last.name]
  }

  function NameFor(names: Names, id: string): string {
    var name := if id in names then names[id] else "";
    if name == "" then id else name
  }

  function ReplyOf(names: Names, m: Message): Part {
    Reply(NameFor(names, m.toolCallID), m.text)
  }

  function Replies(names: Names, results: seq<Message>): seq<Part> {
    seq(|results|, i requires 0 <= i < |results| => ReplyOf(names, results[i]))
  }

  /** The encoder's three variables. */
  datatype State = State(out: seq<Content>, pending: seq<Part>, names: Names) {
    function Flush(): State {
      if pending == [] then this else State(out + [Content(UserSide, pending)], [], names)
    }
  }

  function Step(st: State, m: Message): State {
    match m.role
    case ToolResult => st.(pending := st.pending + [ReplyOf(st.names, m)])
    case Assistant =>
      State(st.Flush().out + [Content(ModelSide, ModelParts(m))], [], Learned(st.names, m.toolCalls))
    case User => State(st.Flush().out + [Content(UserSide, [Text(m.text)])], [], st.names)
  }

  const Start := State([], [], map[])

  function Encoded(messages: seq<Message>): seq<Content> {
    Fold(Step, Start, messages).Flush().out
  }

  method Encode(messages: seq<Message>) returns (out: seq<Content>)
    ensures out == Encoded(messages)
  {
    out := [];
    var pending: seq<Part> := [];
    var names: Names := map[];
    for i := 0 to |messages|
      invariant Fold(Step, State(out, pending, names), messages[i..]) == Fold(Step, Start, messages)
    {
      var m := messages[i];
      assert messages[i..][0] == m && messages[i..][1..] == messages[i + 1..];
      match m.role {
        case ToolResult =>
          var name := if m.toolCallID in names then names[m.toolCallID] else "";
          if name == "" {
            name := m.toolCallID;
          }
          pending := pending + [Reply(name, m.text)];
        case Assistant =>
          if pending != [] {
            out := out + [Content(UserSide, pending)];
            pending := [];
          }
          var parts: seq<Part> := [];
          if m.text != "" {
            parts := parts + [Text(m.text)];
          }
          ghost var names0 := names;
          for j := 0 to |m.toolCalls|
            invariant parts == (if m.text != "" then [Text(m.text)] else []) + Calls(m.toolCalls[..j])
            invariant names == Learned(names0, m.toolCalls[..j])
          {
            var tc := m.toolCalls[j];
            assert m.toolCalls[..j + 1][..j] == m.toolCalls[..j];
            assert Calls(m.toolCalls[..j + 1]) == Calls(m.toolCalls[..j]) + [CallOf(tc)];
            names := names[tc.id := tc.name];
            parts := parts + [CallOf(tc)];
          }
          assert m.toolCalls[..|m.toolCalls|] == m.toolCalls;
          out := out + [Content(ModelSide, parts)];
        case User =>
          if pending != [] {
            out := out + [Content(UserSide, pending)];
            pending := [];
          }
          out := out + [Content(UserSide, [Text(m.text)])];
      }
    }
    if pending != [] {
      out := out + [Content(UserSide, pending)];
    }
  }

  // ---------------------------------------------------------------- what comes out

  /** The name the last call with this id was made under. */
  function LastName(calls: seq<ToolCall>, id: string): string
    decreases |calls|
  {
    if calls == [] then ""
    else
      var last := calls[|calls| - 1];
      if last.id == id then last.name else LastName(calls[..|calls| - 1], id)
  }

  /** A round's replies, each named after the last call of the same round with
      the id it answers. Earlier rounds no longer matter. */
  function RoundReplies(r: Round): seq<Part> {
    seq(|r.results|, i requires 0 <= i < |r.results| =>
      Reply(LastName(r.said.toolCalls, r.results[i].toolCallID), r.results[i].text))
  }

  function Expected(prompt: string, rounds: seq<Round>): seq<Content>
    decreases |rounds|
  {
    if rounds == [] then [Content(UserSide, [Text(prompt)])]
    else
      var last := rounds[|rounds| - 1];
      Expected(prompt, rounds[..|rounds| - 1])
      + [Content(ModelSide, ModelParts(last.said)), Content(UserSide, RoundReplies(last))]
  }

  lemma {:induction false} LearnedLast(names: Names, calls: seq<ToolCall>, i: nat)
    requires i < |calls| && forall j | 0 <= j < |calls| :: calls[j].name != ""
    ensures NameFor(Learned(names, calls), calls[i].id) == LastName(calls, calls[i].id) != ""
    decreases |calls|
  {
    var init, last := calls[..|calls| - 1], calls[|calls| - 1];
    if calls[i].id != last.id {
      LearnedLast(names, init, i);
    }
  }

  lemma {:induction false} RepliesPend(st: State, results: seq<Message>)
    requires forall i | 0 <= i < |results| :: results[i].role == ToolResult
    ensures Fold(Step, st, results) == State(st.out, st.pending + Replies(st.names, results), st.names)
    decreases |results|
  {
    if results != [] {
      RepliesPend(Step(st, results[0]), results[1..]);
      assert Replies(st.names, results) == [ReplyOf(st.names, results[0])] + Replies(st.names, results[1..]);
    }
  }

  lemma RepliesAreRoundReplies(names: Names, r: Round)
    requires RoundOk(r)
    ensures Replies(Learned(names, r.said.toolCalls), r.results) == RoundReplies(r)
  {
    forall i | 0 <= i < |r.results|
      ensures NameFor(Learned(names, r.said.toolCalls), r.results[i].toolCallID)
           == LastName(r.said.toolCalls, r.results[i].toolCallID)
    {
      LearnedLast(names, r.said.toolCalls, i);
    }
  }

  /** The encoding of any conversation, although ids repeat from round to round. */
  lemma {:induction false} EncodedIsExpected(prompt: string, rounds: seq<Round>)
    requires RoundsOk(rounds)
    ensures Encoded(Messages(prompt, rounds)) == Expected(prompt, rounds)
    decreases |rounds|
  {
    if rounds == [] {
      assert [UserSaid(prompt)][1..] == [];
      assert Fold(Step, Start, [UserSaid(prompt)]) == Step(Start, UserSaid(prompt));
    } else {
      var init, last := rounds[..|rounds| - 1], rounds[|rounds| - 1];
      EncodedIsExpected(prompt, init);
      var before := Fold(Step, Start, Messages(prompt, init));
      FoldAppend(Step, Start, Messages(prompt, init), [last.said] + last.results);
      assert ([last.said] + last.results)[1..] == last.results;
      RepliesPend(Step(before, last.said), last.results);
      RepliesAreRoundReplies(before.names, last);
      assert [] + RoundReplies(last) == RoundReplies(last);
      assert |RoundReplies(last)| > 0;
    }
  }

  function CallNames(parts: seq<Part>): seq<string>
    decreases |parts|
  {
    if parts == [] then [] else (if parts[0].Call? then [parts[0].name] else []) + CallNames(parts[1..])
  }

  function ReplyNames(parts: seq<Part>): seq<string>
    decreases |parts|
  {
    if parts == [] then [] else (if parts[0].Reply? then [parts[0].name] else []) + ReplyNames(parts[1..])
  }

  predicate Alternates(contents: seq<Content>) {
    forall i | 0 <= i < |contents| :: contents[i].side == if i % 2 == 0 then UserSide else ModelSide
  }

  /** Every model content's calls are answered, name for name, by the very next
      content. */
  predicate NamesAnswer(contents: seq<Content>) {
    forall i | 0 <= i < |contents| && contents[i].side == ModelSide ::
      i + 1 < |contents| && ReplyNames(contents[i + 1].parts) == CallNames(contents[i].parts)
  }

  /** Within one response, calls that share an id also share a name. */
  predicate IdsNameOnce(calls: seq<ToolCall>) {
    forall i, j | 0 <= i < |calls| && 0 <= j < |calls| && calls[i].id == calls[j].id ::
      calls[i].name == calls[j].name
  }

  lemma {:induction false} CallNamesOf(calls: seq<ToolCall>)
    ensures CallNames(Calls(calls)) == seq(|calls|, i requires 0 <= i < |calls| => calls[i].name)
    decreases |calls|
  {
    if calls != [] {
      assert Calls(calls)[1..] == Calls(calls[1..]);
      CallNamesOf(calls[1..]);
    }
  }

  lemma {:induction false} ReplyNamesOf(parts: seq<Part>)
    requires forall i | 0 <= i < |parts| :: parts[i].Reply?
    ensures ReplyNames(parts) == seq(|parts|, i requires 0 <= i < |parts| => parts[i].name)
    decreases |parts|
  {
    if parts != [] {
      ReplyNamesOf(parts[1..]);
    }
  }

  /** The last name given to an id belongs to some call with that id. */
  lemma {:induction false} LastNameIsACall(calls: seq<ToolCall>, i: nat) returns (j: nat)
    requires i < |calls|
    ensures i <= j < |calls| && calls[j].id == calls[i].id && calls[j].name == LastName(calls, calls[i].id)
    ensures forall k | j < k < |calls| :: calls[k].id != calls[i].id
    decreases |calls|
  {
    if calls[|calls| - 1].id == calls[i].id {
      j := |calls| - 1;
    } else {
      j := LastNameIsACall(calls[..|calls| - 1], i);
    }
  }

  lemma LastNamesRight(calls: seq<ToolCall>)
    ensures (forall i | 0 <= i < |calls| :: LastName(calls, calls[i].id) == calls[i].name) <==> IdsNameOnce(calls)
  {
    if IdsNameOnce(calls) {
      forall i | 0 <= i < |calls|
        ensures LastName(calls, calls[i].id) == calls[i].name
      {
        var j := LastNameIsACall(calls, i);
      }
    }
    if forall i | 0 <= i < |calls| :: LastName(calls, calls[i].id) == calls[i].name {
      forall i, j | 0 <= i < |calls| && 0 <= j < |calls| && calls[i].id == calls[j].id
        ensures calls[i].name == calls[j].name
      {
        assert LastName(calls, calls[i].id) == calls[i].name;
      }
    }
  }

  function LastNames(calls: seq<ToolCall>): seq<string> {
    seq(|calls|, i requires 0 <= i < |calls| => LastName(calls, calls[i].id))
  }

  function OwnNames(calls: seq<ToolCall>): seq<string> {
    seq(|calls|, i requires 0 <= i < |calls| => calls[i].name)
  }

  lemma LastNamesAreOwn(calls: seq<ToolCall>)
    ensures LastNames(calls) == OwnNames(calls) <==> IdsNameOnce(calls)
  {
    LastNamesRight(calls);
    if LastNames(calls) == OwnNames(calls) {
      forall i | 0 <= i < |calls|
        ensures LastName(calls, calls[i].id) == calls[i].name
      {
        assert LastNames(calls)[i] == OwnNames(calls)[i];
      }
    }
  }

  lemma ModelNames(m: Message)
    ensures CallNames(ModelParts(m)) == OwnNames(m.toolCalls)
  {
    CallNamesOf(m.toolCalls);
    if m.text != "" {
      assert ModelParts(m)[0] == Text(m.text) && ModelParts(m)[1..] == Calls(m.toolCalls);
      assert CallNames(ModelParts(m)) == [] + CallNames(Calls(m.toolCalls));
    } else {
      assert ModelParts(m) == Calls(m.toolCalls);
    }
  }

  lemma RoundNames(r: Round)
    requires RoundOk(r)
    ensures ReplyNames(RoundReplies(r)) == CallNames(ModelParts(r.said)) <==> IdsNameOnce(r.said.toolCalls)
  {
    ReplyNamesOf(RoundReplies(r));
    assert ReplyNames(RoundReplies(r)) == LastNames(r.said.toolCalls);
    ModelNames(r.said);
    LastNamesAreOwn(r.said.toolCalls);
  }

  lemma NamesAnswerMore(contents: seq<Content>, said: Content, reply: Content)
    requires contents != [] && Alternates(contents) && |contents| % 2 == 1
    requires said.side == ModelSide && reply.side == UserSide
    ensures Alternates(contents + [said, reply])
    ensures NamesAnswer(contents + [said, reply])
       <==> NamesAnswer(contents) && ReplyNames(reply.parts) == CallNames(said.parts)
  {
    var all, n := contents + [said, reply], |contents|;
    assert all[n] == said && all[n + 1] == reply;
    assert forall i | 0 <= i < n :: all[i] == contents[i];
    assert contents[n - 1].side == UserSide;
    if NamesAnswer(all) {
      forall i | 0 <= i < n && contents[i].side == ModelSide
        ensures i + 1 < n && ReplyNames(contents[i + 1].parts) == CallNames(contents[i].parts)
      {
        assert all[i].side == ModelSide;
      }
    }
    if NamesAnswer(contents) && ReplyNames(reply.parts) == CallNames(said.parts) {
      forall i | 0 <= i < |all| && all[i].side == ModelSide
        ensures i + 1 < |all| && ReplyNames(all[i + 1].parts) == CallNames(all[i].parts)
      {
        if i < n {
          assert contents[i].side == ModelSide;
        }
      }
    }
  }

  lemma {:induction false} ExpectedNames(prompt: string, rounds: seq<Round>)
    requires RoundsOk(rounds)
    ensures var out := Expected(prompt, rounds);
            && |out| == 1 + 2 * |rounds| && Alternates(out)
            && (NamesAnswer(out) <==> forall r | 0 <= r < |rounds| :: IdsNameOnce(rounds[r].said.toolCalls))
    decreases |rounds|
  {
    if rounds != [] {
      var n := |rounds| - 1;
      var init, last := rounds[..n], rounds[n];
      ExpectedNames(prompt, init);
      RoundNames(last);
      NamesAnswerMore(Expected(prompt, init), Content(ModelSide, ModelParts(last.said)),
                      Content(UserSide, RoundReplies(last)));
      assert (forall r | 0 <= r < |rounds| :: IdsNameOnce(rounds[r].said.toolCalls))
        <==> (forall r | 0 <= r < n :: IdsNameOnce(init[r].said.toolCalls)) && IdsNameOnce(last.said.toolCalls);
    }
  }

  /** The encoding of any conversation alternates, and every reply carries the
      name of the call it answers exactly when no response reuses an id for two
      different names. Ids may repeat freely across rounds. */
  lemma NamesSurvive(prompt: string, rounds: seq<Round>)
    requires RoundsOk(rounds)
    ensures var out := Encoded(Messages(prompt, rounds));
            && |out| == 1 + 2 * |rounds| && Alternates(out)
            && (NamesAnswer(out) <==> forall r | 0 <= r < |rounds| :: IdsNameOnce(rounds[r].said.toolCalls))
  {
    EncodedIsExpected(prompt, rounds);
    ExpectedNames(prompt, rounds);
  }

  // ---------------------------------------------------------------- nothing lost

  /** What a message is on this wire: ids and error flags are not carried. */
  datatype Bare = Asked(text: string) | Said(text: string, calls: seq<(string, string)>) | Told(text: string)

  function BareOf(m: Message): Bare {
    match m.role
    case User => Asked(m.text)
    case Assistant => Said(m.text, Pairs(m.toolCalls))
    case ToolResult => Told(m.text)
  }

  function Pairs(calls: seq<ToolCall>): seq<(string, string)> {
    seq(|calls|, i requires 0 <= i < |calls| => (calls[i].name, if calls[i].args == "" then "{}" else calls[i].args))
  }

  function Bares(messages: seq<Message>): seq<Bare> {
    seq(|messages|, i requires 0 <= i < |messages| => BareOf(messages[i]))
  }

  function CallsBack(parts: seq<Part>): seq<(string, string)>
    decreases |parts|
  {
    if parts == [] then []
    else (if parts[0].Call? then [(parts[0].name, parts[0].args)] else []) + CallsBack(parts[1..])
  }

  function RepliesBack(parts: seq<Part>): seq<Bare>
    decreases |parts|
  {
    if parts == [] then []
    else (if parts[0].Reply? then [Told(parts[0].result)] else []) + RepliesBack(parts[1..])
  }

  function Back(content: Content): seq<Bare> {
    var text := if content.parts != [] && content.parts[0].Text? then content.parts[0].text else "";
    match content.side
    case ModelSide => [Said(text, CallsBack(content.parts))]
    case UserSide =>
      if content.parts != [] && content.parts[0].Text? then [Asked(text)] else RepliesBack(content.parts)
  }

  function Decoded(contents: seq<Content>): seq<Bare>
    decreases |contents|
  {
    if contents == [] then [] else Decoded(contents[..|contents| - 1]) + Back(contents[|contents| - 1])
  }

  lemma {:induction false} CallsComeBack(calls: seq<ToolCall>)
    ensures CallsBack(Calls(calls)) == Pairs(calls)
    decreases |calls|
  {
    if calls != [] {
      assert Calls(calls)[1..] == Calls(calls[1..]);
      CallsComeBack(calls[1..]);
      assert Pairs(calls) == [Pairs(calls)[0]] + Pairs(calls[1..]);
    }
  }

  lemma {:induction false} RepliesComeBack(parts: seq<Part>)
    requires forall i | 0 <= i < |parts| :: parts[i].Reply?
    ensures RepliesBack(parts) == seq(|parts|, i requires 0 <= i < |parts| => Told(parts[i].result))
    decreases |parts|
  {
    if parts != [] {
      RepliesComeBack(parts[1..]);
    }
  }

  lemma RoundComesBack(r: Round)
    requires RoundOk(r)
    ensures Back(Content(ModelSide, ModelParts(r.said))) == [BareOf(r.said)]
    ensures Back(Content(UserSide, RoundReplies(r))) == Bares(r.results)
  {
    CallsComeBack(r.said.toolCalls);
    RepliesComeBack(RoundReplies(r));
    if r.said.text != "" {
      assert ModelParts(r.said)[0] == Text(r.said.text);
      assert ModelParts(r.said)[1..] == Calls(r.said.toolCalls);
      assert CallsBack(ModelParts(r.said)) == [] + CallsBack(Calls(r.said.toolCalls)) == Pairs(r.said.toolCalls);
    } else {
      assert ModelParts(r.said) == Calls(r.said.toolCalls);
      assert ModelParts(r.said)[0] == CallOf(r.said.toolCalls[0]);
    }
  }

  lemma {:induction false} ExpectedRoundTrips(prompt: string, rounds: seq<Round>)
    requires RoundsOk(rounds)
    ensures Decoded(Expected(prompt, rounds)) == Bares(Messages(prompt, rounds))
    decreases |rounds|
  {
    if rounds == [] {
      assert Decoded([Content(UserSide, [Text(prompt)])]) == Decoded([]) + [Asked(prompt)];
    } else {
      var init, last := rounds[..|rounds| - 1], rounds[|rounds| - 1];
      ExpectedRoundTrips(prompt, init);
      RoundComesBack(last);
      DecodedTwoMore(Expected(prompt, init), Content(ModelSide, ModelParts(last.said)),
                     Content(UserSide, RoundReplies(last)));
      BaresAppend(Messages(prompt, init), [last.said] + last.results);
      BaresAppend([last.said], last.results);
      assert Bares([last.said]) == [BareOf(last.said)];
    }
  }

  lemma BaresAppend(xs: seq<Message>, ys: seq<Message>)
    ensures Bares(xs + ys) == Bares(xs) + Bares(ys)
  {
  }

  lemma DecodedOneMore(head: seq<Content>, a: Content)
    ensures Decoded(head + [a]) == Decoded(head) + Back(a)
  {
    assert (head + [a])[..|head|] == head;
  }

  lemma DecodedTwoMore(head: seq<Content>, a: Content, b: Content)
    ensures Decoded(head + [a, b]) == Decoded(head) + (Back(a) + Back(b))
  {
    assert head + [a, b] == head + [a] + [b];
    Associates(Decoded(head), Back(a), Back(b));
    DecodedOneMore(head, a);
    DecodedOneMore(head + [a], b);
  }

  /** Nothing is dropped, duplicated or reordered: up to ids and error flags, the
      conversation can be read back out of its encoding. */
  lemma EncodingRoundTrips(prompt: string, rounds: seq<Round>)
    requires RoundsOk(rounds)
    ensures Decoded(Encoded(Messages(prompt, rounds))) == Bares(Messages(prompt, rounds))
  {
    EncodedIsExpected(prompt, rounds);
    ExpectedRoundTrips(prompt, rounds);
  }

  // ---------------------------------------------------------------- decoding calls

  function Decimal(n: nat): (s: string)
    ensures |s| > 0
  {
    var digit := ['0' + (n % 10) as char];
    if n < 10 then digit else Decimal(n / 10) + digit
  }

  lemma {:induction false} DecimalInjective(a: nat, b: nat)
    requires Decimal(a) == Decimal(b)
    ensures a == b
  {
    var x, y := Decimal(a), Decimal(b);
    assert x[|x| - 1] == '0' + (a % 10) as char && y[|y| - 1] == '0' + (b % 10) as char;
    assert a % 10 == b % 10;
    if a >= 10 && b >= 10 {
      assert x[..|x| - 1] == Decimal(a / 10) && y[..|y| - 1] == Decimal(b / 10);
      DecimalInjective(a / 10, b / 10);
    }
  }

  /** It is the usual notation: digits only, no zero in front, and their value is n. */
  lemma {:induction false} DecimalReads(n: nat)
    ensures forall i | 0 <= i < |Decimal(n)| :: '0' <= Decimal(n)[i] <= '9'
    ensures n > 0 ==> Decimal(n)[0] != '0'
    ensures Reading(Decimal(n)) == n
    decreases n
  {
    if n >= 10 {
      DecimalReads(n / 10);
      var s := Decimal(n);
      assert s[..|s| - 1] == Decimal(n / 10);
    } else {
      assert Decimal(n)[..0] == "";
    }
  }

  function Reading(s: string): int
    decreases |s|
  {
    if s == "" then 0 else 10 * Reading(s[..|s| - 1]) + (s[|s| - 1] as int - '0' as int)
  }

  /** The id given to the call found at a position. */
  function PositionalID(i: nat): string {
    "call_" + Decimal(i)
  }

  lemma PositionalIDsDiffer(i: nat, j: nat)
    requires PositionalID(i) == PositionalID(j)
    ensures i == j
  {
    assert PositionalID(i)[5..] == Decimal(i) && PositionalID(j)[5..] == Decimal(j);
    DecimalInjective(i, j);
  }

  function TextOf(p: Part): string {
    if p.Text? then p.text else ""
  }

  /** Reads a candidate's parts; None when some call's arguments do not parse. */
  method DecodeParts(compact: string -> Option<string>, parts: seq<Part>)
    returns (calls: Option<seq<ToolCall>>, text: string)
    ensures calls.None? <==> exists i | 0 <= i < |parts| ::
              parts[i].Call? && compact(if parts[i].args == "" then "{}" else parts[i].args).None?
    ensures calls.Some? ==> text == Concat(TextOf, parts)
    ensures calls.Some? ==>
              exists at: seq<nat> :: CallsAt(compact, parts, at, |parts|, calls.value)
  {
    calls, text := Some([]), "";
    var found: seq<ToolCall> := [];
    ghost var at: seq<nat> := [];
    for i := 0 to |parts|
      invariant text == Concat(TextOf, parts[..i])
      invariant CallsAt(compact, parts, at, i, found)
      invariant forall j | 0 <= j < i && parts[j].Call? ::
                  compact(if parts[j].args == "" then "{}" else parts[j].args).Some?
    {
      TextMore(parts, i);
      match parts[i] {
        case Call(name, args) =>
          var packed := compact(Args(args));
          if packed.None? {
            return None, text;
          }
          found := found + [ToolCall(PositionalID(i), name, packed.value)];
          at := at + [i];
        case Text(t) =>
          text := text + t;
        case Reply(_, _) =>
      }
    }
    assert parts[..|parts|] == parts;
    calls := Some(found);
  }

  lemma TextMore(parts: seq<Part>, i: nat)
    requires i < |parts|
    ensures Concat(TextOf, parts[..i + 1]) == Concat(TextOf, parts[..i]) + TextOf(parts[i])
  {
    assert parts[..i + 1] == parts[..i] + [parts[i]];
    ConcatAppend(TextOf, parts[..i], [parts[i]]);
    ConcatOne(TextOf, parts[i]);
  }

  /** The calls are those of the call parts among the first n, in order, each with
      the id of its own position. */
  ghost predicate CallsAt(compact: string -> Option<string>, parts: seq<Part>, at: seq<nat>, n: nat,
                          calls: seq<ToolCall>)
    requires n <= |parts|
  {
    && |at| == |calls|
    && (forall k | 0 <= k < |at| :: at[k] < n && parts[at[k]].Call?)
    && (forall k, l | 0 <= k < l < |at| :: at[k] < at[l])
    && (forall i | 0 <= i < n && parts[i].Call? :: i in at)
    && forall k | 0 <= k < |at| ::
         calls[k].id == "call_" + Decimal(at[k]) && calls[k].name == parts[at[k]].name
         && compact(if parts[at[k]].args == "" then "{}" else parts[at[k]].args) == Some(calls[k].args)
  }

  /** Decoded calls never share an id within a response, so the encoder names every
      reply to them correctly. */
  lemma DecodedIdsNameOnce(compact: string -> Option<string>, parts: seq<Part>, at: seq<nat>, calls: seq<ToolCall>)
    requires CallsAt(compact, parts, at, |parts|, calls)
    ensures forall k, l | 0 <= k < l < |calls| :: calls[k].id != calls[l].id
    ensures IdsNameOnce(calls)
  {
    forall k, l | 0 <= k < |calls| && 0 <= l < |calls| && calls[k].id == calls[l].id
      ensures k == l
    {
      PositionalIDsDiffer(at[k], at[l]);
    }
  }

  // ---------------------------------------------------------------- a whole turn

  /** A response as this adapter reads it out of a candidate. */
  ghost predicate FromCandidate(compact: string -> Option<string>, resp: Response) {
    exists parts, at :: CallsAt(compact, parts, at, |parts|, resp.toolCalls) && resp.text == Concat(TextOf, parts)
  }

  /** A turn whose responses were all read by this adapter sends only requests in
      which the sides alternate and every reply is named after the call it answers,
      although ids count from the start again in every response. */
  lemma EveryRequestIsNamed<W>(c: Codec, cfg: Config<W>, prompt: string, src: Source, world: W,
                               compact: string -> Option<string>)
    requires cfg.registry.Valid() && src.Live?
    requires forall i: nat :: src.replies(i).Answer? ==> FromCandidate(compact, src.replies(i).response)
    ensures forall p | p in Run(c, cfg, prompt, src, world).log && p.ModelRequest? ::
              Alternates(Encoded(p.request.messages)) && NamesAnswer(Encoded(p.request.messages))
  {
    forall i: nat | src.replies(i).Answer?
      ensures IdsNameOnce(src.replies(i).response.toolCalls)
    {
      var calls := src.replies(i).response.toolCalls;
      assert FromCandidate(compact, src.replies(i).response);
      var parts, at :| CallsAt(compact, parts, at, |parts|, calls);
      DecodedIdsNameOnce(compact, parts, at, calls);
    }
    TurnsAskConversations(c, cfg, prompt, src, world, IdsNameOnce);
    forall p | p in Run(c, cfg, prompt, src, world).log && p.ModelRequest?
      ensures Alternates(Encoded(p.request.messages)) && NamesAnswer(Encoded(p.request.messages))
    {
      assert LoopBuilt(IdsNameOnce, prompt, p.request.messages);
      var rounds: seq<Round> :| RoundsOk(rounds) && Obey(IdsNameOnce, rounds)
                                && p.request.messages == Messages(prompt, rounds);
      NamesSurvive(prompt, rounds);
    }
  }
}
