/** A codec that satisfies every law asked of JSON: payloads as trees, and trees as
    text. It shows that the laws can be met together; it is not the wire format. */
module Marshalling {
  import opened Prelude
  import opened Order
  import opened Journal
  import opened Llm

  datatype Tree = Leaf(n: nat) | Node(kids: seq<Tree>)

  // ---------------------------------------------------------------- trees as text

  function Unary(n: nat): string {
    if n == 0 then "." else "1" + Unary(n - 1)
  }

  function Text(t: Tree): string
    decreases t, 0
  {
    match t
    case Leaf(n) => "l" + Unary(n)
    case Node(kids) => "n" + (Unary(|kids|) + Texts(kids))
  }

  function Texts(kids: seq<Tree>): string
    decreases kids
  {
    if kids == [] then "" else Text(kids[0]) + Texts(kids[1..])
  }

  lemma {:induction false} UnaryPrefix(a: nat, x: string, b: nat, y: string)
    requires Unary(a) + x == Unary(b) + y
    ensures a == b && x == y
  {
    var l, r := Unary(a) + x, Unary(b) + y;
    assert l[0] == Unary(a)[0] && r[0] == Unary(b)[0];
    if a > 0 && b > 0 {
      assert l[1..] == Unary(a - 1) + x && r[1..] == Unary(b - 1) + y;
      UnaryPrefix(a - 1, x, b - 1, y);
    } else if a == 0 && b == 0 {
      assert l[1..] == x && r[1..] == y;
    }
  }

  /** No tree's text is the beginning of another's. */
  lemma {:induction false} TextPrefix(s: Tree, x: string, t: Tree, y: string)
    requires Text(s) + x == Text(t) + y
    ensures s == t && x == y
    decreases s, 0
  {
    var l, r := Text(s) + x, Text(t) + y;
    assert l[0] == Text(s)[0] && r[0] == Text(t)[0];
    match s
    case Leaf(n) =>
      assert l[1..] == Unary(n) + x;
      assert t.Leaf? && r[1..] == Unary(t.n) + y;
      UnaryPrefix(n, x, t.n, y);
    case Node(kids) =>
      assert t.Node?;
      assert l[1..] == Unary(|kids|) + (Texts(kids) + x);
      assert r[1..] == Unary(|t.kids|) + (Texts(t.kids) + y);
      UnaryPrefix(|kids|, Texts(kids) + x, |t.kids|, Texts(t.kids) + y);
      TextsPrefix(kids, x, t.kids, y);
  }

  lemma {:induction false} TextsPrefix(s: seq<Tree>, x: string, t: seq<Tree>, y: string)
    requires |s| == |t| && Texts(s) + x == Texts(t) + y
    ensures s == t && x == y
    decreases s
  {
    if s != [] {
      Associates(Text(s[0]), Texts(s[1..]), x);
      Associates(Text(t[0]), Texts(t[1..]), y);
      TextPrefix(s[0], Texts(s[1..]) + x, t[0], Texts(t[1..]) + y);
      TextsPrefix(s[1..], x, t[1..], y);
      assert s == [s[0]] + s[1..] && t == [t[0]] + t[1..];
    } else {
      assert "" + x == x && "" + y == y;
    }
  }

  lemma TextInjective(s: Tree, t: Tree)
    requires Text(s) == Text(t)
    ensures s == t
  {
    assert Text(s) + "" == Text(s) && Text(t) + "" == Text(t);
    TextPrefix(s, "", t, "");
  }

  lemma {:induction false} UnaryNulFree(n: nat)
    ensures NulFree(Unary(n))
  {
    if n > 0 {
      UnaryNulFree(n - 1);
    }
  }

  lemma {:induction false} TextNulFree(t: Tree)
    ensures NulFree(Text(t)) && Text(t) != "" && Text(t)[0] != 'x'
    decreases t, 0
  {
    match t
    case Leaf(n) => UnaryNulFree(n);
    case Node(kids) =>
      UnaryNulFree(|kids|);
      TextsNulFree(kids);
  }

  lemma {:induction false} TextsNulFree(kids: seq<Tree>)
    ensures NulFree(Texts(kids))
    decreases kids
  {
    if kids != [] {
      TextNulFree(kids[0]);
      TextsNulFree(kids[1..]);
    }
  }

  // ---------------------------------------------------------------- payloads as trees

  function OfString(s: string): Tree {
    Node(seq(|s|, i requires 0 <= i < |s| => Leaf(s[i] as nat)))
  }

  lemma StringInjective(s: string, t: string)
    requires OfString(s) == OfString(t)
    ensures s == t
  {
    var a, b := OfString(s).kids, OfString(t).kids;
    assert |a| == |s| && |b| == |t|;
    forall i | 0 <= i < |s|
      ensures s[i] == t[i]
    {
      assert a[i] == Leaf(s[i] as nat) && b[i] == Leaf(t[i] as nat);
    }
  }

  function OfInt(n: int): Tree {
    if n < 0 then Node([Leaf(0), Leaf(-n)]) else Node([Leaf(1), Leaf(n)])
  }

  lemma IntInjective(m: int, n: int)
    requires OfInt(m) == OfInt(n)
    ensures m == n
  {
    assert OfInt(m).kids[0] == OfInt(n).kids[0] && OfInt(m).kids[1] == OfInt(n).kids[1];
  }

  function OfBool(b: bool): Tree {
    Leaf(if b then 1 else 0)
  }

  ghost predicate Injective<T(!new)>(f: T -> Tree) {
    forall x, y | f(x) == f(y) :: x == y
  }

  function OfSeq<T>(f: T -> Tree, xs: seq<T>): Tree {
    Node(seq(|xs|, i requires 0 <= i < |xs| => f(xs[i])))
  }

  lemma SeqInjective<T(!new)>(f: T -> Tree, xs: seq<T>, ys: seq<T>)
    requires Injective(f) && OfSeq(f, xs) == OfSeq(f, ys)
    ensures xs == ys
  {
    var a, b := OfSeq(f, xs).kids, OfSeq(f, ys).kids;
    assert |a| == |xs| && |b| == |ys|;
    forall i | 0 <= i < |xs|
      ensures xs[i] == ys[i]
    {
      assert a[i] == f(xs[i]) && b[i] == f(ys[i]);
    }
  }

  lemma StringsInjective(xs: seq<string>, ys: seq<string>)
    requires OfSeq(OfString, xs) == OfSeq(OfString, ys)
    ensures xs == ys
  {
    forall s, t | OfString(s) == OfString(t)
      ensures s == t
    {
      StringInjective(s, t);
    }
    SeqInjective(OfString, xs, ys);
  }

  /** A map as its sorted keys and their values. */
  ghost function OfMap(m: map<string, string>): Tree {
    var keys := Sorted(m.Keys);
    Node([OfSeq(OfString, keys), OfSeq(OfString, ValuesOf(m, keys))])
  }

  function ValuesOf(m: map<string, string>, keys: seq<string>): seq<string>
    requires forall k | k in keys :: k in m
  {
    seq(|keys|, i requires 0 <= i < |keys| => assert keys[i] in keys; m[keys[i]])
  }

  lemma MapInjective(m: map<string, string>, n: map<string, string>)
    requires OfMap(m) == OfMap(n)
    ensures m == n
  {
    var a, b := Sorted(m.Keys), Sorted(n.Keys);
    assert OfMap(m).kids[0] == OfMap(n).kids[0] && OfMap(m).kids[1] == OfMap(n).kids[1];
    StringsInjective(a, b);
    StringsInjective(ValuesOf(m, a), ValuesOf(n, b));
    assert forall k :: k in m <==> k in n;
    forall k | k in m
      ensures m[k] == n[k]
    {
      assert k in a;
      var i :| 0 <= i < |a| && a[i] == k;
      assert ValuesOf(m, a)[i] == m[k] && ValuesOf(n, b)[i] == n[k];
    }
  }

  function OfCall(c: ToolCall): Tree {
    Node([OfString(c.id), OfString(c.name), OfString(c.args)])
  }

  lemma CallsInjective(xs: seq<ToolCall>, ys: seq<ToolCall>)
    requires OfSeq(OfCall, xs) == OfSeq(OfCall, ys)
    ensures xs == ys
  {
    forall x, y | OfCall(x) == OfCall(y)
      ensures x == y
    {
      Same3(OfCall(x), OfCall(y));
      StringInjective(x.id, y.id);
      StringInjective(x.name, y.name);
      StringInjective(x.args, y.args);
    }
    SeqInjective(OfCall, xs, ys);
  }

  lemma Same3(s: Tree, t: Tree)
    requires s == t && s.Node? && |s.kids| >= 3
    ensures s.kids[0] == t.kids[0] && s.kids[1] == t.kids[1] && s.kids[2] == t.kids[2]
  {
  }

  function OfRole(r: Role): Tree {
    Leaf(match r case User => 0 case Assistant => 1 case ToolResult => 2)
  }

  function OfMessage(m: Message): Tree {
    Node([OfRole(m.role), OfString(m.text), OfSeq(OfCall, m.toolCalls), OfString(m.toolCallID), OfBool(m.isError)])
  }

  lemma MessagesInjective(xs: seq<Message>, ys: seq<Message>)
    requires OfSeq(OfMessage, xs) == OfSeq(OfMessage, ys)
    ensures xs == ys
  {
    forall x, y | OfMessage(x) == OfMessage(y)
      ensures x == y
    {
      var a, b := OfMessage(x).kids, OfMessage(y).kids;
      assert a[0] == b[0] && a[1] == b[1] && a[2] == b[2] && a[3] == b[3] && a[4] == b[4];
      StringInjective(x.text, y.text);
      CallsInjective(x.toolCalls, y.toolCalls);
      StringInjective(x.toolCallID, y.toolCallID);
    }
    SeqInjective(OfMessage, xs, ys);
  }

  function OfDef(d: ToolDef): Tree {
    Node([OfString(d.name), OfString(d.description), OfString(d.schema)])
  }

  lemma DefsInjective(xs: seq<ToolDef>, ys: seq<ToolDef>)
    requires OfSeq(OfDef, xs) == OfSeq(OfDef, ys)
    ensures xs == ys
  {
    forall x, y | OfDef(x) == OfDef(y)
      ensures x == y
    {
      Same3(OfDef(x), OfDef(y));
      StringInjective(x.name, y.name);
      StringInjective(x.description, y.description);
      StringInjective(x.schema, y.schema);
    }
    SeqInjective(OfDef, xs, ys);
  }

  function OfRequest(r: Request): Tree {
    Node([OfString(r.model), OfString(r.system), OfSeq(OfMessage, r.messages), OfSeq(OfDef, r.tools),
          OfInt(r.maxTokens)])
  }

  lemma RequestInjective(x: Request, y: Request)
    requires OfRequest(x) == OfRequest(y)
    ensures x == y
  {
    var a, b := OfRequest(x).kids, OfRequest(y).kids;
    assert a[0] == b[0] && a[1] == b[1] && a[2] == b[2] && a[3] == b[3] && a[4] == b[4];
    StringInjective(x.model, y.model);
    StringInjective(x.system, y.system);
    MessagesInjective(x.messages, y.messages);
    DefsInjective(x.tools, y.tools);
    IntInjective(x.maxTokens, y.maxTokens);
  }

  function OfUsage(u: Usage): Tree {
    Node([OfInt(u.input), OfInt(u.output), OfInt(u.cached)])
  }

  lemma UsageInjective(x: Usage, y: Usage)
    requires OfUsage(x) == OfUsage(y)
    ensures x == y
  {
    Same3(OfUsage(x), OfUsage(y));
    IntInjective(x.input, y.input);
    IntInjective(x.output, y.output);
    IntInjective(x.cached, y.cached);
  }

  function OfResponse(r: Response): Tree {
    Node([OfString(r.text), OfSeq(OfCall, r.toolCalls), OfString(r.stopReason), OfUsage(r.usage), OfString(r.model)])
  }

  lemma ResponseInjective(x: Response, y: Response)
    requires OfResponse(x) == OfResponse(y)
    ensures x == y
  {
    var a, b := OfResponse(x).kids, OfResponse(y).kids;
    assert a[0] == b[0] && a[1] == b[1] && a[2] == b[2] && a[3] == b[3] && a[4] == b[4];
    StringInjective(x.text, y.text);
    CallsInjective(x.toolCalls, y.toolCalls);
    StringInjective(x.stopReason, y.stopReason);
    UsageInjective(x.usage, y.usage);
    StringInjective(x.model, y.model);
  }

  ghost function OfPayload(p: Payload): Tree
    requires Decodable(p)
  {
    match p
    case TurnStart(prompt, model, system, tools, env) =>
      Node([OfString(prompt), OfString(model), OfString(system), OfSeq(OfString, tools), OfMap(env)])
    case ModelRequest(request) => OfRequest(request)
    case ModelResponse(response) => OfResponse(response)
    case ToolCalled(call) => OfCall(call)
    case ToolReturned(id, name, content, isError) =>
      Node([OfString(id), OfString(name), OfString(content), OfBool(isError)])
    case TurnEnd(reason, steps, toolCalls, usage) =>
      Node([OfString(reason), OfInt(steps), OfInt(toolCalls), OfUsage(usage)])
  }

  lemma PayloadInjective(x: Payload, y: Payload)
    requires Decodable(x) && Decodable(y) && KindOf(x) == KindOf(y) && OfPayload(x) == OfPayload(y)
    ensures x == y
  {
    match x
    case ModelRequest(request) => RequestInjective(request, y.request);
    case ModelResponse(response) => ResponseInjective(response, y.response);
    case ToolCalled(call) =>
      Same3(OfCall(call), OfCall(y.call));
      StringInjective(call.id, y.call.id);
      StringInjective(call.name, y.call.name);
      StringInjective(call.args, y.call.args);
    case TurnStart(_, _, _, _, _) => StartInjective(x, y);
    case ToolReturned(_, _, _, _) => ReturnedInjective(x, y);
    case TurnEnd(_, _, _, _) => EndInjective(x, y);
  }

  lemma StartInjective(x: Payload, y: Payload)
    requires x.TurnStart? && y.TurnStart? && OfPayload(x) == OfPayload(y)
    ensures x == y
  {
    var a, b := OfPayload(x).kids, OfPayload(y).kids;
    assert a[0] == b[0] && a[1] == b[1] && a[2] == b[2] && a[3] == b[3] && a[4] == b[4];
    StringInjective(x.prompt, y.prompt);
    StringInjective(x.model, y.model);
    StringInjective(x.system, y.system);
    StringsInjective(x.tools, y.tools);
    MapInjective(x.env, y.env);
  }

  lemma ReturnedInjective(x: Payload, y: Payload)
    requires x.ToolReturned? && y.ToolReturned? && OfPayload(x) == OfPayload(y)
    ensures x == y
  {
    var a, b := OfPayload(x).kids, OfPayload(y).kids;
    assert a[0] == b[0] && a[1] == b[1] && a[2] == b[2] && a[3] == b[3];
    StringInjective(x.id, y.id);
    StringInjective(x.name, y.name);
    StringInjective(x.content, y.content);
  }

  lemma EndInjective(x: Payload, y: Payload)
    requires x.TurnEnd? && y.TurnEnd? && OfPayload(x) == OfPayload(y)
    ensures x == y
  {
    var a, b := OfPayload(x).kids, OfPayload(y).kids;
    assert a[0] == b[0] && a[1] == b[1] && a[2] == b[2] && a[3] == b[3];
    StringInjective(x.reason, y.reason);
    IntInjective(x.steps, y.steps);
    IntInjective(x.toolCalls, y.toolCalls);
    UsageInjective(x.usage, y.usage);
  }

  // ---------------------------------------------------------------- the codec

  ghost predicate IsResponse(b: string) {
    exists r: Response :: b == Text(OfResponse(r))
  }

  /** Payloads nothing reads back all look alike. */
  ghost function Marshal(p: Payload): string {
    if Decodable(p) then Text(OfPayload(p))
    else if p.Verbatim? && IsResponse(p.bytes) then p.bytes
    else "x"
  }

  ghost predicate Stands(kind: Kind, b: string, p: Payload) {
    Decodable(p) && KindOf(p) == kind && Marshal(p) == b
  }

  ghost function Unmarshal(kind: Kind, b: string): (r: Option<Payload>)
    ensures r.Some? <==> exists p :: Stands(kind, b, p)
    ensures r.Some? ==> Stands(kind, b, r.value)
  {
    if p :| Stands(kind, b, p) then Some(p) else None
  }

  lemma StandsOnce(kind: Kind, b: string, p: Payload, q: Payload)
    requires Stands(kind, b, p) && Stands(kind, b, q)
    ensures p == q
  {
    TextInjective(OfPayload(p), OfPayload(q));
    PayloadInjective(p, q);
  }

  lemma DecodesBack(p: Payload)
    requires Decodable(p)
    ensures Unmarshal(KindOf(p), Marshal(p)) == Some(p)
  {
    assert Stands(KindOf(p), Marshal(p), p);
    StandsOnce(KindOf(p), Marshal(p), p, Unmarshal(KindOf(p), Marshal(p)).value);
  }

  lemma ResponsesStand(b: string, p: Payload)
    requires Stands(KindModelResponse, b, p)
    ensures IsResponse(b) && b != "x"
  {
    TextNulFree(OfPayload(p));
    assert b == Text(OfResponse(p.response));
  }

  lemma VerbatimMeansTheSame(b: string)
    ensures Unmarshal(KindModelResponse, Marshal(Verbatim(b))) == Unmarshal(KindModelResponse, b)
  {
    var same := Marshal(Verbatim(b));
    if p :| Stands(KindModelResponse, same, p) {
      ResponsesStand(same, p);
    }
    if p :| Stands(KindModelResponse, b, p) {
      ResponsesStand(b, p);
    }
  }

  lemma MarshalledIsText(p: Payload)
    ensures NulFree(Marshal(p)) && Marshal(p) != ""
  {
    if Decodable(p) {
      TextNulFree(OfPayload(p));
    } else if p.Verbatim? && IsResponse(p.bytes) {
      var r :| p.bytes == Text(OfResponse(r));
      TextNulFree(OfResponse(r));
    }
  }

  /** Some codec obeys all the laws at once. */
  lemma SomeCodecIsLawful() returns (c: Codec)
    ensures Lawful(c)
  {
    c := Codec((p: Payload) => Marshal(p), (kind: Kind, b: string) => Unmarshal(kind, b),
               (name: string, names: seq<string>) => name);
    forall p: Payload | Decodable(p)
      ensures c.unmarshal(KindOf(p), c.marshal(p)) == Some(p)
    {
      DecodesBack(p);
    }
    forall r: Response
      ensures c.marshal(Verbatim(c.marshal(ModelResponse(r)))) == c.marshal(ModelResponse(r))
    {
      assert Marshal(ModelResponse(r)) == Text(OfResponse(r));
    }
    forall b: string
      ensures c.unmarshal(KindModelResponse, c.marshal(Verbatim(b))) == c.unmarshal(KindModelResponse, b)
    {
      VerbatimMeansTheSame(b);
    }
    forall p: Payload
      ensures NulFree(c.marshal(p)) && c.marshal(p) != ""
    {
      MarshalledIsText(p);
    }
  }
}
