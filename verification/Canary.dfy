/** The canary check: one synthetic tool call, sent whole or cut into events, on three endpoints. */
module Canary {

  /** A field of a payload: absent, or its own text, trimmed, beside what it decodes to. Strings are
      sequences of bytes. */
  datatype Json = Missing | Present(raw: string, value: Value)
  datatype Value = Null | Bool(flag: bool) | Number | Text(text: string) | Array(items: seq<Json>)
                 | Fields(fields: Object)
  type Object = map<string, Json>

  datatype Endpoint = Messages | Responses | ChatCompletions | OtherEndpoint

  const TOOL := "relay_canary_noop"
  const MAX_ARGS := 8192
  const MAX_ID := 128
  const FORBIDDEN := ["content", "refusal", "reasoning_content", "thinking", "function_call"]

  function Get(fields: Object, name: string): Json {
    if name in fields then fields[name] else Missing
  }

  predicate IsObject(field: Json) {
    field.Present? && field.value.Fields?
  }

  /** The fields of an object; any other value decodes to no fields. */
  function FieldsOf(field: Json): Object {
    if IsObject(field) then field.value.fields else map[]
  }

  function TextOf(field: Json): string {
    if field.Present? && field.value.Text? then field.value.text else ""
  }

  function ItemsOf(field: Json): seq<Json> {
    if field.Present? && field.value.Array? then field.value.items else []
  }

  /** Absent or zero; every other index, also null and 0.0, is refused. */
  predicate IndexOK(field: Json) {
    field.Missing? || field.raw in {"0", "-0"}
  }

  predicate Quiet(field: Json) {
    field.Missing? || field.raw in {"", "null", "\"\"", "[]"}
  }

  predicate AllQuiet(message: Object) {
    forall i :: 0 <= i < |FORBIDDEN| ==> Quiet(Get(message, FORBIDDEN[i]))
  }

  predicate Contains(text: string, part: string) {
    exists i :: 0 <= i <= |text| && part <= text[i..]
  }

  // ---- What one decoded payload contributes ----

  /** A breach of the expected shape, a sighting of the call, a text of its name or arguments (a delta
      or all of it so far), or arguments that go on with a call already seen. */
  datatype Piece = Breach | Tool(id: string, start: bool) | Name(text: string, delta: bool)
                 | Args(text: string, delta: bool) | More(text: string)

  function BlockPieces(block: Object): seq<Piece> {
    if TextOf(Get(block, "type")) != "tool_use" then [Breach]
    else
      var input := Get(block, "input");
      [Tool(TextOf(Get(block, "id")), true), Name(TextOf(Get(block, "name")), false)]
      + if input.Missing? || input.raw in {"", "{}"} then [] else [Args(input.raw, false)]
  }

  function BlockDeltaPieces(delta: Object): seq<Piece> {
    var kind := TextOf(Get(delta, "type"));
    if kind == "input_json_delta" then [More(TextOf(Get(delta, "partial_json")))]
    else if kind in {"text_delta", "thinking_delta"}
            && (TextOf(Get(delta, "text")) != "" || TextOf(Get(delta, "thinking")) != "") then [Breach]
    else []
  }

  function BlockEventPieces(payload: Object): seq<Piece> {
    var kind := TextOf(Get(payload, "type"));
    if kind !in {"content_block_start", "content_block_delta"} then []
    else if !IndexOK(Get(payload, "index")) then [Breach]
    else if kind == "content_block_start" then BlockPieces(FieldsOf(Get(payload, "content_block")))
    else BlockDeltaPieces(FieldsOf(Get(payload, "delta")))
  }

  function MessagesPieces(payload: Object): seq<Piece> {
    var content := Get(payload, "content");
    if content.Missing? then BlockEventPieces(payload)
    else if |ItemsOf(content)| != 1 then [Breach]
    else BlockPieces(FieldsOf(ItemsOf(content)[0])) + BlockEventPieces(payload)
  }

  function MessageOf(choice: Object): Object {
    if IsObject(Get(choice, "delta")) then FieldsOf(Get(choice, "delta")) else FieldsOf(Get(choice, "message"))
  }

  function CallPieces(call: Object, delta: bool): seq<Piece> {
    if !Get(call, "type").Missing? && TextOf(Get(call, "type")) != "function" then [Breach]
    else if !IndexOK(Get(call, "index")) then [Breach]
    else
      var fn := FieldsOf(Get(call, "function"));
      [Tool(TextOf(Get(call, "id")), !delta), Name(TextOf(Get(fn, "name")), delta),
       Args(TextOf(Get(fn, "arguments")), delta)]
  }

  function ChoicePieces(choice: Object): seq<Piece> {
    var calls := ItemsOf(Get(MessageOf(choice), "tool_calls"));
    if !IndexOK(Get(choice, "index")) || !AllQuiet(MessageOf(choice)) || |calls| > 1 then [Breach]
    else if calls == [] then []
    else CallPieces(FieldsOf(calls[0]), IsObject(Get(choice, "delta")))
  }

  function ChatPieces(payload: Object): seq<Piece> {
    var choices := ItemsOf(Get(payload, "choices"));
    if |choices| > 1 then [Breach] else if choices == [] then [] else ChoicePieces(FieldsOf(choices[0]))
  }

  function ItemPieces(item: Object, start: bool): seq<Piece> {
    if TextOf(Get(item, "type")) != "function_call" then [Breach]
    else [Tool(TextOf(Get(item, "id")), start), Name(TextOf(Get(item, "name")), false),
          Args(TextOf(Get(item, "arguments")), false)]
  }

  const ITEM_EVENTS := {"response.output_item.added", "response.output_item.done"}
  const ARGUMENT_EVENTS := {"response.function_call_arguments.delta", "response.function_call_arguments.done"}

  function ProsePieces(payload: Object): seq<Piece> {
    var kind := TextOf(Get(payload, "type"));
    if (Contains(kind, "output_text") || Contains(kind, "refusal"))
       && (TextOf(Get(payload, "delta")) != "" || TextOf(Get(payload, "text")) != "") then [Breach] else []
  }

  function ItemEventPieces(payload: Object): seq<Piece> {
    var kind := TextOf(Get(payload, "type"));
    if kind in ITEM_EVENTS then ItemPieces(FieldsOf(Get(payload, "item")), kind == "response.output_item.added")
    else if kind in ARGUMENT_EVENTS then
      [Tool(TextOf(Get(payload, "item_id")), false),
       if kind == "response.function_call_arguments.delta" then Args(TextOf(Get(payload, "delta")), true)
       else Args(TextOf(Get(payload, "arguments")), false)]
    else []
  }

  function PartPieces(payload: Object): seq<Piece> {
    var part := FieldsOf(Get(payload, "part"));
    if TextOf(Get(part, "text")) != "" || TextOf(Get(part, "refusal")) != "" then [Breach] else []
  }

  function OutputPieces(payload: Object): seq<Piece> {
    var response := if IsObject(Get(payload, "response")) then FieldsOf(Get(payload, "response")) else payload;
    var output := Get(response, "output");
    if output.Missing? then []
    else if |ItemsOf(output)| != 1 then [Breach]
    else ItemPieces(FieldsOf(ItemsOf(output)[0]), false)
  }

  function ResponsesPieces(payload: Object): seq<Piece> {
    if TextOf(Get(payload, "type")) in ITEM_EVENTS + ARGUMENT_EVENTS && !IndexOK(Get(payload, "output_index"))
    then ProsePieces(payload) + [Breach]
    else ProsePieces(payload) + ItemEventPieces(payload) + PartPieces(payload) + OutputPieces(payload)
  }

  function PiecesOf(endpoint: Endpoint, payload: Object): seq<Piece> {
    match endpoint
    case Messages => MessagesPieces(payload)
    case Responses => ResponsesPieces(payload)
    case ChatCompletions => ChatPieces(payload)
    case OtherEndpoint => [Breach]
  }

  // ---- The accumulating check ----

  datatype Check = Check(toolSeen: bool, toolID: string, name: string, args: string, violation: bool)

  const FRESH := Check(false, "", "", "", false)

  function Bind(c: Check, id: string, start: bool): Check {
    if |id| > MAX_ID || (start && c.toolSeen) || (c.toolID != "" && id != "" && c.toolID != id)
    then c.(violation := true)
    else c.(toolSeen := true, toolID := if id != "" then id else c.toolID)
  }

  function SetName(c: Check, name: string, delta: bool): Check {
    if name == "" then c
    else if |name| > |TOOL| then c.(violation := true)
    else if delta && |c.name| + |name| > |TOOL| then c.(violation := true)
    else if !delta && c.name != "" && !(c.name <= name) then c.(violation := true)
    else
      var next := if delta then c.name + name else name;
      c.(name := next, violation := c.violation || |next| > |TOOL| || !(next <= TOOL))
  }

  /** `matches` is the shape check of complete arguments against the nonce. */
  function SetArgs(c: Check, args: string, delta: bool, matches: string -> bool): Check {
    if args == "" then c
    else if delta then if |c.args| + |args| > MAX_ARGS then c.(violation := true) else c.(args := c.args + args)
    else if |args| > MAX_ARGS then c.(violation := true)
    else if c.args != "" && !(c.args <= args) && !(matches(c.args) && matches(args)) then c.(violation := true)
    else c.(args := args)
  }

  function Take(c: Check, piece: Piece, matches: string -> bool): Check {
    match piece
    case Breach => c.(violation := true)
    case Tool(id, start) => Bind(c, id, start)
    case Name(text, delta) => SetName(c, text, delta)
    case Args(text, delta) => SetArgs(c, text, delta, matches)
    case More(text) => if !c.toolSeen then c.(violation := true) else SetArgs(c, text, true, matches)
  }

  function TakeAll(c: Check, pieces: seq<Piece>, matches: string -> bool): Check
    decreases |pieces|
  {
    if pieces == [] then c else Take(TakeAll(c, pieces[..|pieces| - 1], matches), pieces[|pieces| - 1], matches)
  }

  /** Once something was wrong, later payloads are not looked at. */
  function Observe(c: Check, endpoint: Endpoint, payload: Object, matches: string -> bool): Check {
    if c.violation then c else TakeAll(c, PiecesOf(endpoint, payload), matches)
  }

  function ObserveAll(endpoint: Endpoint, payloads: seq<Object>, matches: string -> bool): Check
    decreases |payloads|
  {
    if payloads == [] then FRESH
    else
      Observe(ObserveAll(endpoint, payloads[..|payloads| - 1], matches), endpoint, payloads[|payloads| - 1], matches)
  }

  // ---- What a whole stream says, independent of how it was cut ----

  function Pieces(endpoint: Endpoint, payloads: seq<Object>): seq<Piece>
    decreases |payloads|
  {
    if payloads == [] then []
    else Pieces(endpoint, payloads[..|payloads| - 1]) + PiecesOf(endpoint, payloads[|payloads| - 1])
  }

  datatype Update = Update(text: string, delta: bool)

  function Names(pieces: seq<Piece>): seq<Update>
    decreases |pieces|
  {
    if pieces == [] then [] else Names(pieces[..|pieces| - 1]) + NameIn(pieces[|pieces| - 1])
  }

  function NameIn(piece: Piece): seq<Update> {
    if piece.Name? then [Update(piece.text, piece.delta)] else []
  }

  function Arguments(pieces: seq<Piece>): seq<Update>
    decreases |pieces|
  {
    if pieces == [] then [] else Arguments(pieces[..|pieces| - 1]) + ArgumentsIn(pieces[|pieces| - 1])
  }

  function ArgumentsIn(piece: Piece): seq<Update> {
    match piece
    case Args(text, delta) => [Update(text, delta)]
    case More(text) => [Update(text, true)]
    case _ => []
  }

  function IDs(pieces: seq<Piece>): set<string>
    decreases |pieces|
  {
    if pieces == [] then {} else IDs(pieces[..|pieces| - 1]) + IDIn(pieces[|pieces| - 1])
  }

  function IDIn(piece: Piece): set<string> {
    if piece.Tool? && piece.id != "" then {piece.id} else {}
  }

  predicate HasTool(pieces: seq<Piece>) {
    exists i :: 0 <= i < |pieces| && pieces[i].Tool?
  }

  /** The text told: the last complete one and the deltas after it. */
  function Told(updates: seq<Update>): string
    decreases |updates|
  {
    if updates == [] then ""
    else
      var before, last := Told(updates[..|updates| - 1]), updates[|updates| - 1];
      if last.text == "" then before else if last.delta then before + last.text else last.text
  }

  predicate Restates(updates: seq<Update>, i: nat)
    requires i < |updates|
  {
    updates[i].text != "" && !updates[i].delta
  }

  predicate AddsAt(updates: seq<Update>, i: nat)
    requires i < |updates|
  {
    Restates(updates, i) ==> Told(updates[..i]) <= updates[i].text
  }

  predicate AgreesAt(updates: seq<Update>, i: nat, matches: string -> bool)
    requires i < |updates|
  {
    AddsAt(updates, i) || (matches(Told(updates[..i])) && matches(updates[i].text))
  }

  /** A complete text only ever adds to what was told before it. */
  predicate Growing(updates: seq<Update>) {
    forall i :: 0 <= i < |updates| ==> AddsAt(updates, i)
  }

  /** The arguments may also be written anew, from one complete answer to another. */
  predicate Rewritable(updates: seq<Update>, matches: string -> bool) {
    forall i :: 0 <= i < |updates| ==> AgreesAt(updates, i, matches)
  }

  predicate Bounded(updates: seq<Update>) {
    forall k :: 0 <= k <= |updates| ==> |Told(updates[..k])| <= MAX_ARGS
  }

  predicate InPlace(pieces: seq<Piece>, i: nat)
    requires i < |pieces|
  {
    match pieces[i]
    case Breach => false
    case Tool(_, start) => start ==> !HasTool(pieces[..i])
    case More(_) => HasTool(pieces[..i])
    case _ => true
  }

  /** No breach, nothing starts a second call, and nothing goes on with a call not yet seen. */
  predicate WellFormed(pieces: seq<Piece>) {
    forall i :: 0 <= i < |pieces| ==> InPlace(pieces, i)
  }

  /** At most one identifier, and not overlong. */
  predicate SomeID(ids: set<string>) {
    (forall a :: a in ids ==> |a| <= MAX_ID) && (forall a, b :: a in ids && b in ids ==> a == b)
  }

  predicate NameOK(updates: seq<Update>) {
    Growing(updates) && Told(updates) <= TOOL
  }

  predicate ArgumentsOK(updates: seq<Update>, matches: string -> bool) {
    Rewritable(updates, matches) && Bounded(updates)
  }

  predicate Acceptable(pieces: seq<Piece>, matches: string -> bool) {
    WellFormed(pieces) && SomeID(IDs(pieces)) && NameOK(Names(pieces)) && ArgumentsOK(Arguments(pieces), matches)
  }

  // ---- How these grow with one more piece ----

  lemma ToldGrows(updates: seq<Update>, u: Update)
    ensures Told(updates + [u]) ==
            if u.text == "" then Told(updates) else if u.delta then Told(updates) + u.text else u.text
  {
    assert (updates + [u])[..|updates|] == updates;
  }

  lemma GrowingGrows(updates: seq<Update>, u: Update)
    ensures Growing(updates + [u]) <==> Growing(updates) && (u.text != "" && !u.delta ==> Told(updates) <= u.text)
  {
    var more := updates + [u];
    assert more[..|updates|] == updates;
    assert AddsAt(more, |updates|) <==> (u.text != "" && !u.delta ==> Told(updates) <= u.text);
    forall i | 0 <= i < |updates|
      ensures AddsAt(more, i) == AddsAt(updates, i)
    {
      assert more[..i] == updates[..i];
    }
  }

  lemma RewritableGrows(updates: seq<Update>, u: Update, matches: string -> bool)
    ensures Rewritable(updates + [u], matches) <==>
              && Rewritable(updates, matches)
              && (|| (u.text != "" && !u.delta ==> Told(updates) <= u.text)
                  || (matches(Told(updates)) && matches(u.text)))
  {
    var more := updates + [u];
    assert more[..|updates|] == updates;
    assert AgreesAt(more, |updates|, matches) <==>
             || (u.text != "" && !u.delta ==> Told(updates) <= u.text)
             || (matches(Told(updates)) && matches(u.text));
    forall i | 0 <= i < |updates|
      ensures AgreesAt(more, i, matches) == AgreesAt(updates, i, matches)
    {
      assert more[..i] == updates[..i];
    }
  }

  lemma BoundedGrows(updates: seq<Update>, u: Update)
    ensures Bounded(updates + [u]) <==> Bounded(updates) && |Told(updates + [u])| <= MAX_ARGS
  {
    var more := updates + [u];
    assert more[..|more|] == more;
    assert forall i :: 0 <= i <= |updates| ==> more[..i] == updates[..i];
  }

  lemma PiecesGrow(pieces: seq<Piece>, piece: Piece)
    ensures Names(pieces + [piece]) ==
            if piece.Name? then Names(pieces) + [Update(piece.text, piece.delta)] else Names(pieces)
    ensures Arguments(pieces + [piece]) ==
            if piece.Args? then Arguments(pieces) + [Update(piece.text, piece.delta)]
            else if piece.More? then Arguments(pieces) + [Update(piece.text, true)]
            else Arguments(pieces)
    ensures IDs(pieces + [piece]) == if piece.Tool? then IDs(pieces) + IDIn(piece) else IDs(pieces)
    ensures HasTool(pieces + [piece]) <==> HasTool(pieces) || piece.Tool?
  {
    var more := pieces + [piece];
    assert more[..|pieces|] == pieces && more[|pieces|] == piece;
    ToolGrows(pieces, piece);
  }

  lemma ToolGrows(pieces: seq<Piece>, piece: Piece)
    ensures HasTool(pieces + [piece]) <==> HasTool(pieces) || piece.Tool?
  {
    var more := pieces + [piece];
    assert more[|pieces|] == piece;
    assert forall i :: 0 <= i < |pieces| ==> more[i] == pieces[i];
  }

  lemma WellFormedGrows(pieces: seq<Piece>, piece: Piece)
    ensures WellFormed(pieces + [piece]) <==>
              && WellFormed(pieces) && !piece.Breach?
              && (piece.Tool? && piece.start ==> !HasTool(pieces)) && (piece.More? ==> HasTool(pieces))
  {
    var more := pieces + [piece];
    assert more[..|pieces|] == pieces && more[|pieces|] == piece;
    assert forall i :: 0 <= i < |pieces| ==> more[..i] == pieces[..i];
    assert forall i :: 0 <= i < |pieces| ==> InPlace(more, i) == InPlace(pieces, i);
    assert InPlace(more, |pieces|) <==>
             !piece.Breach? && (piece.Tool? && piece.start ==> !HasTool(pieces)) && (piece.More? ==> HasTool(pieces));
  }

  // ---- The check says what the stream says ----

  predicate SaysSoFar(c: Check, pieces: seq<Piece>, matches: string -> bool) {
    && c == Check(HasTool(pieces), c.toolID, Told(Names(pieces)), Told(Arguments(pieces)), false)
    && IDs(pieces) == (if c.toolID == "" then {} else {c.toolID})
    && Acceptable(pieces, matches)
  }

  lemma NameTaken(c: Check, updates: seq<Update>, u: Update)
    requires !c.violation && c.name == Told(updates) && NameOK(updates)
    ensures var next := SetName(c, u.text, u.delta);
            && (next.violation <==> !NameOK(updates + [u]))
            && (!next.violation ==> next == c.(name := Told(updates + [u])))
  {
    ToldGrows(updates, u);
    GrowingGrows(updates, u);
  }

  lemma ArgumentsTaken(c: Check, updates: seq<Update>, u: Update, matches: string -> bool)
    requires !c.violation && c.args == Told(updates) && ArgumentsOK(updates, matches)
    ensures var next := SetArgs(c, u.text, u.delta, matches);
            && (next.violation <==> !ArgumentsOK(updates + [u], matches))
            && (!next.violation ==> next == c.(args := Told(updates + [u])))
  {
    ToldGrows(updates, u);
    RewritableGrows(updates, u, matches);
    BoundedGrows(updates, u);
    assert updates[..|updates|] == updates;
  }

  lemma ToolTaken(c: Check, ids: set<string>, id: string)
    requires ids == (if c.toolID == "" then {} else {c.toolID}) && SomeID(ids)
    ensures var next, seen := Bind(c, id, false), ids + IDIn(Tool(id, false));
            && (SomeID(seen) <==> |id| <= MAX_ID && (c.toolID == "" || id == "" || c.toolID == id))
            && (SomeID(seen) ==> seen == (if next.toolID == "" then {} else {next.toolID}))
  {
    assert id != "" ==> id in ids + {id};
  }

  lemma TakeSays(c: Check, pieces: seq<Piece>, piece: Piece, matches: string -> bool)
    requires SaysSoFar(c, pieces, matches)
    ensures var next, more := Take(c, piece, matches), pieces + [piece];
            && (next.violation <==> !Acceptable(more, matches))
            && (!next.violation ==> SaysSoFar(next, more, matches))
  {
    PiecesGrow(pieces, piece);
    WellFormedGrows(pieces, piece);
    match piece
    case Tool(id, _) => ToolTaken(c, IDs(pieces), id);
    case Name(text, delta) => NameTaken(c, Names(pieces), Update(text, delta));
    case Args(text, delta) => ArgumentsTaken(c, Arguments(pieces), Update(text, delta), matches);
    case More(text) => ArgumentsTaken(c, Arguments(pieces), Update(text, true), matches);
    case _ =>
  }

  /** Nothing that comes later makes up for a violation. */
  lemma AcceptableShrinks(pieces: seq<Piece>, piece: Piece, matches: string -> bool)
    requires Acceptable(pieces + [piece], matches)
    ensures Acceptable(pieces, matches)
  {
    PiecesGrow(pieces, piece);
    WellFormedGrows(pieces, piece);
    assert forall a :: a in IDs(pieces) ==> a in IDs(pieces + [piece]);
    if piece.Name? {
      ToldGrows(Names(pieces), Update(piece.text, piece.delta));
      GrowingGrows(Names(pieces), Update(piece.text, piece.delta));
    } else if piece.Args? || piece.More? {
      RewritableGrows(Arguments(pieces), ArgumentsIn(piece)[0], matches);
      BoundedGrows(Arguments(pieces), ArgumentsIn(piece)[0]);
    }
  }

  predicate Judged(c: Check, pieces: seq<Piece>, matches: string -> bool) {
    (c.violation <==> !Acceptable(pieces, matches)) && (!c.violation ==> SaysSoFar(c, pieces, matches))
  }

  lemma {:induction false} ViolationStays(c: Check, pieces: seq<Piece>, matches: string -> bool)
    requires c.violation
    ensures TakeAll(c, pieces, matches).violation
    decreases |pieces|
  {
    if pieces == [] {
    } else {
      ViolationStays(c, pieces[..|pieces| - 1], matches);
    }
  }

  lemma {:induction false} PiecesAreJudged(pieces: seq<Piece>, matches: string -> bool)
    ensures Judged(TakeAll(FRESH, pieces, matches), pieces, matches)
    decreases |pieces|
  {
    if pieces == [] {
      assert SaysSoFar(FRESH, [], matches);
    } else {
      var prefix, last := pieces[..|pieces| - 1], pieces[|pieces| - 1];
      PiecesAreJudged(prefix, matches);
      assert pieces == prefix + [last];
      var c := TakeAll(FRESH, prefix, matches);
      if c.violation {
        if Acceptable(pieces, matches) {
          AcceptableShrinks(prefix, last, matches);
        }
      } else {
        TakeSays(c, prefix, last, matches);
      }
    }
  }

  lemma {:induction false} TakeBoth(c: Check, a: seq<Piece>, b: seq<Piece>, matches: string -> bool)
    ensures TakeAll(c, a + b, matches) == TakeAll(TakeAll(c, a, matches), b, matches)
    decreases |b|
  {
    if b == [] {
      assert a + b == a;
    } else {
      TakeBoth(c, a, b[..|b| - 1], matches);
      assert (a + b)[..|a + b| - 1] == a + b[..|b| - 1];
    }
  }

  /** Not looking at the payloads after a violation changes nothing that matters. */
  lemma {:induction false} SkippingIsInvisible(endpoint: Endpoint, payloads: seq<Object>, matches: string -> bool)
    ensures var c, all := ObserveAll(endpoint, payloads, matches), TakeAll(FRESH, Pieces(endpoint, payloads), matches);
            c.violation == all.violation && (!c.violation ==> c == all)
    decreases |payloads|
  {
    if payloads == [] {
    } else {
      var prefix, last := payloads[..|payloads| - 1], PiecesOf(endpoint, payloads[|payloads| - 1]);
      SkippingIsInvisible(endpoint, prefix, matches);
      TakeBoth(FRESH, Pieces(endpoint, prefix), last, matches);
      var all := TakeAll(FRESH, Pieces(endpoint, prefix), matches);
      if all.violation {
        ViolationStays(all, last, matches);
      }
    }
  }

  /** Any stream of payloads on any endpoint, cut in any way: the check objects exactly when there is
      a breach of shape, a second call, arguments without a call, two ids or an overlong one, a name
      that is restated differently or is no beginning of the tool's, or arguments that at some point
      are too long or contradict what was told; otherwise it has gathered the name and arguments told. */
  lemma StreamIsJudgedAsWhole(endpoint: Endpoint, payloads: seq<Object>, matches: string -> bool)
    ensures var c, pieces := ObserveAll(endpoint, payloads, matches), Pieces(endpoint, payloads);
            && (c.violation <==> !Acceptable(pieces, matches))
            && (!c.violation ==> SaysSoFar(c, pieces, matches))
  {
    SkippingIsInvisible(endpoint, payloads, matches);
    PiecesAreJudged(Pieces(endpoint, payloads), matches);
  }

  // ---- The verdict ----

  datatype Execution = Execution(sentAtMS: int, observerIncomplete: bool, ignored: bool, success: bool,
                                 statusCode: int, normalEndSeen: bool, partial: bool)
  datatype Verdict = NotSent | Incomplete | Canceled | Violation | ExecutionFailed | Passed
  datatype Match = Unknown | Known(matched: bool)
  datatype Result = Result(verdict: Verdict, tool: Match, nonce: Match)

  function VerdictOf(c: Check, e: Execution, nameMatched: bool, nonceMatched: bool): Verdict {
    if e.sentAtMS <= 0 then NotSent
    else if e.observerIncomplete then Incomplete
    else if e.ignored && !e.success then Canceled
    else if c.violation then Violation
    else if e.statusCode >= 400 then ExecutionFailed
    else if !e.normalEndSeen || e.partial then Incomplete
    else if !nameMatched || !nonceMatched then Violation
    else if !e.success then ExecutionFailed
    else Passed
  }

  function Finalize(c: Check, e: Execution, matches: string -> bool): Result {
    var nameMatched := c.toolSeen && c.name == TOOL;
    var nonceMatched := c.toolSeen && matches(c.args);
    Result(VerdictOf(c, e, nameMatched, nonceMatched),
           if c.toolSeen then Known(nameMatched) else Unknown, if c.toolSeen then Known(nonceMatched) else Unknown)
  }

  /** Two streams that tell the same call: the same texts in the end and the same ids, however the
      texts were cut and however often they were restated on the way. */
  predicate SameCall(a: seq<Piece>, b: seq<Piece>) {
    && WellFormed(a) && WellFormed(b) && HasTool(a) == HasTool(b) && IDs(a) == IDs(b)
    && Growing(Names(a)) && Growing(Names(b)) && Told(Names(a)) == Told(Names(b))
    && Growing(Arguments(a)) && Growing(Arguments(b)) && Told(Arguments(a)) == Told(Arguments(b))
  }

  /** What only grows is bounded all along when it is bounded in the end. */
  lemma {:induction false} GrowingIsBounded(updates: seq<Update>, matches: string -> bool)
    requires Growing(updates)
    ensures Rewritable(updates, matches) && (Bounded(updates) <==> |Told(updates)| <= MAX_ARGS)
    decreases |updates|
  {
    if updates == [] {
    } else {
      var prefix, last := updates[..|updates| - 1], updates[|updates| - 1];
      assert updates == prefix + [last];
      ToldGrows(prefix, last);
      GrowingGrows(prefix, last);
      RewritableGrows(prefix, last, matches);
      BoundedGrows(prefix, last);
      GrowingIsBounded(prefix, matches);
    }
  }

  /** However one tool call is cut into events, restated along the way or sent whole, and on whichever
      endpoint, the violation flag and the verdict are the same for every execution, and without a
      violation the whole result is, name and arguments included. */
  lemma FragmentationIsInvisible(here: Endpoint, cut: seq<Object>, there: Endpoint, whole: seq<Object>,
                                 e: Execution, matches: string -> bool)
    requires SameCall(Pieces(here, cut), Pieces(there, whole))
    ensures var a, b := ObserveAll(here, cut, matches), ObserveAll(there, whole, matches);
            && a.violation == b.violation
            && (!a.violation ==> a == b)
            && Finalize(a, e, matches).verdict == Finalize(b, e, matches).verdict
            && (!a.violation ==> Finalize(a, e, matches) == Finalize(b, e, matches))
  {
    StreamIsJudgedAsWhole(here, cut, matches);
    StreamIsJudgedAsWhole(there, whole, matches);
    GrowingIsBounded(Arguments(Pieces(here, cut)), matches);
    GrowingIsBounded(Arguments(Pieces(there, whole)), matches);
    var a, b := ObserveAll(here, cut, matches), ObserveAll(there, whole, matches);
    assert !a.violation && !b.violation ==> a.toolID == b.toolID by {
      if !a.violation && !b.violation && a.toolID != "" {
        assert a.toolID in IDs(Pieces(there, whole));
      }
    }
  }

  /** What was told is told once more. */
  predicate Retells(pieces: seq<Piece>, piece: Piece) {
    match piece
    case Tool(id, start) => !start && (id == "" || id in IDs(pieces))
    case Name(text, delta) => !delta && text == Told(Names(pieces))
    case Args(text, delta) => !delta && text == Told(Arguments(pieces))
    case _ => false
  }

  /** Telling parts of the call again, as the closing events do, tells the same call. */
  lemma RetellingIsInvisible(pieces: seq<Piece>, piece: Piece)
    requires WellFormed(pieces) && HasTool(pieces) && Growing(Names(pieces)) && Growing(Arguments(pieces))
    requires Retells(pieces, piece)
    ensures SameCall(pieces + [piece], pieces)
  {
    PiecesGrow(pieces, piece);
    WellFormedGrows(pieces, piece);
    match piece
    case Tool(id, _) => assert IDs(pieces) + IDIn(piece) == IDs(pieces);
    case Name(text, _) =>
      ToldGrows(Names(pieces), Update(text, false));
      GrowingGrows(Names(pieces), Update(text, false));
    case Args(text, _) =>
      ToldGrows(Arguments(pieces), Update(text, false));
      GrowingGrows(Arguments(pieces), Update(text, false));
  }

  /** A pass certifies exactly one call of the tool, in one stream of the expected shape. */
  lemma PassedMeansTheExpectedCall(endpoint: Endpoint, payloads: seq<Object>, e: Execution, matches: string -> bool)
    ensures var pieces := Pieces(endpoint, payloads);
            Finalize(ObserveAll(endpoint, payloads, matches), e, matches).verdict.Passed? <==>
            && e.sentAtMS > 0 && !e.observerIncomplete && e.success && e.statusCode < 400
            && e.normalEndSeen && !e.partial
            && HasTool(pieces) && Told(Names(pieces)) == TOOL && matches(Told(Arguments(pieces)))
            && Acceptable(pieces, matches)
  {
    StreamIsJudgedAsWhole(endpoint, payloads, matches);
  }

  // ---- Reported usage ----

  const MAX_INT64 := 0x7fff_ffff_ffff_ffff
  const COUNTERS := [("input_tokens", true), ("prompt_tokens", true), ("output_tokens", false),
                     ("completion_tokens", false)]

  function Decimal(digits: string): int
    decreases |digits|
  {
    if digits == [] then 0 else 10 * Decimal(digits[..|digits| - 1]) + (digits[|digits| - 1] as int - '0' as int)
  }

  /** Decodes to a non-negative 64-bit integer; null does, to zero. */
  predicate IsCount(field: Json) {
    && field.Present?
    && (|| field.value.Null?
        || (field.value.Number?
            && (|| field.raw == "-0"
                || ((forall i :: 0 <= i < |field.raw| ==> '0' <= field.raw[i] <= '9') && field.raw != ""
                    && Decimal(field.raw) <= MAX_INT64))))
  }

  predicate CountsIn(counters: seq<(string, bool)>, usage: Object, input: bool) {
    exists counter :: counter in counters && counter.1 == input && IsCount(Get(usage, counter.0))
  }

  predicate Counts(usage: Object, input: bool) {
    CountsIn(COUNTERS, usage, input)
  }

  function UsageOf(holder: Object): Object {
    FieldsOf(Get(holder, "usage"))
  }

  /** Usage is looked for at the top, in the message and in the response. */
  predicate Reports(payload: Object, input: bool) {
    || Counts(UsageOf(payload), input)
    || Counts(UsageOf(FieldsOf(Get(payload, "message"))), input)
    || Counts(UsageOf(FieldsOf(Get(payload, "response"))), input)
  }

  // ---- The check object ----

  lemma TakeFew(c: Check, pieces: seq<Piece>, matches: string -> bool)
    requires 1 <= |pieces| <= 3
    ensures TakeAll(c, pieces, matches) ==
            var first := Take(c, pieces[0], matches);
            if |pieces| == 1 then first
            else
              var second := Take(first, pieces[1], matches);
              if |pieces| == 2 then second else Take(second, pieces[2], matches)
  {
    assert forall i, k :: 0 <= i <= k <= |pieces| ==> pieces[..k][..i] == pieces[..i];
    assert TakeAll(c, pieces[..0], matches) == c;
    assert TakeAll(c, pieces[..1], matches) == Take(c, pieces[0], matches);
  }

  class CanaryCheck {
    const endpoint: Endpoint
    const matches: string -> bool
    var toolSeen: bool
    var toolID: string
    var name: string
    var args: string
    var violation: bool
    var inputPresent: bool
    var outputPresent: bool

    ghost function View(): Check
      reads this
    {
      Check(toolSeen, toolID, name, args, violation)
    }

    constructor (endpoint: Endpoint, matches: string -> bool)
      ensures View() == FRESH && !inputPresent && !outputPresent
      ensures this.endpoint == endpoint && this.matches == matches
    {
      this.endpoint, this.matches := endpoint, matches;
      toolSeen, toolID, name, args, violation := false, "", "", "", false;
      inputPresent, outputPresent := false, false;
    }

    method TakeUsage(usage: Object)
      modifies this`inputPresent, this`outputPresent
      ensures inputPresent == (old(inputPresent) || Counts(usage, true))
      ensures outputPresent == (old(outputPresent) || Counts(usage, false))
    {
      var k := 0;
      while k < |COUNTERS|
        invariant 0 <= k <= |COUNTERS|
        invariant inputPresent == (old(inputPresent) || CountsIn(COUNTERS[..k], usage, true))
        invariant outputPresent == (old(outputPresent) || CountsIn(COUNTERS[..k], usage, false))
      {
        if IsCount(Get(usage, COUNTERS[k].0)) {
          if COUNTERS[k].1 {
            inputPresent := true;
          } else {
            outputPresent := true;
          }
        }
        k := k + 1;
      }
    }

    method BindID(id: string, start: bool)
      modifies this`violation, this`toolSeen, this`toolID
      ensures View() == Bind(old(View()), id, start)
    {
      if |id| > MAX_ID || (start && toolSeen) || (toolID != "" && id != "" && toolID != id) {
        violation := true;
        return;
      }
      toolSeen := true;
      if id != "" {
        toolID := id;
      }
    }

    method SetNameText(text: string, delta: bool)
      modifies this`violation, this`name
      ensures View() == SetName(old(View()), text, delta)
    {
      if text == "" {
        return;
      }
      if |text| > |TOOL| {
        violation := true;
        return;
      }
      if delta {
        if |name| + |text| > |TOOL| {
          violation := true;
          return;
        }
        name := name + text;
      } else if name == "" || name <= text {
        name := text;
      } else {
        violation := true;
        return;
      }
      if |name| > |TOOL| || !(name <= TOOL) {
        violation := true;
      }
    }

    method SetArgsText(text: string, delta: bool)
      modifies this`violation, this`args
      ensures View() == SetArgs(old(View()), text, delta, matches)
    {
      if text == "" {
        return;
      }
      if delta {
        if |args| + |text| > MAX_ARGS {
          violation := true;
          return;
        }
        args := args + text;
      } else {
        if |text| > MAX_ARGS {
          violation := true;
          return;
        }
        if args != "" && !(args <= text) && !(matches(args) && matches(text)) {
          violation := true;
          return;
        }
        args := text;
      }
    }

    method CheckIndex(field: Json) returns (ok: bool)
      modifies this`violation
      ensures ok == IndexOK(field) && violation == (old(violation) || !ok)
    {
      if field.Missing? {
        return true;
      }
      if field.raw !in {"0", "-0"} {
        violation := true;
        return false;
      }
      return true;
    }

    method TakeBlock(block: Object)
      modifies this`violation, this`toolSeen, this`toolID, this`name, this`args
      ensures View() == TakeAll(old(View()), BlockPieces(block), matches)
    {
      TakeFew(View(), BlockPieces(block), matches);
      if TextOf(Get(block, "type")) != "tool_use" {
        violation := true;
        return;
      }
      BindID(TextOf(Get(block, "id")), true);
      SetNameText(TextOf(Get(block, "name")), false);
      var input := Get(block, "input");
      if input.Present? && input.raw !in {"", "{}"} {
        SetArgsText(input.raw, false);
      }
    }

    method TakeBlockEvent(payload: Object)
      modifies this`violation, this`toolSeen, this`toolID, this`name, this`args
      ensures View() == TakeAll(old(View()), BlockEventPieces(payload), matches)
    {
      var kind := TextOf(Get(payload, "type"));
      if kind == "content_block_start" {
        var ok := CheckIndex(Get(payload, "index"));
        if ok {
          TakeBlock(FieldsOf(Get(payload, "content_block")));
        } else {
          TakeFew(old(View()), [Breach], matches);
        }
      }
      if kind == "content_block_delta" {
        var ok := CheckIndex(Get(payload, "index"));
        if ok {
          TakeBlockDelta(FieldsOf(Get(payload, "delta")));
        } else {
          TakeFew(old(View()), [Breach], matches);
        }
      }
    }

    method TakeBlockDelta(delta: Object)
      modifies this`violation, this`args
      ensures View() == TakeAll(old(View()), BlockDeltaPieces(delta), matches)
    {
      if BlockDeltaPieces(delta) != [] {
        TakeFew(View(), BlockDeltaPieces(delta), matches);
      }
      var kind := TextOf(Get(delta, "type"));
      if kind == "input_json_delta" {
        if !toolSeen {
          violation := true;
          return;
        }
        SetArgsText(TextOf(Get(delta, "partial_json")), true);
      } else if kind == "text_delta" || kind == "thinking_delta" {
        if TextOf(Get(delta, "text")) != "" || TextOf(Get(delta, "thinking")) != "" {
          violation := true;
        }
      }
    }

    method TakeMessages(payload: Object)
      modifies this
      ensures View() == TakeAll(old(View()), MessagesPieces(payload), matches)
      ensures inputPresent == (old(inputPresent) || Counts(UsageOf(FieldsOf(Get(payload, "message"))), true))
      ensures outputPresent == (old(outputPresent) || Counts(UsageOf(FieldsOf(Get(payload, "message"))), false))
    {
      TakeUsage(UsageOf(FieldsOf(Get(payload, "message"))));
      var content := Get(payload, "content");
      if content.Present? {
        var blocks := ItemsOf(content);
        if |blocks| != 1 {
          violation := true;
          TakeFew(old(View()), [Breach], matches);
          return;
        }
        TakeBlock(FieldsOf(blocks[0]));
        TakeBoth(old(View()), BlockPieces(FieldsOf(blocks[0])), BlockEventPieces(payload), matches);
      }
      TakeBlockEvent(payload);
    }

    method TakeCall(call: Object, delta: bool)
      modifies this`violation, this`toolSeen, this`toolID, this`name, this`args
      ensures View() == TakeAll(old(View()), CallPieces(call, delta), matches)
    {
      TakeFew(View(), CallPieces(call, delta), matches);
      if !Get(call, "type").Missing? && TextOf(Get(call, "type")) != "function" {
        violation := true;
        return;
      }
      var ok := CheckIndex(Get(call, "index"));
      if !ok {
        return;
      }
      BindID(TextOf(Get(call, "id")), !delta);
      var fn := FieldsOf(Get(call, "function"));
      SetNameText(TextOf(Get(fn, "name")), delta);
      SetArgsText(TextOf(Get(fn, "arguments")), delta);
    }

    method TakeChoice(choice: Object)
      modifies this`violation, this`toolSeen, this`toolID, this`name, this`args
      ensures View() == TakeAll(old(View()), ChoicePieces(choice), matches)
    {
      TakeFew(View(), [Breach], matches);
      var ok := CheckIndex(Get(choice, "index"));
      if !ok {
        return;
      }
      var delta := IsObject(Get(choice, "delta"));
      var message := FieldsOf(Get(choice, "delta"));
      if !delta {
        message := FieldsOf(Get(choice, "message"));
      }
      var f := 0;
      while f < |FORBIDDEN|
        invariant 0 <= f <= |FORBIDDEN| && View() == old(View())
        invariant forall i :: 0 <= i < f ==> Quiet(Get(message, FORBIDDEN[i]))
      {
        if !Quiet(Get(message, FORBIDDEN[f])) {
          violation := true;
          return;
        }
        f := f + 1;
      }
      var calls := ItemsOf(Get(message, "tool_calls"));
      if |calls| > 1 {
        violation := true;
        return;
      }
      if |calls| == 1 {
        TakeCall(FieldsOf(calls[0]), delta);
      }
    }

    method TakeChat(payload: Object)
      modifies this`violation, this`toolSeen, this`toolID, this`name, this`args
      ensures View() == TakeAll(old(View()), ChatPieces(payload), matches)
    {
      var choices := ItemsOf(Get(payload, "choices"));
      if |choices| > 1 {
        violation := true;
        TakeFew(old(View()), [Breach], matches);
        return;
      }
      if |choices| == 1 {
        TakeChoice(FieldsOf(choices[0]));
      }
    }

    method TakeItem(item: Object, start: bool)
      modifies this`violation, this`toolSeen, this`toolID, this`name, this`args
      ensures View() == TakeAll(old(View()), ItemPieces(item, start), matches)
    {
      TakeFew(View(), ItemPieces(item, start), matches);
      if TextOf(Get(item, "type")) != "function_call" {
        violation := true;
        return;
      }
      BindID(TextOf(Get(item, "id")), start);
      SetNameText(TextOf(Get(item, "name")), false);
      SetArgsText(TextOf(Get(item, "arguments")), false);
    }

    /** The item events and the argument events, or a bad index. */
    method TakeItemEvent(payload: Object) returns (ok: bool)
      modifies this`violation, this`toolSeen, this`toolID, this`name, this`args
      ensures ok <==>
                (TextOf(Get(payload, "type")) in ITEM_EVENTS + ARGUMENT_EVENTS ==>
                   IndexOK(Get(payload, "output_index")))
      ensures View() == TakeAll(old(View()), if ok then ItemEventPieces(payload) else [Breach], matches)
    {
      ok := true;
      var kind := TextOf(Get(payload, "type"));
      if kind in ITEM_EVENTS {
        ok := CheckIndex(Get(payload, "output_index"));
        if ok {
          TakeItem(FieldsOf(Get(payload, "item")), kind == "response.output_item.added");
        } else {
          TakeFew(old(View()), [Breach], matches);
        }
        return;
      }
      if kind in ARGUMENT_EVENTS {
        ok := CheckIndex(Get(payload, "output_index"));
        if !ok {
          TakeFew(old(View()), [Breach], matches);
          return;
        }
        TakeFew(old(View()), ItemEventPieces(payload), matches);
        BindID(TextOf(Get(payload, "item_id")), false);
        if kind == "response.function_call_arguments.delta" {
          SetArgsText(TextOf(Get(payload, "delta")), true);
        } else {
          SetArgsText(TextOf(Get(payload, "arguments")), false);
        }
      }
    }

    method TakeOutput(payload: Object)
      modifies this
      ensures View() == TakeAll(old(View()), OutputPieces(payload), matches)
      ensures inputPresent == (old(inputPresent) || Counts(UsageOf(FieldsOf(Get(payload, "response"))), true))
      ensures outputPresent == (old(outputPresent) || Counts(UsageOf(FieldsOf(Get(payload, "response"))), false))
    {
      var response := FieldsOf(Get(payload, "response"));
      if IsObject(Get(payload, "response")) {
        TakeUsage(UsageOf(response));
      } else {
        response := payload;
      }
      var output := Get(response, "output");
      if output.Present? {
        var items := ItemsOf(output);
        if |items| != 1 {
          violation := true;
          TakeFew(old(View()), [Breach], matches);
          return;
        }
        TakeItem(FieldsOf(items[0]), false);
      }
    }

    method TakeProse(payload: Object)
      modifies this`violation
      ensures View() == TakeAll(old(View()), ProsePieces(payload), matches)
    {
      TakeFew(View(), [Breach], matches);
      var kind := TextOf(Get(payload, "type"));
      if Contains(kind, "output_text") || Contains(kind, "refusal") {
        if TextOf(Get(payload, "delta")) != "" || TextOf(Get(payload, "text")) != "" {
          violation := true;
        }
      }
    }

    method TakePart(payload: Object)
      modifies this`violation
      ensures View() == TakeAll(old(View()), PartPieces(payload), matches)
    {
      TakeFew(View(), [Breach], matches);
      var part := FieldsOf(Get(payload, "part"));
      if TextOf(Get(part, "text")) != "" || TextOf(Get(part, "refusal")) != "" {
        violation := true;
      }
    }

    method TakeResponses(payload: Object)
      modifies this
      ensures View() == TakeAll(old(View()), ResponsesPieces(payload), matches)
      ensures inputPresent ==> old(inputPresent) || Counts(UsageOf(FieldsOf(Get(payload, "response"))), true)
      ensures outputPresent ==> old(outputPresent) || Counts(UsageOf(FieldsOf(Get(payload, "response"))), false)
      ensures old(inputPresent) ==> inputPresent
      ensures old(outputPresent) ==> outputPresent
    {
      ghost var prose := ProsePieces(payload);
      TakeProse(payload);
      var ok := TakeItemEvent(payload);
      if !ok {
        TakeBoth(old(View()), prose, [Breach], matches);
        return;
      }
      TakePart(payload);
      TakeOutput(payload);
      ghost var event, part := ItemEventPieces(payload), PartPieces(payload);
      TakeBoth(old(View()), prose, event, matches);
      TakeBoth(old(View()), prose + event, part, matches);
      TakeBoth(old(View()), prose + event + part, OutputPieces(payload), matches);
    }

    method TakeUsages(payload: Object)
      modifies this`inputPresent, this`outputPresent
      ensures inputPresent == (old(inputPresent) || Reports(payload, true))
      ensures outputPresent == (old(outputPresent) || Reports(payload, false))
    {
      TakeUsage(UsageOf(payload));
      TakeUsage(UsageOf(FieldsOf(Get(payload, "message"))));
      TakeUsage(UsageOf(FieldsOf(Get(payload, "response"))));
    }

    /** Usage is taken from every payload; the call is followed until something is wrong. */
    method ObservePayload(payload: Object)
      modifies this
      ensures View() == Observe(old(View()), endpoint, payload, matches)
      ensures inputPresent == (old(inputPresent) || Reports(payload, true))
      ensures outputPresent == (old(outputPresent) || Reports(payload, false))
    {
      TakeUsages(payload);
      if violation {
        return;
      }
      match endpoint
      case Messages => TakeMessages(payload);
      case Responses => TakeResponses(payload);
      case ChatCompletions => TakeChat(payload);
      case OtherEndpoint =>
        violation := true;
        TakeFew(old(View()), [Breach], matches);
    }
  }
}
