/** One tool call cut into events, on each endpoint, and the same call sent whole. */
module CanaryCuts {
  import opened Canary

  // ---- The shapes of payloads that carry the call ----

  /** A choice with exactly one function call and nothing else in it. */
  predicate ChatSays(payload: Object, id: string, name: string, args: string, delta: bool) {
    var choices := ItemsOf(Get(payload, "choices"));
    && |choices| == 1
    && var choice := FieldsOf(choices[0]);
    var calls := ItemsOf(Get(MessageOf(choice), "tool_calls"));
    && IndexOK(Get(choice, "index")) && AllQuiet(MessageOf(choice)) && IsObject(Get(choice, "delta")) == delta
    && |calls| == 1
    && CallSays(FieldsOf(calls[0]), id, name, args)
  }

  predicate CallSays(call: Object, id: string, name: string, args: string) {
    var fn := FieldsOf(Get(call, "function"));
    && (Get(call, "type").Missing? || TextOf(Get(call, "type")) == "function") && IndexOK(Get(call, "index"))
    && TextOf(Get(call, "id")) == id && TextOf(Get(fn, "name")) == name && TextOf(Get(fn, "arguments")) == args
  }

  /** The input of a block as told: an empty object is a placeholder for deltas to come. */
  function InputOf(block: Object): string {
    var input := Get(block, "input");
    if input.Missing? || input.raw == "{}" then "" else input.raw
  }

  predicate BlockSays(block: Object, id: string, name: string, args: string) {
    && TextOf(Get(block, "type")) == "tool_use" && TextOf(Get(block, "id")) == id
    && TextOf(Get(block, "name")) == name && InputOf(block) == args
  }

  predicate ItemSays(item: Object, id: string, name: string, args: string) {
    && TextOf(Get(item, "type")) == "function_call" && TextOf(Get(item, "id")) == id
    && TextOf(Get(item, "name")) == name && TextOf(Get(item, "arguments")) == args
  }

  const ADDED := "response.output_item.added"
  const ARGS_DELTA := "response.function_call_arguments.delta"

  /** An event of the Responses stream that carries neither text parts nor a finished output. */
  predicate PlainEvent(payload: Object, kind: string) {
    && TextOf(Get(payload, "type")) == kind && IndexOK(Get(payload, "output_index"))
    && Get(payload, "part").Missing? && Get(payload, "response").Missing? && Get(payload, "output").Missing?
  }

  /** The first payload of a stream that speaks of the call. */
  predicate Begins(endpoint: Endpoint, payload: Object, id: string, name: string, args: string) {
    match endpoint
    case ChatCompletions => ChatSays(payload, id, name, args, true)
    case Messages =>
      && Get(payload, "content").Missing? && TextOf(Get(payload, "type")) == "content_block_start"
      && IndexOK(Get(payload, "index")) && BlockSays(FieldsOf(Get(payload, "content_block")), id, name, args)
    case Responses =>
      && PlainEvent(payload, ADDED)
      && ItemSays(FieldsOf(Get(payload, "item")), id, name, args)
    case OtherEndpoint => false
  }

  /** A later payload, with some more of the name or the arguments; the id may be repeated. */
  predicate Continues(endpoint: Endpoint, payload: Object, id: string, name: string, args: string) {
    match endpoint
    case ChatCompletions => ChatSays(payload, id, name, args, true) || ChatSays(payload, "", name, args, true)
    case Messages =>
      && Get(payload, "content").Missing? && TextOf(Get(payload, "type")) == "content_block_delta"
      && IndexOK(Get(payload, "index")) && name == ""
      && (var delta := FieldsOf(Get(payload, "delta"));
          TextOf(Get(delta, "type")) == "input_json_delta" && TextOf(Get(delta, "partial_json")) == args)
    case Responses =>
      && PlainEvent(payload, ARGS_DELTA) && name == ""
      && TextOf(Get(payload, "item_id")) in {"", id} && TextOf(Get(payload, "delta")) == args
    case OtherEndpoint => false
  }

  /** A payload with all of the call, as a response without streaming has it. */
  predicate Holds(endpoint: Endpoint, payload: Object, id: string, name: string, args: string) {
    match endpoint
    case ChatCompletions => ChatSays(payload, id, name, args, false)
    case Messages =>
      && TextOf(Get(payload, "type")) !in {"content_block_start", "content_block_delta"}
      && |ItemsOf(Get(payload, "content"))| == 1
      && BlockSays(FieldsOf(ItemsOf(Get(payload, "content"))[0]), id, name, args)
    case Responses =>
      && TextOf(Get(payload, "type")) == "" && Get(payload, "part").Missing? && Get(payload, "response").Missing?
      && |ItemsOf(Get(payload, "output"))| == 1
      && ItemSays(FieldsOf(ItemsOf(Get(payload, "output"))[0]), id, name, args)
    case OtherEndpoint => false
  }

  predicate Silent(endpoint: Endpoint, payload: Object) {
    PiecesOf(endpoint, payload) == []
  }

  // ---- Streams ----

  /** What one payload of a stream says; both texts are empty for a silent one. */
  datatype Part = Part(name: string, args: string)

  predicate SaysNothing(endpoint: Endpoint, payload: Object, part: Part) {
    Silent(endpoint, payload) && part == Part("", "")
  }

  function JoinedName(parts: seq<Part>): string
    decreases |parts|
  {
    if parts == [] then "" else JoinedName(parts[..|parts| - 1]) + parts[|parts| - 1].name
  }

  function JoinedArgs(parts: seq<Part>): string
    decreases |parts|
  {
    if parts == [] then "" else JoinedArgs(parts[..|parts| - 1]) + parts[|parts| - 1].args
  }

  /** The call begins at payload `first` and goes on in the later ones, with silent payloads anywhere. */
  predicate Streams(endpoint: Endpoint, payloads: seq<Object>, first: nat, id: string, parts: seq<Part>) {
    && first < |payloads| == |parts|
    && (forall i :: 0 <= i < first ==> SaysNothing(endpoint, payloads[i], parts[i]))
    && Begins(endpoint, payloads[first], id, parts[first].name, parts[first].args)
    && (forall i :: first < i < |payloads| ==>
          || Continues(endpoint, payloads[i], id, parts[i].name, parts[i].args)
          || SaysNothing(endpoint, payloads[i], parts[i]))
  }

  // ---- What pieces tell ----

  predicate Shape(pieces: seq<Piece>, id: string) {
    WellFormed(pieces) && HasTool(pieces) && IDs(pieces) == (if id == "" then {} else {id})
  }

  predicate TextIs(updates: seq<Update>, text: string) {
    Growing(updates) && Told(updates) == text
  }

  predicate Tells(pieces: seq<Piece>, id: string, name: string, args: string) {
    Shape(pieces, id) && TextIs(Names(pieces), name) && TextIs(Arguments(pieces), args)
  }

  lemma ShapeGrows(pieces: seq<Piece>, piece: Piece, id: string)
    requires Shape(pieces, id) && !piece.Breach? && (piece.Tool? ==> !piece.start && piece.id in {"", id})
    ensures Shape(pieces + [piece], id)
  {
    PiecesGrow(pieces, piece);
    WellFormedGrows(pieces, piece);
    assert IDs(pieces) + IDIn(piece) == IDs(pieces);
  }

  lemma TextGrows(updates: seq<Update>, u: Update, told: string)
    requires TextIs(updates, told) && (u.delta || told == "")
    ensures TextIs(updates + [u], told + u.text)
  {
    ToldGrows(updates, u);
    GrowingGrows(updates, u);
  }

  lemma ToolAgain(pieces: seq<Piece>, other: string, id: string, name: string, args: string)
    requires Tells(pieces, id, name, args) && other in {"", id}
    ensures Tells(pieces + [Tool(other, false)], id, name, args)
  {
    PiecesGrow(pieces, Tool(other, false));
    ShapeGrows(pieces, Tool(other, false), id);
  }

  lemma MoreName(pieces: seq<Piece>, text: string, delta: bool, id: string, name: string, args: string)
    requires Tells(pieces, id, name, args) && (delta || name == "")
    ensures Tells(pieces + [Name(text, delta)], id, name + text, args)
  {
    PiecesGrow(pieces, Name(text, delta));
    ShapeGrows(pieces, Name(text, delta), id);
    TextGrows(Names(pieces), Update(text, delta), name);
  }

  lemma MoreArgs(pieces: seq<Piece>, text: string, delta: bool, id: string, name: string, args: string)
    requires Tells(pieces, id, name, args) && (delta || args == "")
    ensures Tells(pieces + [Args(text, delta)], id, name, args + text)
  {
    PiecesGrow(pieces, Args(text, delta));
    ShapeGrows(pieces, Args(text, delta), id);
    TextGrows(Arguments(pieces), Update(text, delta), args);
  }

  lemma MorePiece(pieces: seq<Piece>, text: string, id: string, name: string, args: string)
    requires Tells(pieces, id, name, args)
    ensures Tells(pieces + [More(text)], id, name, args + text)
  {
    PiecesGrow(pieces, More(text));
    ShapeGrows(pieces, More(text), id);
    TextGrows(Arguments(pieces), Update(text, true), args);
  }

  /** The pieces that open a call, in pieces or whole. */
  lemma OpeningTells(id: string, start: bool, name: string, args: string, delta: bool)
    ensures Tells([Tool(id, start), Name(name, delta)], id, name, "")
    ensures Tells([Tool(id, start), Name(name, delta), Args(args, delta)], id, name, args)
  {
    var tool, named := [Tool(id, start)], [Tool(id, start), Name(name, delta)];
    FirstTool(id, start);
    MoreName(tool, name, delta, id, "", "");
    assert tool + [Name(name, delta)] == named && "" + name == name;
    MoreArgs(named, args, delta, id, name, "");
    assert named + [Args(args, delta)] == [Tool(id, start), Name(name, delta), Args(args, delta)] && "" + args == args;
  }

  lemma FirstTool(id: string, start: bool)
    ensures Tells([Tool(id, start)], id, "", "")
  {
    FirstShape(Tool(id, start));
    FirstTexts(Tool(id, start));
    assert TextIs([], "");
  }

  lemma FirstTexts(tool: Piece)
    requires tool.Tool?
    ensures Names([tool]) == [] && Arguments([tool]) == []
  {
    var pieces := [tool];
    assert pieces[..0] == [] && pieces[0] == tool;
    assert Names(pieces) == Names(pieces[..0]) + NameIn(pieces[0]);
    assert Arguments(pieces) == Arguments(pieces[..0]) + ArgumentsIn(pieces[0]);
  }

  lemma FirstShape(tool: Piece)
    requires tool.Tool?
    ensures Shape([tool], tool.id)
  {
    assert [tool][..0] == [] && [tool][0].Tool?;
    assert IDs([tool]) == IDs([]) + IDIn(tool);
  }

  // ---- What each payload contributes ----

  lemma ChatPiecesOf(payload: Object, id: string, name: string, args: string, delta: bool)
    requires ChatSays(payload, id, name, args, delta)
    ensures ChatPieces(payload) == [Tool(id, !delta), Name(name, delta), Args(args, delta)]
  {
  }

  lemma BlockPiecesOf(block: Object, id: string, name: string, args: string)
    requires BlockSays(block, id, name, args)
    ensures args == "" ==> BlockPieces(block) == [Tool(id, true), Name(name, false)]
    ensures args != "" ==> BlockPieces(block) == [Tool(id, true), Name(name, false), Args(args, false)]
  {
  }

  lemma BlockTells(block: Object, id: string, name: string, args: string)
    requires BlockSays(block, id, name, args)
    ensures Tells(BlockPieces(block), id, name, args)
  {
    BlockPiecesOf(block, id, name, args);
    OpeningTells(id, true, name, args, false);
  }

  lemma ItemTells(item: Object, start: bool, id: string, name: string, args: string)
    requires ItemSays(item, id, name, args)
    ensures Tells(ItemPieces(item, start), id, name, args)
  {
    OpeningTells(id, start, name, args, false);
    assert ItemPieces(item, start) == [Tool(id, start), Name(name, false), Args(args, false)];
  }

  /** Neighbours in a text are neighbours wherever it occurs. */
  lemma Neighbours(text: string, part: string, k: nat)
    requires Contains(text, part) && 0 < k < |part|
    ensures exists j :: 1 <= j < |text| && text[j - 1] == part[k - 1] && text[j] == part[k]
  {
    var i :| 0 <= i <= |text| && part <= text[i..];
    assert text[i..][k - 1] == part[k - 1] && text[i..][k] == part[k];
    assert text[i + k - 1] == part[k - 1] && text[i + k] == part[k];
  }

  lemma NotPart(text: string, part: string, k: nat)
    requires 0 < k < |part|
    requires forall j :: 1 <= j < |text| ==> text[j] != part[k] || text[j - 1] != part[k - 1]
    ensures !Contains(text, part)
  {
    if Contains(text, part) {
      Neighbours(text, part, k);
    }
  }

  lemma ItemEventLetters()
    ensures forall j :: 0 <= j < |ADDED| ==> ADDED[j] != 'x' && ADDED[j] != 'f'
  {
  }

  lemma ArgumentEventLetters()
    ensures forall j :: 0 <= j < |ARGS_DELTA| ==> ARGS_DELTA[j] != 'x' && (ARGS_DELTA[j] == 'f' ==> j == 9)
    ensures ARGS_DELTA[8] == '.'
  {
  }

  lemma ItemEventIsNoProse()
    ensures !Contains(ADDED, "output_text") && !Contains(ADDED, "refusal")
  {
    ItemEventLetters();
    NotPart(ADDED, "output_text", 9);
    NotPart(ADDED, "refusal", 2);
  }

  lemma ArgumentEventIsNoProse()
    ensures !Contains(ARGS_DELTA, "output_text") && !Contains(ARGS_DELTA, "refusal")
  {
    ArgumentEventLetters();
    NotPart(ARGS_DELTA, "output_text", 9);
    NotPart(ARGS_DELTA, "refusal", 2);
  }

  lemma NoProse(payload: Object)
    requires TextOf(Get(payload, "type")) in {ADDED, ARGS_DELTA, ""}
    ensures ProsePieces(payload) == []
  {
    ItemEventIsNoProse();
    ArgumentEventIsNoProse();
  }

  lemma BeginningTells(endpoint: Endpoint, payload: Object, id: string, name: string, args: string)
    requires Begins(endpoint, payload, id, name, args)
    ensures Tells(PiecesOf(endpoint, payload), id, name, args)
  {
    match endpoint
    case ChatCompletions =>
      ChatPiecesOf(payload, id, name, args, true);
      OpeningTells(id, false, name, args, true);
    case Messages =>
      BlockTells(FieldsOf(Get(payload, "content_block")), id, name, args);
    case Responses =>
      NoProse(payload);
      ItemTells(FieldsOf(Get(payload, "item")), true, id, name, args);
      assert ResponsesPieces(payload) == ItemPieces(FieldsOf(Get(payload, "item")), true);
  }

  lemma WholePieces(endpoint: Endpoint, payload: Object, id: string, name: string, args: string)
    requires Holds(endpoint, payload, id, name, args)
    ensures match endpoint
            case ChatCompletions => ChatPieces(payload) == [Tool(id, true), Name(name, false), Args(args, false)]
            case Messages => MessagesPieces(payload) == BlockPieces(FieldsOf(ItemsOf(Get(payload, "content"))[0]))
            case Responses =>
              ResponsesPieces(payload) == ItemPieces(FieldsOf(ItemsOf(Get(payload, "output"))[0]), false)
            case OtherEndpoint => false
  {
    match endpoint
    case ChatCompletions => ChatPiecesOf(payload, id, name, args, false);
    case Messages =>
    case Responses => NoProse(payload);
  }

  lemma WholeTells(endpoint: Endpoint, payload: Object, id: string, name: string, args: string)
    requires Holds(endpoint, payload, id, name, args)
    ensures Tells(PiecesOf(endpoint, payload), id, name, args)
  {
    WholePieces(endpoint, payload, id, name, args);
    match endpoint
    case ChatCompletions => OpeningTells(id, true, name, args, false);
    case Messages => BlockTells(FieldsOf(ItemsOf(Get(payload, "content"))[0]), id, name, args);
    case Responses => ItemTells(FieldsOf(ItemsOf(Get(payload, "output"))[0]), false, id, name, args);
  }

  lemma ContinuationPieces(endpoint: Endpoint, payload: Object, id: string, part: Part)
    requires Continues(endpoint, payload, id, part.name, part.args)
    ensures match endpoint
            case ChatCompletions =>
              exists other :: other in {"", id}
                && ChatPieces(payload) == [Tool(other, false), Name(part.name, true), Args(part.args, true)]
            case Messages => MessagesPieces(payload) == [More(part.args)] && part.name == ""
            case Responses =>
              && TextOf(Get(payload, "item_id")) in {"", id} && part.name == ""
              && ResponsesPieces(payload) == [Tool(TextOf(Get(payload, "item_id")), false), Args(part.args, true)]
            case OtherEndpoint => false
  {
    match endpoint
    case ChatCompletions =>
      var other := if ChatSays(payload, id, part.name, part.args, true) then id else "";
      ChatPiecesOf(payload, other, part.name, part.args, true);
    case Messages =>
    case Responses => NoProse(payload);
  }

  lemma ArgumentsGoOn(pieces: seq<Piece>, other: string, text: string, id: string, name: string, args: string)
    requires Tells(pieces, id, name, args) && other in {"", id}
    ensures Tells(pieces + [Tool(other, false), Args(text, true)], id, name, args + text)
  {
    var seen := pieces + [Tool(other, false)];
    ToolAgain(pieces, other, id, name, args);
    MoreArgs(seen, text, true, id, name, args);
    assert pieces + [Tool(other, false), Args(text, true)] == seen + [Args(text, true)];
  }

  lemma NameGoesOn(pieces: seq<Piece>, other: string, text: string, id: string, name: string, args: string)
    requires Tells(pieces, id, name, args) && other in {"", id}
    ensures Tells(pieces + [Tool(other, false), Name(text, true)], id, name + text, args)
  {
    var seen := pieces + [Tool(other, false)];
    ToolAgain(pieces, other, id, name, args);
    MoreName(seen, text, true, id, name, args);
    assert pieces + [Tool(other, false), Name(text, true)] == seen + [Name(text, true)];
  }

  lemma CallGoesOn(pieces: seq<Piece>, other: string, part: Part, id: string, name: string, args: string)
    requires Tells(pieces, id, name, args) && other in {"", id}
    ensures Tells(pieces + [Tool(other, false), Name(part.name, true), Args(part.args, true)], id,
                  name + part.name, args + part.args)
  {
    var named := pieces + [Tool(other, false), Name(part.name, true)];
    var called := pieces + [Tool(other, false), Name(part.name, true), Args(part.args, true)];
    assert called == named + [Args(part.args, true)];
    assert Tells(named, id, name + part.name, args) by {
      NameGoesOn(pieces, other, part.name, id, name, args);
    }
    MoreArgs(named, part.args, true, id, name + part.name, args);
  }

  lemma ContinuationTells(endpoint: Endpoint, payload: Object, pieces: seq<Piece>, id: string, part: Part,
                          name: string, args: string)
    requires Continues(endpoint, payload, id, part.name, part.args)
    ensures Tells(pieces, id, name, args) ==>
              Tells(pieces + PiecesOf(endpoint, payload), id, name + part.name, args + part.args)
  {
    if Tells(pieces, id, name, args) {
      ContinuationPieces(endpoint, payload, id, part);
      match endpoint
      case ChatCompletions =>
        var other :| other in {"", id}
                     && ChatPieces(payload) == [Tool(other, false), Name(part.name, true), Args(part.args, true)];
        CallGoesOn(pieces, other, part, id, name, args);
      case Messages =>
        MorePiece(pieces, part.args, id, name, args);
        assert name + part.name == name;
      case Responses =>
        ArgumentsGoOn(pieces, TextOf(Get(payload, "item_id")), part.args, id, name, args);
        assert name + part.name == name;
    }
  }

  lemma LaterTells(endpoint: Endpoint, payload: Object, pieces: seq<Piece>, id: string, part: Part,
                   name: string, args: string)
    requires Continues(endpoint, payload, id, part.name, part.args) || SaysNothing(endpoint, payload, part)
    ensures Tells(pieces, id, name, args) ==>
              Tells(pieces + PiecesOf(endpoint, payload), id, name + part.name, args + part.args)
  {
    if SaysNothing(endpoint, payload, part) {
      assert pieces + PiecesOf(endpoint, payload) == pieces;
      assert name + part.name == name && args + part.args == args;
    } else {
      ContinuationTells(endpoint, payload, pieces, id, part, name, args);
    }
  }

  // ---- Any cut of a call is the call ----

  lemma {:induction false} SilenceTellsNothing(endpoint: Endpoint, payloads: seq<Object>)
    requires forall i :: 0 <= i < |payloads| ==> Silent(endpoint, payloads[i])
    ensures Pieces(endpoint, payloads) == []
    decreases |payloads|
  {
    if payloads == [] {
    } else {
      SilenceTellsNothing(endpoint, payloads[..|payloads| - 1]);
    }
  }

  lemma {:induction false} EmptyParts(parts: seq<Part>)
    requires forall i :: 0 <= i < |parts| ==> parts[i] == Part("", "")
    ensures JoinedName(parts) == "" && JoinedArgs(parts) == ""
    decreases |parts|
  {
    if parts == [] {
    } else {
      EmptyParts(parts[..|parts| - 1]);
    }
  }

  lemma BeginningOfStreamTells(endpoint: Endpoint, payloads: seq<Object>, first: nat, id: string, parts: seq<Part>)
    requires Streams(endpoint, payloads, first, id, parts) && first == |payloads| - 1
    ensures Tells(Pieces(endpoint, payloads), id, JoinedName(parts), JoinedArgs(parts))
  {
    SilenceTellsNothing(endpoint, payloads[..first]);
    EmptyParts(parts[..first]);
    BeginningTells(endpoint, payloads[first], id, parts[first].name, parts[first].args);
    var pieces := PiecesOf(endpoint, payloads[first]);
    assert Pieces(endpoint, payloads) == [] + pieces == pieces;
    assert JoinedName(parts) == "" + parts[first].name == parts[first].name;
    assert JoinedArgs(parts) == "" + parts[first].args == parts[first].args;
  }

  lemma StreamsShrink(endpoint: Endpoint, payloads: seq<Object>, first: nat, id: string, parts: seq<Part>, n: nat)
    requires Streams(endpoint, payloads, first, id, parts) && first < n < |payloads|
    ensures Streams(endpoint, payloads[..n], first, id, parts[..n])
    ensures || Continues(endpoint, payloads[n], id, parts[n].name, parts[n].args)
            || SaysNothing(endpoint, payloads[n], parts[n])
  {
  }

  lemma {:induction false} StreamTells(endpoint: Endpoint, payloads: seq<Object>, first: nat, id: string,
                                       parts: seq<Part>)
    requires Streams(endpoint, payloads, first, id, parts)
    ensures Tells(Pieces(endpoint, payloads), id, JoinedName(parts), JoinedArgs(parts))
    decreases |payloads|
  {
    var n := |payloads| - 1;
    if n == first {
      BeginningOfStreamTells(endpoint, payloads, first, id, parts);
    } else {
      var pieces, name, args := Pieces(endpoint, payloads[..n]), JoinedName(parts[..n]), JoinedArgs(parts[..n]);
      StreamsShrink(endpoint, payloads, first, id, parts, n);
      StreamTells(endpoint, payloads[..n], first, id, parts[..n]);
      LaterTells(endpoint, payloads[n], pieces, id, parts[n], name, args);
      assert Pieces(endpoint, payloads) == pieces + PiecesOf(endpoint, payloads[n]);
      assert JoinedName(parts) == name + parts[n].name && JoinedArgs(parts) == args + parts[n].args;
    }
  }

  lemma TellingTheSame(a: seq<Piece>, b: seq<Piece>, id: string, name: string, args: string)
    requires Tells(a, id, name, args) && Tells(b, id, name, args)
    ensures SameCall(a, b)
  {
  }

  lemma OnePayload(endpoint: Endpoint, whole: Object)
    ensures Pieces(endpoint, [whole]) == PiecesOf(endpoint, whole)
  {
    assert [whole][..0] == [] && Pieces(endpoint, []) == [];
  }

  /** Any cut of one call's name and arguments into the deltas of any endpoint, with silent payloads
      anywhere, is judged like the same call sent whole on any endpoint: the same flag and verdict for
      every execution, and without a violation the same id, name and arguments. */
  lemma AnyCutEqualsTheWhole(here: Endpoint, payloads: seq<Object>, first: nat, id: string, parts: seq<Part>,
                             there: Endpoint, whole: Object, e: Execution, matches: string -> bool)
    requires Streams(here, payloads, first, id, parts)
    requires Holds(there, whole, id, JoinedName(parts), JoinedArgs(parts))
    ensures var a, b := ObserveAll(here, payloads, matches), ObserveAll(there, [whole], matches);
            && a.violation == b.violation
            && (!a.violation ==> a == b)
            && Finalize(a, e, matches).verdict == Finalize(b, e, matches).verdict
  {
    StreamTells(here, payloads, first, id, parts);
    WholeTells(there, whole, id, JoinedName(parts), JoinedArgs(parts));
    OnePayload(there, whole);
    TellingTheSame(Pieces(here, payloads), Pieces(there, [whole]), id, JoinedName(parts), JoinedArgs(parts));
    FragmentationIsInvisible(here, payloads, there, [whole], e, matches);
  }

  // ---- Chat Completions, payload by payload ----

  function Str(text: string): Json {
    Present("\"" + text + "\"", Text(text))
  }

  function Obj(fields: Object): Json {
    Present("{...}", Fields(fields))
  }

  function List(item: Json): Json {
    Present("[...]", Array([item]))
  }

  /** One choice with one call, as a delta or as a complete message. */
  function ChatPayload(id: string, name: string, args: string, delta: bool): Object {
    var call := map["id" := Str(id), "type" := Str("function"),
                    "function" := Obj(map["name" := Str(name), "arguments" := Str(args)])];
    map["choices" := List(Obj(map[if delta then "delta" else "message" := Obj(map["tool_calls" := List(Obj(call))])]))]
  }

  lemma ChatPayloadSays(id: string, name: string, args: string, delta: bool)
    ensures ChatSays(ChatPayload(id, name, args, delta), id, name, args, delta)
  {
  }

  /** The id comes with the first chunk; name and arguments are cut in any way. */
  function Chunks(id: string, parts: seq<Part>): seq<Object> {
    seq(|parts|, i requires 0 <= i < |parts| =>
      ChatPayload(if i == 0 then id else "", parts[i].name, parts[i].args, true))
  }

  /** Cut into any number of delta chunks, one tool call is judged like the complete message. */
  lemma ChunksEqualTheMessage(id: string, parts: seq<Part>, e: Execution, matches: string -> bool)
    requires parts != []
    ensures var whole := ChatPayload(id, JoinedName(parts), JoinedArgs(parts), false);
            var a := ObserveAll(ChatCompletions, Chunks(id, parts), matches);
            var b := ObserveAll(ChatCompletions, [whole], matches);
            && a.violation == b.violation
            && (!a.violation ==> a == b)
            && Finalize(a, e, matches).verdict == Finalize(b, e, matches).verdict
  {
    ChunksStream(id, parts);
    ChatPayloadSays(id, JoinedName(parts), JoinedArgs(parts), false);
    AnyCutEqualsTheWhole(ChatCompletions, Chunks(id, parts), 0, id, parts, ChatCompletions,
                         ChatPayload(id, JoinedName(parts), JoinedArgs(parts), false), e, matches);
  }

  lemma ChunksStream(id: string, parts: seq<Part>)
    requires parts != []
    ensures Streams(ChatCompletions, Chunks(id, parts), 0, id, parts)
  {
    forall i | 0 <= i < |parts|
      ensures ChatSays(Chunks(id, parts)[i], if i == 0 then id else "", parts[i].name, parts[i].args, true)
    {
      ChatPayloadSays(if i == 0 then id else "", parts[i].name, parts[i].args, true);
    }
  }
}
