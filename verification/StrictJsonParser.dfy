/** The parser as the program runs it: one source, one position moved forward by loops. */
module StrictJsonParser {
  import opened Prelude
  import opened Json
  import opened JsonParser

  // ---------------------------------------------------------------- values found at the head of a text

  /** What `#value` finds in `s`, and the text after it. */
  function ValueAt(s: Text): (r: Result<Step<Value>, JsonError>)
    ensures r.Ok? ==> |r.value.rest| < |s|
  {
    match ParseTree(s[Lead(s)..])
    case Err(e) => Err(e)
    case Ok(t) =>
      TreeSound(s[Lead(s)..]);
      Ok(Step(Meaning(t.item), t.rest))
  }

  function CharsAt(s: Text): (r: Result<Step<Text>, JsonError>)
    ensures r.Ok? ==> |r.value.rest| < |s|
  {
    match ParseChars(s)
    case Err(e) => Err(e)
    case Ok(chars) => Ok(Step(CharsMeaning(chars.item), chars.rest))
  }

  function ItemsAt(s: Text): Result<Step<seq<Value>>, JsonError> {
    match ParseItems(s)
    case Err(e) => Err(e)
    case Ok(items) =>
      ItemsSound(s);
      Ok(Step(ItemsMeaning(items.item), items.rest))
  }

  function MembersAt(s: Text, names: set<Text>): Result<Step<map<Text, Value>>, JsonError> {
    match ParseMembers(s, names)
    case Err(e) => Err(e)
    case Ok(members) =>
      MembersSound(s, names);
      Ok(Step(MembersMeaning(members.item), members.rest))
  }

  /** What the reader of a list finds, given the elements read so far and what it finds next. */
  function Prepend<T>(before: seq<T>, r: Result<Step<seq<T>>, JsonError>): Result<Step<seq<T>>, JsonError> {
    match r
    case Err(e) => Err(e)
    case Ok(step) => Ok(Step(before + step.item, step.rest))
  }

  function PrependMap(before: map<Text, Value>, r: Result<Step<map<Text, Value>>, JsonError>)
    : Result<Step<map<Text, Value>>, JsonError>
  {
    match r
    case Err(e) => Err(e)
    case Ok(step) => Ok(Step(before + step.item, step.rest))
  }

  lemma PrependNothing<T>(r: Result<Step<seq<T>>, JsonError>)
    ensures Prepend([], r) == r
  {
    if r.Ok? {
      assert [] + r.value.item == r.value.item;
    }
  }

  lemma PrependNoMap(r: Result<Step<map<Text, Value>>, JsonError>)
    ensures PrependMap(map[], r) == r
  {
    if r.Ok? {
      assert map[] + r.value.item == r.value.item;
    }
  }

  // ---------------------------------------------------------------- how those unfold

  lemma LeadTwice(s: Text)
    ensures Lead(s[Lead(s)..]) == 0 && s[Lead(s)..][0..] == s[Lead(s)..]
  {
  }

  /** After a value comes a separator, the end of the list, or a mistake. */
  function ItemsThen(first: Step<Value>): Result<Step<seq<Value>>, JsonError> {
    var next := first.rest[Lead(first.rest)..];
    if next == [] then Err(InvalidJson)
    else if next[0] == RBRACKET then Ok(Step([first.item], next[1..]))
    else if next[0] != COMMA then Err(InvalidJson)
    else
      match ItemsAt(next[1..])
      case Err(e) => Err(e)
      case Ok(more) => Ok(Step([first.item] + more.item, more.rest))
  }

  lemma ItemsUnfold(s: Text)
    ensures ItemsAt(s) == match ValueAt(s) case Err(e) => Err(e) case Ok(first) => ItemsThen(first)
  {
    hide Meaning, WellFormed, ParseTree, Lead;
    if ParseItem(s).Ok? {
      ItemSound(s);
      var first := ParseItem(s).value;
      assert ValueAt(s) == Ok(Step(Meaning(first.item.value), ParseTree(s[Lead(s)..]).value.rest));
      var next := first.rest;
      ItemsMeaningCons(first.item, []);
      if next == [] {
        assert ItemsAt(s) == Err(InvalidJson);
      } else if next[0] == RBRACKET {
        assert ItemsAt(s) == Ok(Step([Meaning(first.item.value)], next[1..]));
      } else if next[0] == COMMA && ParseItems(next[1..]).Ok? {
        ItemsSound(next[1..]);
        ItemsMeaningCons(first.item, ParseItems(next[1..]).value.item);
        assert ItemsAt(s) == ItemsThen(ValueAt(s).value);
      } else {
        assert ItemsAt(s) == ItemsThen(ValueAt(s).value);
      }
    }
  }

  lemma ItemsMeaningCons(item: ItemTree, more: seq<ItemTree>)
    requires ItemsWellFormed([item]) && ItemsWellFormed(more)
    ensures ItemsWellFormed([item] + more) && ItemsMeaning([item] + more) == [Meaning(item.value)] + ItemsMeaning(more)
    ensures more == [] ==> [item] + more == [item] && ItemsMeaning([item]) == [Meaning(item.value)]
  {
    assert ([item] + more)[1..] == more;
  }

  lemma ItemsSkipSpace(s: Text)
    ensures ItemsAt(s) == ItemsAt(s[Lead(s)..])
  {
    LeadTwice(s);
    ItemsUnfold(s);
    ItemsUnfold(s[Lead(s)..]);
    hide ItemsAt, ItemsThen, Lead, ParseTree, Meaning, WellFormed;
  }

  function MembersThen(name: Text, first: Step<Value>, names: set<Text>): Result<Step<map<Text, Value>>, JsonError> {
    var next := first.rest[Lead(first.rest)..];
    if next == [] then Err(InvalidJson)
    else if next[0] == RBRACE then Ok(Step(map[name := first.item], next[1..]))
    else if next[0] != COMMA then Err(InvalidJson)
    else
      match MembersAt(next[1..], names + {name})
      case Err(e) => Err(e)
      case Ok(more) => Ok(Step(more.item[name := first.item], more.rest))
  }

  /** A member's name, with the whitespace before it. */
  function NameAt(s: Text): (r: Result<Step<Text>, JsonError>)
    ensures r.Ok? ==> |r.value.rest| < |s|
  {
    var t := s[Lead(s)..];
    if t == [] || t[0] != QUOTE then Err(InvalidJson) else CharsAt(t[1..])
  }

  /** A member's colon and value. */
  function AssignedAt(s: Text): (r: Result<Step<Value>, JsonError>)
    ensures r.Ok? ==> |r.value.rest| < |s|
  {
    var t := s[Lead(s)..];
    if t == [] || t[0] != COLON then Err(InvalidJson) else ValueAt(t[1..])
  }

  /** What the members are, by the parts the parser reads in turn. */
  function MembersParts(s: Text, names: set<Text>): Result<Step<map<Text, Value>>, JsonError> {
    match NameAt(s)
    case Err(e) => Err(e)
    case Ok(name) =>
      if name.item in names then Err(DuplicateField)
      else
        match AssignedAt(name.rest)
        case Err(e) => Err(e)
        case Ok(first) => MembersThen(name.item, first, names)
  }

  lemma MembersUnfold(s: Text, names: set<Text>)
    ensures MembersAt(s, names) == MembersParts(s, names)
  {
    hide Meaning, WellFormed, ParseTree, Lead, ParseChars, CharsMeaning, CharsWellFormed;
    assert s[Lead(s)..] != [] ==> s[Lead(s) + 1..] == s[Lead(s)..][1..];
    if ParseMember(s, names).Ok? {
      MemberSound(s, names);
      var first := ParseMember(s, names).value;
      var next := first.rest;
      var seen := names + {CharsMeaning(first.item.name)};
      assert [first.item][1..] == [];
      if next != [] && next[0] != RBRACE && next[0] == COMMA && ParseMembers(next[1..], seen).Ok? {
        MembersSound(next[1..], seen);
        var more := ParseMembers(next[1..], seen).value;
        assert ([first.item] + more.item)[1..] == more.item;
      }
    }
  }

  lemma MembersSkipSpace(s: Text, names: set<Text>)
    ensures MembersAt(s, names) == MembersAt(s[Lead(s)..], names)
  {
    LeadTwice(s);
    MembersUnfold(s, names);
    MembersUnfold(s[Lead(s)..], names);
    hide MembersAt, MembersThen, AssignedAt, Lead, CharsAt;
  }

  lemma MembersNew(s: Text, names: set<Text>)
    ensures MembersAt(s, names).Ok? ==> MembersAt(s, names).value.item.Keys !! names
  {
    MembersSound(s, names);
    hide ParseMembers, MembersWellFormed, MembersDistinct, Names;
  }

  lemma ArrayIs(s: Text)
    requires s != [] && s[0] == LBRACKET
    ensures var body := s[1..]; var t := body[Lead(body)..];
            ValueAt(s) == if t != [] && t[0] == RBRACKET then Ok(Step(Arr([]), t[1..]))
                          else match ItemsAt(body) case Err(e) => Err(e) case Ok(items) => Ok(Step(Arr(items.item), items.rest))
  {
    assert s[Lead(s)..] == s;
    ItemsSound(s[1..]);
    hide ParseItems;
    var t := s[1..][Lead(s[1..])..];
    assert ParseTree(s) == ParseArray(s);
    if t != [] && t[0] == RBRACKET {
      assert ItemsMeaning([]) == [];
      assert ParseTree(s) == Ok(Step(ArrTree(s[1..][..Lead(s[1..])], []), t[1..]));
      assert ValueAt(s) == Ok(Step(Arr([]), t[1..]));
    } else if ParseItems(s[1..]).Ok? {
      var items := ParseItems(s[1..]).value;
      assert ParseTree(s) == Ok(Step(ArrTree([], items.item), items.rest));
    } else {
      assert ParseTree(s) == Err(ParseItems(s[1..]).error);
    }
  }

  lemma ObjectIs(s: Text)
    requires s != [] && s[0] == LBRACE
    ensures var body := s[1..]; var t := body[Lead(body)..];
            ValueAt(s) == if t != [] && t[0] == RBRACE then Ok(Step(Obj(map[]), t[1..]))
                          else match MembersAt(body, {}) case Err(e) => Err(e) case Ok(m) => Ok(Step(Obj(m.item), m.rest))
  {
    assert s[Lead(s)..] == s;
    MembersSound(s[1..], {});
    hide ParseMembers;
    var t := s[1..][Lead(s[1..])..];
    assert ParseTree(s) == ParseObject(s);
    if t != [] && t[0] == RBRACE {
      assert ParseTree(s) == Ok(Step(ObjTree(s[1..][..Lead(s[1..])], []), t[1..]));
      assert ValueAt(s) == Ok(Step(Obj(map[]), t[1..]));
    } else if ParseMembers(s[1..], {}).Ok? {
      var members := ParseMembers(s[1..], {}).value;
      assert ParseTree(s) == Ok(Step(ObjTree([], members.item), members.rest));
    } else {
      assert ParseTree(s) == Err(ParseMembers(s[1..], {}).error);
    }
  }

  /** One more element read: what was found ahead is now found behind. */
  lemma ItemRead(result: seq<Value>, first: Step<Value>)
    ensures var next := first.rest[Lead(first.rest)..];
            next != [] && next[0] == COMMA ==>
              Prepend(result, ItemsThen(first)) == Prepend(result + [first.item], ItemsAt(next[1..]))
  {
    hide ItemsAt, Lead;
    var next := first.rest[Lead(first.rest)..];
    if next != [] && next[0] == COMMA && ItemsAt(next[1..]).Ok? {
      Assoc(result, [first.item], ItemsAt(next[1..]).value.item);
    }
  }

  lemma MemberRead(result: map<Text, Value>, name: Text, first: Step<Value>)
    requires name !in result
    ensures var next := first.rest[Lead(first.rest)..];
            PrependMap(result, MembersThen(name, first, result.Keys)) ==
            if next == [] then Err(InvalidJson)
            else if next[0] == RBRACE then Ok(Step(result[name := first.item], next[1..]))
            else if next[0] != COMMA then Err(InvalidJson)
            else PrependMap(result[name := first.item], MembersAt(next[1..], result[name := first.item].Keys))
  {
    var next := first.rest[Lead(first.rest)..];
    if next != [] && next[0] == RBRACE {
      assert result + map[name := first.item] == result[name := first.item];
    } else if next != [] && next[0] == COMMA {
      MembersNew(next[1..], result.Keys + {name});
      hide MembersAt, Lead;
      assert result[name := first.item].Keys == result.Keys + {name};
      var r := MembersAt(next[1..], result.Keys + {name});
      if r.Ok? {
        assert result + r.value.item[name := first.item] == result[name := first.item] + r.value.item;
      }
    }
  }

  /** A piece read off the text not yet read. */
  lemma Advance(source: Text, position: nat, piece: Text, rest: Text)
    requires position <= |source| && source[position..] == piece + rest
    ensures var to := |source| - |rest|; position <= to && source[to..] == rest && source[position..to] == piece
  {
    assert |piece + rest| == |piece| + |rest|;
    var to := |source| - |rest|;
    assert source[position..][|piece|..] == rest;
    assert source[position..][..|piece|] == piece;
  }

  // ---------------------------------------------------------------- strings

  /** `s.slice(from, to)`, which stops at the end of `s`. */
  function Slice(s: Text, from: nat, to: nat): Text
    requires from <= to
  {
    if from >= |s| then [] else if to >= |s| then s[from..] else s[from..to]
  }

  predicate IsFourHexDigits(s: Text) {
    |s| == 4 && forall i | 0 <= i < 4 :: IsHexDigit(s[i])
  }

  /** One character, by the tests the scan makes at `p`. */
  lemma CharScan(s: Text, p: nat)
    requires p < |s| && s[p] != QUOTE
    ensures ParseChar(s[p..]) ==
            if s[p] < 0x20 then Err(InvalidJson)
            else if s[p] != BACKSLASH then Ok(Step(Plain(s[p]), s[p + 1..]))
            else if p + 1 < |s| && s[p + 1] == 0x75 then
              if IsFourHexDigits(Slice(s, p + 2, p + 6)) then Ok(Step(Hex(Slice(s, p + 2, p + 6)), s[p + 6..]))
              else Err(InvalidJson)
            else if p + 1 < |s| && IsShortEscape(s[p + 1]) then Ok(Step(Short(s[p + 1]), s[p + 2..]))
            else Err(InvalidJson)
  {
    var here := s[p..];
    if |here| >= 6 {
      assert here[2..6] == Slice(s, p + 2, p + 6) && here[6..] == s[p + 6..];
    }
    if |here| >= 2 {
      assert here[2..] == s[p + 2..];
    }
    assert here[1..] == s[p + 1..];
  }

  lemma {:induction false} CharsYieldAppend(cs: seq<CharTree>, c: CharTree)
    ensures CharsYield(cs + [c]) == CharsYield(cs) + CharYield(c)
  {
    hide CharYield;
    if cs == [] {
      assert cs + [c] == [c];
    } else {
      assert (cs + [c])[1..] == cs[1..] + [c];
      CharsYieldAppend(cs[1..], c);
      Assoc(CharYield(cs[0]), CharsYield(cs[1..]), CharYield(c));
    }
  }

  /** `JSON.parse` of a string literal the scan has accepted: its escapes replaced. */
  function Unescape(s: Text): Text {
    if s == [] then []
    else if s[0] != BACKSLASH then [s[0]] + Unescape(s[1..])
    else if |s| >= 6 && s[1] == 0x75 && CharWellFormed(Hex(s[2..6])) then [HexMeaning(s[2..6])] + Unescape(s[6..])
    else if |s| >= 2 then [ShortMeaning(s[1])] + Unescape(s[2..])
    else []
  }

  lemma {:induction false} UnescapeMeaning(cs: seq<CharTree>)
    requires CharsWellFormed(cs)
    ensures Unescape(CharsYield(cs)) == CharsMeaning(cs)
  {
    if cs != [] {
      UnescapeMeaning(cs[1..]);
      UnescapeFirst(cs[0], CharsYield(cs[1..]));
    }
  }

  lemma UnescapeFirst(c: CharTree, rest: Text)
    requires CharWellFormed(c)
    ensures Unescape(CharYield(c) + rest) == [CharMeaning(c)] + Unescape(rest)
  {
    var s := CharYield(c) + rest;
    assert s[|CharYield(c)|..] == rest;
    if c.Hex? {
      assert s[2..6] == c.digits;
    }
  }

  lemma Rejoin(s: Text, a: nat, b: nat, c: nat)
    requires a <= b <= c <= |s|
    ensures s[a..c] == s[a..b] + s[b..c]
  {
  }

  /** What the scan has established when it stands at `p`, having read the characters `cs` since `from`. */
  ghost predicate Scanned(source: Text, from: nat, p: nat, cs: seq<CharTree>) {
    && from <= p <= |source| && CharsWellFormed(cs) && source[from..p] == CharsYield(cs)
    && ParseChars(source[from..]) == Prepend(cs, ParseChars(source[p..]))
  }

  lemma ScanBegins(source: Text, from: nat)
    requires from <= |source|
    ensures Scanned(source, from, from, [])
  {
    PrependNothing(ParseChars(source[from..]));
  }

  lemma CharRead(s: Text, cs: seq<CharTree>, here: Text, c: CharTree, rest: Text)
    requires here != [] && here[0] != QUOTE && ParseChar(here) == Ok(Step(c, rest))
    requires ParseChars(s) == Prepend(cs, ParseChars(here))
    ensures ParseChars(s) == Prepend(cs + [c], ParseChars(rest))
  {
    hide ParseChar;
    if ParseChars(rest).Ok? {
      Assoc(cs, [c], ParseChars(rest).value.item);
    }
  }

  /** One more character scanned. */
  lemma ScanStep(source: Text, from: nat, p: nat, cs: seq<CharTree>)
    requires Scanned(source, from, p, cs) && p < |source| && source[p] != QUOTE && ParseChar(source[p..]).Ok?
    ensures var step := ParseChar(source[p..]).value; Scanned(source, from, |source| - |step.rest|, cs + [step.item])
  {
    hide CharsYield, ParseChar, CharYield, ParseChars, Prepend, CharWellFormed;
    var step := ParseChar(source[p..]).value;
    CharSound(source[p..]);
    CharRead(source[from..], cs, source[p..], step.item, step.rest);
    Advance(source, p, CharYield(step.item), step.rest);
    Rejoin(source, from, p, |source| - |step.rest|);
    CharsYieldAppend(cs, step.item);
  }

  lemma ScanEnd(source: Text, from: nat, p: nat, cs: seq<CharTree>)
    requires Scanned(source, from, p, cs) && p < |source| && source[p] == QUOTE
    ensures CharsAt(source[from..]) == Ok(Step(Unescape(source[from..p]), source[p + 1..]))
  {
    assert cs + [] == cs;
    assert source[p..][1..] == source[p + 1..];
    UnescapeMeaning(cs);
    hide CharsWellFormed, CharsMeaning, Unescape, CharsYield;
  }

  lemma ScanStops(source: Text, from: nat, p: nat, cs: seq<CharTree>)
    requires Scanned(source, from, p, cs)
    requires p == |source| || (source[p] != QUOTE && ParseChar(source[p..]) == Err(InvalidJson))
    ensures CharsAt(source[from..]) == Err(InvalidJson)
  {
    hide ParseChar, CharsYield;
  }

  function LiteralAt(s: Text, text: Text, t: Tree): Result<Step<Value>, JsonError>
    requires WellFormed(t)
  {
    match ParseLiteral(s, text, t)
    case Err(e) => Err(e)
    case Ok(step) => Ok(Step(Meaning(t), step.rest))
  }

  /** What a value is, by its first character. */
  lemma ValueIs(s: Text)
    requires s != [] && !IsSpace(s[0])
    ensures s[0] == LBRACE || s[0] == LBRACKET || s[0] == QUOTE || s[0] == 0x74 || s[0] == 0x66 || s[0] == 0x6E ||
            ValueAt(s) == (match ParseNumber(s)
                           case Err(e) => Err(e)
                           case Ok(n) => if NumberWellFormed(n.item) then Ok(Step(Num(NumberMeaning(n.item)), n.rest)) else Err(InvalidJson))
    ensures s[0] == QUOTE ==>
              ValueAt(s) == match CharsAt(s[1..]) case Err(e) => Err(e) case Ok(text) => Ok(Step(Str(text.item), text.rest))
    ensures s[0] == 0x74 ==> ValueAt(s) == LiteralAt(s, TRUE_TEXT, TrueTree)
    ensures s[0] == 0x66 ==> ValueAt(s) == LiteralAt(s, FALSE_TEXT, FalseTree)
    ensures s[0] == 0x6E ==> ValueAt(s) == LiteralAt(s, NULL_TEXT, NullTree)
  {
    hide ParseObject, ParseArray, ParseNumber, ParseChars, ParseLiteral, CharsMeaning, NumberMeaning;
    assert s[Lead(s)..] == s;
    TreeSound(s);
    NumberSound(s);
  }

  lemma ValueSkipsSpace(s: Text)
    ensures ValueAt(s) == ValueAt(s[Lead(s)..]) && ValueAt([]) == Err(InvalidJson)
  {
    LeadTwice(s);
    var none: Text := [];
    assert none[Lead(none)..] == none;
    hide Lead, Meaning, WellFormed;
  }

  // ---------------------------------------------------------------- the class

  /** `r` and the text then left are what `found` says; nothing is said of the position after an error. */
  ghost predicate Agrees<T>(found: Result<Step<T>, JsonError>, r: Result<T, JsonError>, rest: Text) {
    match found
    case Err(e) => r == Err(e)
    case Ok(step) => r == Ok(step.item) && rest == step.rest
  }

  class Parser {
    const source: Text
    var position: nat

    constructor (source: Text)
      ensures this.source == source && position == 0
    {
      this.source := source;
      position := 0;
    }

    ghost predicate Valid()
      reads this
    {
      position <= |source|
    }

    /** The text not yet read. */
    ghost function Rest(): Text
      requires Valid()
      reads this
    {
      source[position..]
    }

    method Parse() returns (r: Result<Value, JsonError>)
      requires position == 0
      modifies this
      ensures r == ParseValue(source)
    {
      assert Rest() == source;
      r := Value();
      if r.Err? {
        return;
      }
      ghost var rest := Rest();
      Whitespace();
      if position != |source| {
        return Err(InvalidJson);
      }
      assert rest[Lead(rest)..] == [];
    }

    method Value() returns (r: Result<Value, JsonError>)
      requires Valid()
      modifies this
      ensures Valid() && Agrees(ValueAt(old(Rest())), r, Rest())
      decreases |source| - position, 2
    {
      hide ValueAt, CharsAt, Lead, ParseNumber, ParseLiteral, Meaning, NumberMeaning;
      ValueSkipsSpace(Rest());
      Whitespace();
      ghost var s := Rest();
      assert s == old(Rest())[Lead(old(Rest()))..];
      if position == |source| {
        return Err(InvalidJson);
      }
      ValueIs(s);
      assert s[0] == source[position];
      if source[position] == LBRACE {
        r := Object();
      } else if source[position] == LBRACKET {
        r := Array();
      } else if source[position] == QUOTE {
        var text := String();
        r := match text case Err(e) => Err(e) case Ok(t) => Ok(Str(t));
      } else if source[position] == 0x74 {
        r := Literal(TRUE_TEXT, TrueTree);
      } else if source[position] == 0x66 {
        r := Literal(FALSE_TEXT, FalseTree);
      } else if source[position] == 0x6E {
        r := Literal(NULL_TEXT, NullTree);
      } else {
        var number := NumberHere();
        r := match number case Err(e) => Err(e) case Ok(n) => Ok(Num(n));
      }
    }

    method Object() returns (r: Result<Value, JsonError>)
      requires Valid() && position < |source| && source[position] == LBRACE
      modifies this
      ensures Valid() && Agrees(ValueAt(old(Rest())), r, Rest())
      decreases |source| - position, 1
    {
      ghost var s := Rest();
      position := position + 1;
      ghost var body := Rest();
      assert body == s[1..];
      ObjectIs(s);
      Whitespace();
      MembersSkipSpace(body, {});
      if position < |source| && source[position] == RBRACE {
        position := position + 1;
        assert Rest() == body[Lead(body)..][1..];
        return Ok(Obj(map[]));
      }
      hide MembersAt, ValueAt, ParseTree, Lead;
      var members := ObjectMembers();
      r := match members case Err(e) => Err(e) case Ok(m) => Ok(Obj(m));
    }

    /** The loop of `#object`. */
    method ObjectMembers() returns (r: Result<map<Text, Value>, JsonError>)
      requires Valid()
      modifies this
      ensures Valid() && Agrees(MembersAt(old(Rest()), {}), r, Rest())
      decreases |source| - position, 3
    {
      var result: map<Text, Value> := map[];
      assert result.Keys == {};
      ghost var members := MembersAt(Rest(), {});
      PrependNoMap(members);
      hide MembersAt, NameAt, AssignedAt, Lead, MembersThen;
      while true
        invariant Valid() && position >= old(position)
        invariant members == PrependMap(result, MembersAt(Rest(), result.Keys))
        decreases |source| - position
      {
        ghost var names := result.Keys;
        MembersUnfold(Rest(), names);
        var named := Name();
        if named.Err? {
          return Err(named.error);
        }
        var name := named.value;
        if name in result {
          return Err(DuplicateField);
        }
        var value := Assigned();
        if value.Err? {
          return Err(value.error);
        }
        ghost var after := Rest();
        assert members == PrependMap(result, MembersThen(name, Step(value.value, after), names));
        MemberRead(result, name, Step(value.value, after));
        hide PrependMap, MembersParts;
        var closed := Separator(RBRACE);
        if closed.Err? {
          return Err(closed.error);
        }
        if closed.value {
          return Ok(result[name := value.value]);
        }
        result := result[name := value.value];
      }
    }

    /** The end of one turn of a list's loop: whether the list is closed here, if a comma does not follow. */
    method Separator(close: Unit) returns (closed: Result<bool, JsonError>)
      requires Valid() && close != COMMA
      modifies this
      ensures Valid()
      ensures var next := old(Rest())[Lead(old(Rest()))..];
              if next == [] || (next[0] != close && next[0] != COMMA) then closed == Err(InvalidJson)
              else closed == Ok(next[0] == close) && Rest() == next[1..]
    {
      Whitespace();
      ghost var here := Rest();
      if position == |source| {
        return Err(InvalidJson);
      }
      var next := source[position];
      if next != close && next != COMMA {
        return Err(InvalidJson);
      }
      position := position + 1;
      assert Rest() == here[1..];
      return Ok(next == close);
    }

    /** A member's name and the whitespace before it. */
    method Name() returns (r: Result<Text, JsonError>)
      requires Valid()
      modifies this
      ensures Valid() && Agrees(NameAt(old(Rest())), r, Rest()) && (r.Ok? ==> position > old(position))
    {
      Whitespace();
      if position == |source| || source[position] != QUOTE {
        return Err(InvalidJson);
      }
      r := String();
    }

    /** A member's colon and value. */
    method Assigned() returns (r: Result<Value, JsonError>)
      requires Valid()
      modifies this
      ensures Valid() && Agrees(AssignedAt(old(Rest())), r, Rest())
      decreases |source| - position, 3
    {
      ghost var s := Rest();
      Whitespace();
      if position == |source| || source[position] != COLON {
        return Err(InvalidJson);
      }
      position := position + 1;
      assert Rest() == s[Lead(s)..][1..];
      r := Value();
    }

    method Array() returns (r: Result<Value, JsonError>)
      requires Valid() && position < |source| && source[position] == LBRACKET
      modifies this
      ensures Valid() && Agrees(ValueAt(old(Rest())), r, Rest())
      decreases |source| - position, 1
    {
      ghost var s := Rest();
      position := position + 1;
      ghost var body := Rest();
      assert body == s[1..];
      ArrayIs(s);
      Whitespace();
      ItemsSkipSpace(body);
      if position < |source| && source[position] == RBRACKET {
        position := position + 1;
        assert Rest() == body[Lead(body)..][1..];
        return Ok(Arr([]));
      }
      hide ItemsAt, ValueAt, ParseTree, Lead;
      var items := ArrayItems();
      r := match items case Err(e) => Err(e) case Ok(list) => Ok(Arr(list));
    }

    /** The loop of `#array`. */
    method ArrayItems() returns (r: Result<seq<Value>, JsonError>)
      requires Valid()
      modifies this
      ensures Valid() && Agrees(ItemsAt(old(Rest())), r, Rest())
      decreases |source| - position, 3
    {
      ghost var body := Rest();
      var result: seq<Value> := [];
      PrependNothing(ItemsAt(body));
      hide ItemsAt, ValueAt, ParseTree, Lead;
      while true
        invariant Valid() && position >= old(position)
        invariant ItemsAt(body) == Prepend(result, ItemsAt(Rest()))
        decreases |source| - position
      {
        ItemsUnfold(Rest());
        var value := Value();
        if value.Err? {
          return Err(value.error);
        }
        ghost var after := Rest();
        ItemRead(result, Step(value.value, after));
        result := result + [value.value];
        var closed := Separator(RBRACKET);
        if closed.Err? {
          return Err(closed.error);
        }
        if closed.value {
          return Ok(result);
        }
      }
    }

    method String() returns (r: Result<Text, JsonError>)
      requires Valid() && position < |source| && source[position] == QUOTE
      modifies this
      ensures Valid() && Agrees(CharsAt(old(Rest())[1..]), r, Rest()) && (r.Ok? ==> position > old(position))
    {
      hide CharsAt, Scanned, Unescape;
      var start := position;
      position := position + 1;
      assert source[start + 1..] == old(Rest())[1..];
      var ended, cs := Characters();
      if !ended {
        return Err(InvalidJson);
      }
      ScanEnd(source, start + 1, position - 1, cs);
      return Ok(Unescape(source[start + 1..position - 1]));
    }

    /** The loop of `#string`: it stops behind the closing quote, or reports that there is none to be had. */
    method Characters() returns (ended: bool, ghost cs: seq<CharTree>)
      requires Valid()
      modifies this
      ensures Valid()
      ensures if ended
              then old(position) < position && Scanned(source, old(position), position - 1, cs) && source[position - 1] == QUOTE
              else CharsAt(source[old(position)..]) == Err(InvalidJson)
    {
      hide Scanned, CharsAt, ParseChar;
      cs := [];
      ScanBegins(source, position);
      while position < |source|
        invariant Valid() && position >= old(position)
        invariant Scanned(source, old(position), position, cs)
      {
        if source[position] == QUOTE {
          position := position + 1;
          return true, cs;
        }
        ghost var was := position;
        var good := Character();
        if !good {
          ScanStops(source, old(position), was, cs);
          return false, cs;
        }
        ScanStep(source, old(position), was, cs);
        cs := cs + [ParseChar(source[was..]).value.item];
      }
      ScanStops(source, old(position), position, cs);
      return false, cs;
    }

    /** The part of the loop of `#string` that moves over one character. */
    method Character() returns (good: bool)
      requires Valid() && position < |source| && source[position] != QUOTE
      modifies this
      ensures Valid()
      ensures match ParseChar(old(Rest()))
              case Err(e) => e == InvalidJson && !good
              case Ok(step) => good && position == |source| - |step.rest| && position > old(position)
    {
      CharScan(source, position);
      var character := source[position];
      if character < 0x20 {
        return false;
      }
      if character == BACKSLASH {
        position := position + 1;
        if position < |source| && source[position] == 0x75 {
          var digits := Slice(source, position + 1, position + 5);
          if !IsFourHexDigits(digits) {
            return false;
          }
          position := position + 4;
        } else if position == |source| || !IsShortEscape(source[position]) {
          return false;
        }
      }
      position := position + 1;
      return true;
    }

    method NumberHere() returns (r: Result<Number, JsonError>)
      requires Valid()
      modifies this
      ensures Valid()
      ensures match ParseNumber(old(Rest()))
              case Err(e) => r == Err(e)
              case Ok(n) => NumberWellFormed(n.item) && r == Ok(NumberMeaning(n.item)) && Rest() == n.rest
    {
      var found := ParseNumber(source[position..]);
      if found.Err? {
        return Err(found.error);
      }
      NumberSound(source[position..]);
      hide ParseNumber, NumberYield, NumberWellFormed, NumberMeaning;
      Advance(source, position, NumberYield(found.value.item), found.value.rest);
      position := |source| - |found.value.rest|;
      return Ok(NumberMeaning(found.value.item));
    }

    method Literal(text: Text, t: Tree) returns (r: Result<Value, JsonError>)
      requires Valid() && WellFormed(t)
      modifies this
      ensures Valid()
      ensures match ParseLiteral(old(Rest()), text, t)
              case Err(e) => r == Err(e)
              case Ok(step) => r == Ok(Meaning(t)) && Rest() == step.rest
    {
      if !(text <= source[position..]) {
        return Err(InvalidJson);
      }
      position := position + |text|;
      return Ok(Meaning(t));
    }

    method Whitespace()
      requires Valid()
      modifies this
      ensures Valid() && position >= old(position)
      ensures Rest() == old(Rest())[Lead(old(Rest()))..]
    {
      while position < |source| && IsSpace(source[position])
        invariant Valid() && position >= old(position)
        invariant Rest()[Lead(Rest())..] == old(Rest())[Lead(old(Rest()))..]
      {
        ghost var here := Rest();
        position := position + 1;
        assert here[1..] == Rest();
        assert here[1 + Lead(Rest())..] == Rest()[Lead(Rest())..];
      }
    }
  }
}
