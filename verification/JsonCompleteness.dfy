/** Every JSON text is accepted by the strict parser, with the tree it was written from. */
module JsonCompleteness {
  import opened Prelude
  import opened Json
  import opened JsonParser

  /** What may follow a value. */
  predicate Stop(rest: Text) {
    rest == [] || IsSpace(rest[0]) || rest[0] == COMMA || rest[0] == RBRACE || rest[0] == RBRACKET
  }

  predicate NoSpaceFirst(s: Text) {
    s != [] ==> !IsSpace(s[0])
  }

  predicate NoDigitFirst(s: Text) {
    s != [] ==> !IsDigit(s[0])
  }

  /** The parser's answer for a tree followed by `rest`: the tree, or the repeated name in it. */
  function Answer<T>(distinct: bool, item: T, rest: Text): Result<Step<T>, JsonError> {
    if distinct then Ok(Step(item, rest)) else Err(DuplicateField)
  }

  lemma {:induction false} LeadOf(space: Text, s: Text)
    requires AllSpace(space) && NoSpaceFirst(s)
    ensures Lead(space + s) == |space| && (space + s)[..|space|] == space && (space + s)[|space|..] == s
  {
    if space == [] {
      assert space + s == s;
    } else {
      assert (space + s)[1..] == space[1..] + s;
      LeadOf(space[1..], s);
    }
  }

  lemma {:induction false} DigitRunOf(digits: Text, s: Text)
    requires AllDigits(digits) && NoDigitFirst(s)
    ensures DigitRun(digits + s) == |digits| && (digits + s)[..|digits|] == digits && (digits + s)[|digits|..] == s
  {
    if digits == [] {
      assert digits + s == s;
    } else {
      assert (digits + s)[1..] == digits[1..] + s;
      DigitRunOf(digits[1..], s);
    }
  }

  // ---------------------------------------------------------------- strings

  lemma CharComplete(c: CharTree, rest: Text)
    requires CharWellFormed(c)
    ensures var s := CharYield(c) + rest; s[0] != QUOTE && ParseChar(s) == Ok(Step(c, rest))
  {
    var s := CharYield(c) + rest;
    assert s[|CharYield(c)|..] == rest;
    if c.Hex? {
      assert s[2..6] == c.digits;
    }
  }

  lemma {:induction false} CharsComplete(cs: seq<CharTree>, rest: Text)
    requires CharsWellFormed(cs)
    ensures ParseChars(CharsYield(cs) + ([QUOTE] + rest)) == Ok(Step(cs, rest))
  {
    var s := CharsYield(cs) + ([QUOTE] + rest);
    if cs == [] {
      assert s == [QUOTE] + rest;
      assert s[1..] == rest;
    } else {
      var more := CharsYield(cs[1..]) + ([QUOTE] + rest);
      CharsComplete(cs[1..], rest);
      Assoc(CharYield(cs[0]), CharsYield(cs[1..]), [QUOTE] + rest);
      CharComplete(cs[0], more);
      HeadFirst(cs);
      hide CharYield, ParseChar;
      assert ParseChars(s) == Ok(Step([cs[0]] + cs[1..], rest));
    }
  }

  // ---------------------------------------------------------------- numbers

  lemma FractionComplete(fraction: Option<Text>, rest: Text)
    requires fraction.Some? ==> fraction.value != [] && AllDigits(fraction.value)
    requires NoDigitFirst(rest) && (rest != [] ==> rest[0] != DOT)
    ensures ParseFraction(FractionYield(fraction) + rest) == Step(fraction, rest)
  {
    var s := FractionYield(fraction) + rest;
    if fraction.Some? {
      assert s[1..] == fraction.value + rest;
      DigitRunOf(fraction.value, rest);
    } else {
      assert s == rest;
    }
  }

  lemma SignComplete(sign: Text, rest: Text)
    requires sign == [] || sign == [PLUS] || sign == [MINUS]
    requires rest != [] && IsDigit(rest[0])
    ensures SignOf(sign + rest) == sign && (sign + rest)[|sign|..] == rest
  {
  }

  lemma ExponentComplete(exponent: Option<ExponentTree>, rest: Text)
    requires exponent.Some? ==> ExponentWellFormed(exponent.value)
    requires Stop(rest)
    ensures ParseExponent(ExponentYield(exponent) + rest) == Step(exponent, rest)
  {
    var s := ExponentYield(exponent) + rest;
    if exponent.Some? {
      var e := exponent.value;
      var digits := e.digits + rest;
      DigitRunOf(e.digits, rest);
      SignComplete(e.sign, digits);
      hide DigitRun, SignOf, AllDigits;
      Regroup([e.mark], e.sign, e.digits, rest);
      Assoc([e.mark], e.sign, e.digits);
      Assoc(e.sign, e.digits, rest);
      assert s == [e.mark] + (e.sign + digits);
      assert s[1..] == e.sign + digits;
      assert s[1 + |e.sign|..] == s[1..][|e.sign|..];
    } else {
      assert s == rest;
    }
  }

  lemma WholeComplete(whole: Text, rest: Text)
    requires IsWhole(whole) && NoDigitFirst(rest)
    ensures var u := whole + rest;
            && IsDigit(u[0]) && u[0] == whole[0]
            && (if u[0] == ZERO then 1 else DigitRun(u)) == |whole| && u[..|whole|] == whole && u[|whole|..] == rest
  {
    DigitRunOf(whole, rest);
  }

  lemma AfterWhole(n: NumberTree, rest: Text)
    requires NumberWellFormed(n) && Stop(rest)
    ensures var e := ExponentYield(n.exponent) + rest;
            NoDigitFirst(e) && (e != [] ==> e[0] != DOT) && NoDigitFirst(FractionYield(n.fraction) + e)
  {
    var e := ExponentYield(n.exponent) + rest;
    if n.exponent.None? {
      assert e == rest;
    }
    if n.fraction.None? {
      assert FractionYield(n.fraction) + e == e;
    }
  }

  lemma NumberComplete(n: NumberTree, rest: Text)
    requires NumberWellFormed(n) && Stop(rest)
    ensures ParseNumber(NumberYield(n) + rest) == Ok(Step(n, rest))
  {
    var e := ExponentYield(n.exponent) + rest;
    var f := FractionYield(n.fraction) + e;
    AfterWhole(n, rest);
    FractionComplete(n.fraction, e);
    ExponentComplete(n.exponent, rest);
    WholeComplete(n.whole, f);
    hide ParseFraction, ParseExponent, FractionYield, ExponentYield, DigitRun, IsWhole, Stop, AllDigits, NoDigitFirst;
    hide ExponentWellFormed;
    Pieces(if n.minus then [MINUS] else [], n.whole, FractionYield(n.fraction), ExponentYield(n.exponent), rest);
    SignedNumber(n, n.whole + f, f, rest);
  }

  lemma SignedNumber(n: NumberTree, u: Text, f: Text, rest: Text)
    requires n.whole != [] && u != [] && IsDigit(u[0])
    requires (if u[0] == ZERO then 1 else DigitRun(u)) == |n.whole| <= |u| && u[..|n.whole|] == n.whole && u[|n.whole|..] == f
    requires ParseFraction(f).item == n.fraction && ParseExponent(ParseFraction(f).rest) == Step(n.exponent, rest)
    ensures ParseNumber((if n.minus then [MINUS] else []) + u) == Ok(Step(n, rest))
  {
    hide ParseFraction, ParseExponent, DigitRun;
    var s := (if n.minus then [MINUS] else []) + u;
    assert (if n.minus then s[1..] else s) == u;
  }

  // ---------------------------------------------------------------- values

  /** How a value begins. */
  lemma Opening(t: Tree)
    requires WellFormed(t)
    ensures var s := Yield(t);
            && s != [] && !IsSpace(s[0]) && s[0] != RBRACE && s[0] != RBRACKET
            && (s[0] == LBRACE <==> t.ObjTree?) && (s[0] == LBRACKET <==> t.ArrTree?) && (s[0] == QUOTE <==> t.StrTree?)
            && (t.NumTree? ==> s[0] == MINUS || IsDigit(s[0]))
  {
    if t.NumTree? {
      NumberOpening(t.number);
    }
  }

  lemma NumberOpening(n: NumberTree)
    requires NumberWellFormed(n)
    ensures NumberYield(n) != [] && (NumberYield(n)[0] == MINUS || IsDigit(NumberYield(n)[0]))
  {
    Pieces(if n.minus then [MINUS] else [], n.whole, FractionYield(n.fraction), ExponentYield(n.exponent), []);
    assert NumberYield(n) + [] == NumberYield(n);
  }

  lemma ScalarComplete(t: Tree, rest: Text)
    requires WellFormed(t) && Stop(rest) && !t.ArrTree? && !t.ObjTree?
    ensures ParseTree(Yield(t) + rest) == Ok(Step(t, rest))
  {
    var s := Yield(t) + rest;
    if t.StrTree? {
      StringComplete(t.chars, rest);
      hide ParseChars;
    } else if t.NumTree? {
      NumberComplete(t.number, rest);
      NumberOpening(t.number);
      hide ParseNumber, NumberYield, NumberWellFormed;
    } else {
      assert Yield(t) <= s && s[|Yield(t)|..] == rest;
    }
  }

  lemma StringComplete(chars: seq<CharTree>, rest: Text)
    requires CharsWellFormed(chars)
    ensures var s := StringYield(chars) + rest; s[0] == QUOTE && ParseChars(s[1..]) == Ok(Step(chars, rest))
  {
    CharsComplete(chars, rest);
    hide CharsYield, ParseChars, CharsWellFormed;
    assert (StringYield(chars) + rest)[1..] == CharsYield(chars) + ([QUOTE] + rest);
  }

  lemma {:induction false} TreeComplete(t: Tree, rest: Text)
    requires WellFormed(t) && Stop(rest)
    ensures ParseTree(Yield(t) + rest) == Answer(Distinct(t), t, rest)
    decreases t, 1
  {
    match t
    case ArrTree(_, _) => ArrayComplete(t, rest);
    case ObjTree(_, _) => ObjectComplete(t, rest);
    case _ => ScalarComplete(t, rest);
  }

  lemma {:induction false} ArrayComplete(t: Tree, rest: Text)
    requires WellFormed(t) && t.ArrTree?
    ensures ParseTree(Yield(t) + rest) == Answer(Distinct(t), t, rest)
    decreases t, 0
  {
    var s := Yield(t) + rest;
    if t.items == [] {
      assert s[1..] == t.space + ([RBRACKET] + rest);
      LeadOf(t.space, [RBRACKET] + rest);
      assert ([RBRACKET] + rest)[1..] == rest;
    } else {
      assert s[1..] == ItemsYield(t.items) + rest;
      ItemsComplete(t.items, rest);
      ItemsOpening(t.items, rest);
      hide ItemsYield, ParseItems, Lead;
    }
  }

  lemma {:induction false} ItemsOpening(items: seq<ItemTree>, rest: Text)
    requires ItemsWellFormed(items) && items != []
    ensures var s := ItemsYield(items) + rest; Lead(s) < |s| && s[Lead(s)] != RBRACKET
  {
    var item := items[0];
    var tail := if |items| == 1 then [RBRACKET] else [COMMA] + ItemsYield(items[1..]);
    Opening(item.value);
    hide Yield, WellFormed;
    LeadOf(item.before, Yield(item.value) + (item.after + (tail + rest)));
    Regroup(item.before, Yield(item.value), item.after, tail + rest);
    Assoc(ItemYield(item), tail, rest);
  }

  lemma {:induction false} ItemComplete(item: ItemTree, next: Text)
    requires ItemsWellFormed([item]) && next != [] && Stop(next) && NoSpaceFirst(next)
    ensures ParseItem(ItemYield(item) + next) == Answer(Distinct(item.value), item, next)
    decreases item, 0
  {
    var after := item.after + next;
    TreeComplete(item.value, after);
    Opening(item.value);
    LeadOf(item.after, next);
    hide Yield, WellFormed, Distinct, ParseTree;
    LeadOf(item.before, Yield(item.value) + after);
    hide Lead;
    Regroup(item.before, Yield(item.value), item.after, next);
  }

  lemma {:induction false} ItemsComplete(items: seq<ItemTree>, rest: Text)
    requires ItemsWellFormed(items) && items != []
    ensures ParseItems(ItemsYield(items) + rest) == Answer(ItemsDistinct(items), items, rest)
    decreases items, 0
  {
    var tail := if |items| == 1 then [RBRACKET] else [COMMA] + ItemsYield(items[1..]);
    var next := tail + rest;
    ItemComplete(items[0], next);
    if |items| > 1 {
      ItemsComplete(items[1..], rest);
      Assoc([COMMA], ItemsYield(items[1..]), rest);
      assert next[1..] == ItemsYield(items[1..]) + rest;
    } else {
      assert items == [items[0]];
      assert next[1..] == rest;
    }
    HeadFirst(items);
    hide ItemYield, ParseItem, WellFormed, Distinct;
    Assoc(ItemYield(items[0]), tail, rest);
  }

  lemma {:induction false} ObjectComplete(t: Tree, rest: Text)
    requires WellFormed(t) && t.ObjTree?
    ensures ParseTree(Yield(t) + rest) == Answer(Distinct(t), t, rest)
    decreases t, 0
  {
    var s := Yield(t) + rest;
    if t.members == [] {
      assert s[1..] == t.space + ([RBRACE] + rest);
      LeadOf(t.space, [RBRACE] + rest);
      assert ([RBRACE] + rest)[1..] == rest;
    } else {
      assert s[1..] == MembersYield(t.members) + rest;
      MembersComplete(t.members, rest, {});
      MembersOpening(t.members, rest);
      hide MembersYield, ParseMembers, Lead;
    }
  }

  lemma MembersOpening(members: seq<MemberTree>, rest: Text)
    requires MembersWellFormed(members) && members != []
    ensures var s := MembersYield(members) + rest; Lead(s) < |s| && s[Lead(s)] != RBRACE
  {
    var m := members[0];
    var tail := if |members| == 1 then [RBRACE] else [COMMA] + MembersYield(members[1..]);
    var body := m.beforeColon + ([COLON] + (m.afterColon + (Yield(m.value) + m.after)));
    Assoc(MemberYield(m), tail, rest);
    Regroup(m.before, StringYield(m.name), body, tail + rest);
    hide Yield, WellFormed;
    LeadOf(m.before, StringYield(m.name) + (body + (tail + rest)));
  }

  lemma NameComplete(before: Text, name: seq<CharTree>, beforeColon: Text, colon: Text)
    requires AllSpace(before) && CharsWellFormed(name) && AllSpace(beforeColon) && NoSpaceFirst(colon)
    ensures ParseName(before + (StringYield(name) + (beforeColon + colon))) == Ok(Step((before, name, beforeColon), colon))
  {
    var s := StringYield(name) + (beforeColon + colon);
    StringComplete(name, beforeColon + colon);
    LeadOf(beforeColon, colon);
    hide ParseChars, CharsYield, CharsWellFormed;
    LeadOf(before, s);
    hide Lead, StringYield;
    assert (before + s)[|before| + 1..] == s[1..];
  }

  lemma {:induction false} MemberComplete(m: MemberTree, next: Text, names: set<Text>)
    requires MembersWellFormed([m]) && next != [] && Stop(next) && NoSpaceFirst(next)
    ensures ParseMember(MemberYield(m) + next, names) ==
            Answer(CharsMeaning(m.name) !in names && Distinct(m.value), m, next)
    decreases m, 0
  {
    var after := m.after + next;
    var value := Yield(m.value) + after;
    var colon := [COLON] + (m.afterColon + value);
    TreeComplete(m.value, after);
    Opening(m.value);
    LeadOf(m.after, next);
    hide Yield, StringYield, WellFormed, Distinct, ParseTree, CharsMeaning, CharsWellFormed;
    LeadOf(m.afterColon, value);
    NameComplete(m.before, m.name, m.beforeColon, colon);
    hide Lead, ParseName;
    assert colon[1..] == m.afterColon + value;
    MemberJoins(m, m.before + (StringYield(m.name) + (m.beforeColon + colon)), colon, value, after, next);
  }

  lemma {:induction false} MembersComplete(members: seq<MemberTree>, rest: Text, names: set<Text>)
    requires MembersWellFormed(members) && members != []
    ensures ParseMembers(MembersYield(members) + rest, names) ==
            Answer(MembersDistinct(members) && Names(members) !! names, members, rest)
    decreases members, 0
  {
    hide MemberYield, ParseMember, WellFormed, Distinct, CharsMeaning, CharsWellFormed;
    var m := members[0];
    var tail := if |members| == 1 then [RBRACE] else [COMMA] + MembersYield(members[1..]);
    var next := tail + rest;
    MemberComplete(m, next, names);
    HeadFirst(members);
    Assoc(MemberYield(m), tail, rest);
    if |members| == 1 {
      assert members == [m];
      assert next[1..] == rest;
    } else {
      MembersComplete(members[1..], rest, names + {CharsMeaning(m.name)});
      Assoc([COMMA], MembersYield(members[1..]), rest);
      assert next[1..] == MembersYield(members[1..]) + rest;
      NamesApart(members, names);
      hide MembersYield, Names;
    }
  }

  lemma NamesApart(members: seq<MemberTree>, names: set<Text>)
    requires MembersWellFormed(members) && members != []
    ensures var name := CharsMeaning(members[0].name); var more := Names(members[1..]);
            Names(members) !! names && name !in more <==> name !in names && more !! names + {name}
  {
    hide CharsMeaning, CharsWellFormed, WellFormed;
  }

  // ---------------------------------------------------------------- the whole text

  lemma TextComplete(before: Text, t: Tree, after: Text)
    requires AllSpace(before) && AllSpace(after) && WellFormed(t)
    ensures ParseText(before + Yield(t) + after) == if Distinct(t) then Ok(t) else Err(DuplicateField)
  {
    Opening(t);
    TreeComplete(t, after);
    LeadOf(after, []);
    assert after + [] == after;
    hide Yield, WellFormed, Distinct, ParseTree;
    LeadOf(before, Yield(t) + after);
    Assoc(before, Yield(t), after);
  }

  lemma TextSound(text: Text)
    requires ParseText(text).Ok?
    ensures IsJsonText(text, Meaning(ParseText(text).value))
  {
    var k := Lead(text);
    TreeSound(text[k..]);
    var step := ParseTree(text[k..]).value;
    hide Yield, WellFormed, Distinct, ParseTree, Meaning;
    Split(text, k);
    Assoc(text[..k], Yield(step.item), step.rest);
    assert step.rest[..|step.rest|] == step.rest;
    assert IsJsonTextBy(text, Meaning(step.item), text[..k], step.item, step.rest);
  }

  /**
   * The strict parser returns the value `v` for a text exactly when the text is JSON (RFC 8259, sections 2 to 7)
   * in which no object repeats a member name after unescaping, and `v` is the value of its tree.
   */
  lemma AcceptsExactlyJson(text: Text, v: Value)
    ensures ParseValue(text) == Ok(v) <==> IsJsonText(text, v)
  {
    hide Yield, WellFormed, Distinct, Meaning;
    if ParseText(text).Ok? {
      TextSound(text);
    }
    hide ParseText;
    if IsJsonText(text, v) {
      var before, t, after :| IsJsonTextBy(text, v, before, t, after);
      TextComplete(before, t, after);
    }
  }

  /** A JSON text is refused for a repeated name exactly when some object in it repeats one. */
  lemma RepeatedNameIsReported(text: Text, before: Text, t: Tree, after: Text)
    requires AllSpace(before) && AllSpace(after) && WellFormed(t) && text == before + Yield(t) + after
    ensures ParseValue(text) == Err(DuplicateField) <==> !Distinct(t)
  {
    TextComplete(before, t, after);
    hide Yield, WellFormed, Distinct, Meaning, ParseText;
  }

  /** The grammar is unambiguous: a text without repeated names has one value. */
  lemma OneValue(text: Text, v: Value, w: Value)
    requires IsJsonText(text, v) && IsJsonText(text, w)
    ensures v == w
  {
    AcceptsExactlyJson(text, v);
    AcceptsExactlyJson(text, w);
    hide IsJsonText, ParseValue;
  }
}
