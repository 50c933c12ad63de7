/**
 * The strict parser as a function on the remaining text, and its agreement with the grammar: it accepts
 * exactly the JSON texts without repeated member names and finds the one tree each of them has.
 */
module JsonParser {
  import opened Prelude
  import opened Json

  datatype JsonError = InvalidJson | DuplicateField

  /** A parsed item and the text after it. */
  datatype Step<+T> = Step(item: T, rest: Text)

  // ---------------------------------------------------------------- the parser

  /** The number of whitespace units `s` begins with. */
  function Lead(s: Text): (k: nat)
    ensures k <= |s| && AllSpace(s[..k]) && (k < |s| ==> !IsSpace(s[k]))
  {
    if s != [] && IsSpace(s[0]) then
      var k := Lead(s[1..]);
      assert s[..k + 1] == [s[0]] + s[1..][..k];
      k + 1
    else 0
  }

  /** The characters of a string up to and including its closing quote. */
  function ParseChars(s: Text): (r: Result<Step<seq<CharTree>>, JsonError>)
    ensures r.Ok? ==> CharsWellFormed(r.value.item) && |r.value.rest| < |s|
  {
    if s == [] then Err(InvalidJson)
    else if s[0] == QUOTE then Ok(Step([], s[1..]))
    else
      match ParseChar(s)
      case Err(e) => Err(e)
      case Ok(first) =>
        match ParseChars(first.rest)
        case Err(e) => Err(e)
        case Ok(more) => Ok(Step([first.item] + more.item, more.rest))
  }

  /** One character of a string that has not ended. */
  function ParseChar(s: Text): (r: Result<Step<CharTree>, JsonError>)
    requires s != [] && s[0] != QUOTE
    ensures r.Ok? ==> CharWellFormed(r.value.item) && |r.value.rest| < |s|
  {
    if s[0] < 0x20 then Err(InvalidJson)
    else if s[0] != BACKSLASH then Ok(Step(Plain(s[0]), s[1..]))
    else if |s| >= 6 && s[1] == 0x75 then
      if forall i | 0 <= i < 4 :: IsHexDigit(s[2..6][i]) then Ok(Step(Hex(s[2..6]), s[6..])) else Err(InvalidJson)
    else if |s| >= 2 && IsShortEscape(s[1]) then Ok(Step(Short(s[1]), s[2..]))
    else Err(InvalidJson)
  }

  /** The number of digits `s` begins with. */
  function DigitRun(s: Text): (k: nat)
    ensures k <= |s| && AllDigits(s[..k]) && (k < |s| ==> !IsDigit(s[k]))
  {
    if s != [] && IsDigit(s[0]) then
      var k := DigitRun(s[1..]);
      assert s[..k + 1] == [s[0]] + s[1..][..k];
      k + 1
    else 0
  }

  function ParseFraction(s: Text): (r: Step<Option<Text>>)
    ensures |r.rest| <= |s|
  {
    if |s| >= 2 && s[0] == DOT && IsDigit(s[1]) then
      var k := DigitRun(s[1..]);
      Step(Some(s[1..][..k]), s[1..][k..])
    else Step(None, s)
  }

  function SignOf(s: Text): Text {
    if s != [] && (s[0] == PLUS || s[0] == MINUS) then [s[0]] else []
  }

  function ParseExponent(s: Text): (r: Step<Option<ExponentTree>>)
    ensures |r.rest| <= |s|
  {
    if s != [] && (s[0] == 0x65 || s[0] == 0x45) then
      var sign := SignOf(s[1..]);
      var digits := s[1 + |sign|..];
      var k := DigitRun(digits);
      if k > 0 then Step(Some(ExponentTree(s[0], sign, digits[..k])), digits[k..]) else Step(None, s)
    else Step(None, s)
  }

  /** The longest number `s` begins with. */
  function ParseNumber(s: Text): (r: Result<Step<NumberTree>, JsonError>)
    ensures r.Ok? ==> |r.value.rest| < |s|
  {
    var minus := s != [] && s[0] == MINUS;
    var u := if minus then s[1..] else s;
    if u == [] || !IsDigit(u[0]) then Err(InvalidJson)
    else
      var k := if u[0] == ZERO then 1 else DigitRun(u);
      var fraction := ParseFraction(u[k..]);
      var exponent := ParseExponent(fraction.rest);
      Ok(Step(NumberTree(minus, u[..k], fraction.item, exponent.item), exponent.rest))
  }

  function ParseLiteral(s: Text, text: Text, t: Tree): Result<Step<Tree>, JsonError> {
    if text <= s then Ok(Step(t, s[|text|..])) else Err(InvalidJson)
  }

  /** A value at the head of `s`, which begins with no whitespace. */
  function ParseTree(s: Text): (r: Result<Step<Tree>, JsonError>)
    ensures r.Ok? ==> |r.value.rest| < |s|
    decreases |s|, 0
  {
    if s == [] then Err(InvalidJson)
    else if s[0] == LBRACE then ParseObject(s)
    else if s[0] == LBRACKET then ParseArray(s)
    else if s[0] == QUOTE then
      match ParseChars(s[1..])
      case Err(e) => Err(e)
      case Ok(chars) => Ok(Step(StrTree(chars.item), chars.rest))
    else if s[0] == 0x74 then ParseLiteral(s, TRUE_TEXT, TrueTree)
    else if s[0] == 0x66 then ParseLiteral(s, FALSE_TEXT, FalseTree)
    else if s[0] == 0x6E then ParseLiteral(s, NULL_TEXT, NullTree)
    else
      match ParseNumber(s)
      case Err(e) => Err(e)
      case Ok(n) => Ok(Step(NumTree(n.item), n.rest))
  }

  function ParseArray(s: Text): (r: Result<Step<Tree>, JsonError>)
    requires s != []
    ensures r.Ok? ==> |r.value.rest| < |s|
    decreases |s| - 1, 3
  {
    var k := Lead(s[1..]);
    var t := s[1..][k..];
    if t != [] && t[0] == RBRACKET then Ok(Step(ArrTree(s[1..][..k], []), t[1..]))
    else
      match ParseItems(s[1..])
      case Err(e) => Err(e)
      case Ok(items) => Ok(Step(ArrTree([], items.item), items.rest))
  }

  /** One array element with the whitespace around it. */
  function ParseItem(s: Text): (r: Result<Step<ItemTree>, JsonError>)
    ensures r.Ok? ==> |r.value.rest| < |s|
    decreases |s|, 1
  {
    var k := Lead(s);
    match ParseTree(s[k..])
    case Err(e) => Err(e)
    case Ok(value) =>
      var j := Lead(value.rest);
      Ok(Step(ItemTree(s[..k], value.item, value.rest[..j]), value.rest[j..]))
  }

  /** Array elements up to and including the closing bracket. */
  function ParseItems(s: Text): (r: Result<Step<seq<ItemTree>>, JsonError>)
    ensures r.Ok? ==> |r.value.rest| < |s| && r.value.item != []
    decreases |s|, 2
  {
    match ParseItem(s)
    case Err(e) => Err(e)
    case Ok(first) =>
      var next := first.rest;
      if next == [] then Err(InvalidJson)
      else if next[0] == RBRACKET then Ok(Step([first.item], next[1..]))
      else if next[0] != COMMA then Err(InvalidJson)
      else
        match ParseItems(next[1..])
        case Err(e) => Err(e)
        case Ok(more) => Ok(Step([first.item] + more.item, more.rest))
  }

  function ParseObject(s: Text): (r: Result<Step<Tree>, JsonError>)
    requires s != []
    ensures r.Ok? ==> |r.value.rest| < |s|
    decreases |s| - 1, 3
  {
    var k := Lead(s[1..]);
    var t := s[1..][k..];
    if t != [] && t[0] == RBRACE then Ok(Step(ObjTree(s[1..][..k], []), t[1..]))
    else
      match ParseMembers(s[1..], {})
      case Err(e) => Err(e)
      case Ok(members) => Ok(Step(ObjTree([], members.item), members.rest))
  }

  /** A member's name with the whitespace before it, and the text from its colon on. */
  function ParseName(s: Text): (r: Result<Step<(Text, seq<CharTree>, Text)>, JsonError>)
    ensures r.Ok? ==> CharsWellFormed(r.value.item.1) && |r.value.rest| < |s|
  {
    var k := Lead(s);
    if k == |s| || s[k] != QUOTE then Err(InvalidJson)
    else
      match ParseChars(s[k + 1..])
      case Err(e) => Err(e)
      case Ok(chars) =>
        var j := Lead(chars.rest);
        Ok(Step((s[..k], chars.item, chars.rest[..j]), chars.rest[j..]))
  }

  /** One object member with the whitespace around it, not named as in `names`. */
  function ParseMember(s: Text, names: set<Text>): (r: Result<Step<MemberTree>, JsonError>)
    ensures r.Ok? ==> |r.value.rest| < |s| && CharsWellFormed(r.value.item.name)
    decreases |s|, 1
  {
    match ParseName(s)
    case Err(e) => Err(e)
    case Ok(named) =>
      var (before, chars, beforeColon) := named.item;
      if CharsMeaning(chars) in names then Err(DuplicateField)
      else if named.rest == [] || named.rest[0] != COLON then Err(InvalidJson)
      else
        var u := named.rest[1..];
        var k := Lead(u);
        match ParseTree(u[k..])
        case Err(e) => Err(e)
        case Ok(value) =>
          var j := Lead(value.rest);
          Ok(Step(MemberTree(before, chars, beforeColon, u[..k], value.item, value.rest[..j]), value.rest[j..]))
  }

  /** Object members up to and including the closing brace, none named as in `names` or as another. */
  function ParseMembers(s: Text, names: set<Text>): (r: Result<Step<seq<MemberTree>>, JsonError>)
    ensures r.Ok? ==> |r.value.rest| < |s| && r.value.item != []
    decreases |s|, 2
  {
    match ParseMember(s, names)
    case Err(e) => Err(e)
    case Ok(first) =>
      var next := first.rest;
      if next == [] then Err(InvalidJson)
      else if next[0] == RBRACE then Ok(Step([first.item], next[1..]))
      else if next[0] != COMMA then Err(InvalidJson)
      else
        match ParseMembers(next[1..], names + {CharsMeaning(first.item.name)})
        case Err(e) => Err(e)
        case Ok(more) => Ok(Step([first.item] + more.item, more.rest))
  }

  // ---------------------------------------------------------------- what it accepts is JSON

  lemma Assoc<T>(a: seq<T>, b: seq<T>, c: seq<T>)
    ensures (a + b) + c == a + (b + c)
  {
  }

  lemma Split<T>(s: seq<T>, k: nat)
    requires k <= |s|
    ensures s == s[..k] + s[k..]
  {
  }

  lemma HeadFirst<T>(s: seq<T>)
    requires s != []
    ensures s == [s[0]] + s[1..]
  {
  }

  lemma CharSound(s: Text)
    requires s != [] && s[0] != QUOTE && ParseChar(s).Ok?
    ensures s == CharYield(ParseChar(s).value.item) + ParseChar(s).value.rest
  {
  }

  lemma {:induction false} CharsSound(s: Text)
    requires ParseChars(s).Ok?
    ensures s == CharsYield(ParseChars(s).value.item) + ([QUOTE] + ParseChars(s).value.rest)
  {
    HeadFirst(s);
    if s[0] != QUOTE {
      CharSound(s);
      var first := ParseChar(s).value;
      CharsSound(first.rest);
      var more := ParseChars(first.rest).value;
      assert ([first.item] + more.item)[1..] == more.item;
      hide ParseChar, CharYield;
      Assoc(CharYield(first.item), CharsYield(more.item), [QUOTE] + more.rest);
    }
  }

  /** A whole string with its quotes. */
  lemma StringSound(s: Text)
    requires s != [] && s[0] == QUOTE && ParseChars(s[1..]).Ok?
    ensures s == StringYield(ParseChars(s[1..]).value.item) + ParseChars(s[1..]).value.rest
  {
    var chars := ParseChars(s[1..]).value;
    HeadFirst(s);
    CharsSound(s[1..]);
    hide ParseChars, CharsYield;
    Assoc([QUOTE], CharsYield(chars.item), [QUOTE] + chars.rest);
    Assoc([QUOTE] + CharsYield(chars.item), [QUOTE], chars.rest);
  }

  lemma FractionSound(s: Text)
    ensures var r := ParseFraction(s);
            s == FractionYield(r.item) + r.rest && (r.item.Some? ==> r.item.value != [] && AllDigits(r.item.value))
  {
    if ParseFraction(s).item.Some? {
      var k := DigitRun(s[1..]);
      Split(s, 1);
      Split(s[1..], k);
      Assoc([DOT], s[1..][..k], s[1..][k..]);
    }
  }

  lemma ExponentSound(s: Text)
    ensures var r := ParseExponent(s);
            s == ExponentYield(r.item) + r.rest && (r.item.Some? ==> ExponentWellFormed(r.item.value))
  {
    hide DigitRun, AllDigits;
    if ParseExponent(s).item.Some? {
      var sign := SignOf(s[1..]);
      ExponentJoins(s, sign, DigitRun(s[1 + |sign|..]));
    }
  }

  lemma ExponentJoins(s: Text, sign: Text, k: nat)
    requires |sign| + 1 <= |s| && k <= |s| - 1 - |sign| && sign == s[1..][..|sign|]
    ensures var digits := s[1 + |sign|..]; s == ([s[0]] + sign + digits[..k]) + digits[k..]
  {
    var digits := s[1 + |sign|..];
    Split(s, 1 + |sign|);
    Split(digits, k);
    assert s[..1 + |sign|] == [s[0]] + sign;
    Assoc([s[0]] + sign, digits[..k], digits[k..]);
  }

  lemma WholeSound(u: Text)
    requires u != [] && IsDigit(u[0])
    ensures var k := if u[0] == ZERO then 1 else DigitRun(u); 0 < k <= |u| && IsWhole(u[..k])
  {
  }

  lemma SignSound(s: Text)
    requires s != []
    ensures s == (if s[0] == MINUS then [MINUS] else []) + (if s[0] == MINUS then s[1..] else s)
  {
  }

  lemma NumberSound(s: Text)
    ensures ParseNumber(s).Ok? ==>
              var r := ParseNumber(s).value; NumberWellFormed(r.item) && s == NumberYield(r.item) + r.rest
  {
    hide ParseFraction, ParseExponent, FractionYield, ExponentYield, ExponentWellFormed, IsWhole, DigitRun, AllDigits;
    if ParseNumber(s).Ok? {
      var minus := s[0] == MINUS;
      var u := if minus then s[1..] else s;
      var k := if u[0] == ZERO then 1 else DigitRun(u);
      var fraction := ParseFraction(u[k..]);
      var exponent := ParseExponent(fraction.rest);
      var n := NumberTree(minus, u[..k], fraction.item, exponent.item);
      assert ParseNumber(s) == Ok(Step(n, exponent.rest));
      WholeSound(u);
      FractionSound(u[k..]);
      ExponentSound(fraction.rest);
      SignSound(s);
      hide ParseNumber;
      NumberJoins(s, n, u, u[k..], fraction.rest, exponent.rest);
    }
  }

  lemma NumberJoins(s: Text, n: NumberTree, u: Text, f: Text, e: Text, rest: Text)
    requires s == (if n.minus then [MINUS] else []) + u
    requires |n.whole| <= |u| && n.whole == u[..|n.whole|] && f == u[|n.whole|..]
    requires f == FractionYield(n.fraction) + e && e == ExponentYield(n.exponent) + rest
    ensures s == NumberYield(n) + rest
  {
    hide FractionYield, ExponentYield;
    Split(u, |n.whole|);
    Pieces(if n.minus then [MINUS] else [], n.whole, FractionYield(n.fraction), ExponentYield(n.exponent), rest);
  }

  lemma Pieces(sign: Text, whole: Text, fraction: Text, exponent: Text, rest: Text)
    ensures sign + (whole + (fraction + (exponent + rest))) == sign + whole + fraction + exponent + rest
  {
    Assoc(sign, whole, fraction + (exponent + rest));
    Assoc(sign + whole, fraction, exponent + rest);
    Assoc(sign + whole + fraction, exponent, rest);
  }

  lemma {:induction false} TreeSound(s: Text)
    ensures ParseTree(s).Ok? ==>
              var r := ParseTree(s).value; WellFormed(r.item) && Distinct(r.item) && s == Yield(r.item) + r.rest
    decreases |s|, 0
  {
    if s != [] && s[0] == LBRACE {
      ObjectSound(s);
    } else if s != [] && s[0] == LBRACKET {
      ArraySound(s);
    } else {
      ScalarSound(s);
    }
  }

  lemma ScalarSound(s: Text)
    requires s != [] ==> s[0] != LBRACE && s[0] != LBRACKET
    ensures ParseTree(s).Ok? ==>
              var r := ParseTree(s).value; WellFormed(r.item) && Distinct(r.item) && s == Yield(r.item) + r.rest
  {
    hide ParseChars, StringYield, ParseNumber, NumberYield, NumberWellFormed, CharsWellFormed;
    if ParseTree(s).Ok? {
      if s[0] == QUOTE {
        StringSound(s);
      } else if s[0] == 0x74 {
        Split(s, 4);
      } else if s[0] == 0x66 {
        Split(s, 5);
      } else if s[0] == 0x6E {
        Split(s, 4);
      } else {
        NumberSound(s);
      }
    }
  }

  lemma {:induction false} ArraySound(s: Text)
    requires s != [] && s[0] == LBRACKET
    ensures ParseArray(s).Ok? ==>
              var r := ParseArray(s).value; WellFormed(r.item) && Distinct(r.item) && s == Yield(r.item) + r.rest
    decreases |s| - 1, 3
  {
    var k := Lead(s[1..]);
    var t := s[1..][k..];
    if t != [] && t[0] == RBRACKET {
      hide ParseItems, ParseTree;
      EmptySound(s[1..], k, LBRACKET, RBRACKET);
    } else if ParseItems(s[1..]).Ok? {
      ItemsSound(s[1..]);
      hide ParseItems, ParseTree;
      Assoc([LBRACKET], ItemsYield(ParseItems(s[1..]).value.item), ParseItems(s[1..]).value.rest);
      assert s == [LBRACKET] + s[1..];
    }
  }

  /** Three pieces followed by a rest, regrouped. */
  lemma Regroup(a: Text, b: Text, c: Text, rest: Text)
    ensures a + (b + (c + rest)) == (a + (b + c)) + rest
  {
    Assoc(b, c, rest);
    Assoc(a, b + c, rest);
  }

  lemma {:induction false} ItemSound(s: Text)
    ensures ParseItem(s).Ok? ==>
              var r := ParseItem(s).value; ItemsWellFormed([r.item]) && ItemsDistinct([r.item]) && s == ItemYield(r.item) + r.rest
    decreases |s|, 1
  {
    if ParseItem(s).Ok? {
      var k := Lead(s);
      TreeSound(s[k..]);
      var value := ParseTree(s[k..]).value;
      var j := Lead(value.rest);
      Split(s, k);
      Split(value.rest, j);
      hide Yield, ParseTree, WellFormed, Distinct;
      Regroup(s[..k], Yield(value.item), value.rest[..j], value.rest[j..]);
    }
  }

  lemma ItemsCons(item: ItemTree, more: seq<ItemTree>, rest: Text)
    requires ItemsWellFormed([item]) && ItemsDistinct([item]) && ItemsWellFormed(more) && ItemsDistinct(more) && more != []
    ensures ItemsWellFormed([item] + more) && ItemsDistinct([item] + more)
    ensures ItemYield(item) + ([COMMA] + (ItemsYield(more) + rest)) == ItemsYield([item] + more) + rest
  {
    hide ItemYield, Yield, WellFormed, Distinct;
    assert ([item] + more)[1..] == more;
    Regroup(ItemYield(item), [COMMA], ItemsYield(more), rest);
  }

  lemma {:induction false} ItemsSound(s: Text)
    ensures ParseItems(s).Ok? ==>
              var r := ParseItems(s).value; ItemsWellFormed(r.item) && ItemsDistinct(r.item) && s == ItemsYield(r.item) + r.rest
    decreases |s|, 2
  {
    if ParseItems(s).Ok? {
      ItemSound(s);
      var first := ParseItem(s).value;
      var next := first.rest;
      HeadFirst(next);
      hide ItemYield, ParseItem, WellFormed, Distinct;
      if next[0] == RBRACKET {
        assert ParseItems(s) == Ok(Step([first.item], next[1..]));
        hide ParseItems;
        Assoc(ItemYield(first.item), [RBRACKET], next[1..]);
      } else {
        ItemsSound(next[1..]);
        var more := ParseItems(next[1..]).value;
        assert ParseItems(s) == Ok(Step([first.item] + more.item, more.rest));
        hide ParseItems, ItemsYield;
        ItemsCons(first.item, more.item, more.rest);
      }
    }
  }

  lemma {:induction false} ObjectSound(s: Text)
    requires s != [] && s[0] == LBRACE
    ensures ParseObject(s).Ok? ==>
              var r := ParseObject(s).value; WellFormed(r.item) && Distinct(r.item) && s == Yield(r.item) + r.rest
    decreases |s| - 1, 3
  {
    var k := Lead(s[1..]);
    var t := s[1..][k..];
    if t != [] && t[0] == RBRACE {
      hide ParseMembers, ParseTree;
      EmptySound(s[1..], k, LBRACE, RBRACE);
    } else if ParseMembers(s[1..], {}).Ok? {
      MembersSound(s[1..], {});
      hide ParseMembers, ParseTree;
      Assoc([LBRACE], MembersYield(ParseMembers(s[1..], {}).value.item), ParseMembers(s[1..], {}).value.rest);
      assert s == [LBRACE] + s[1..];
    }
  }

  lemma EmptySound(u: Text, k: nat, open: Unit, close: Unit)
    requires k < |u| && u[k] == close
    ensures [open] + u == [open] + (u[..k] + [close]) + u[k..][1..]
  {
  }

  lemma NameSound(s: Text)
    ensures ParseName(s).Ok? ==>
              var r := ParseName(s).value;
              && AllSpace(r.item.0) && AllSpace(r.item.2)
              && s == r.item.0 + (StringYield(r.item.1) + (r.item.2 + r.rest))
  {
    if ParseName(s).Ok? {
      var k := Lead(s);
      var chars := ParseChars(s[k + 1..]).value;
      var j := Lead(chars.rest);
      Split(s, k);
      assert s[k..][1..] == s[k + 1..];
      StringSound(s[k..]);
      Split(chars.rest, j);
      hide ParseChars, StringYield;
    }
  }

  lemma MemberJoins(m: MemberTree, s: Text, colon: Text, value: Text, after: Text, next: Text)
    requires s == m.before + (StringYield(m.name) + (m.beforeColon + colon))
    requires colon == [COLON] + (m.afterColon + value) && value == Yield(m.value) + after && after == m.after + next
    ensures s == MemberYield(m) + next
  {
    hide Yield, StringYield;
    var v := Yield(m.value) + m.after;
    var c := [COLON] + (m.afterColon + v);
    Assoc(Yield(m.value), m.after, next);
    Regroup([COLON], m.afterColon, v, next);
    Regroup(StringYield(m.name), m.beforeColon, c, next);
    Assoc(m.before, StringYield(m.name) + (m.beforeColon + c), next);
  }

  lemma {:induction false} MemberSound(s: Text, names: set<Text>)
    ensures ParseMember(s, names).Ok? ==>
              var r := ParseMember(s, names).value;
              && MembersWellFormed([r.item]) && MembersDistinct([r.item]) && CharsMeaning(r.item.name) !in names
              && s == MemberYield(r.item) + r.rest
    decreases |s|, 1
  {
    hide Yield, StringYield, MemberYield, ParseName, ParseTree, WellFormed, Distinct, CharsMeaning;
    if ParseMember(s, names).Ok? {
      NameSound(s);
      var colon := ParseName(s).value.rest;
      var k := Lead(colon[1..]);
      TreeSound(colon[1..][k..]);
      var after := ParseTree(colon[1..][k..]).value.rest;
      var j := Lead(after);
      Split(colon, 1);
      Split(colon[1..], k);
      Split(after, j);
      MemberJoins(ParseMember(s, names).value.item, s, colon, colon[1..][k..], after, after[j..]);
    }
  }

  lemma MembersCons(m: MemberTree, more: seq<MemberTree>, rest: Text, names: set<Text>)
    requires MembersWellFormed([m]) && MembersDistinct([m]) && MembersWellFormed(more) && MembersDistinct(more) && more != []
    requires CharsMeaning(m.name) !in names && Names(more) !! names + {CharsMeaning(m.name)}
    ensures MembersWellFormed([m] + more) && MembersDistinct([m] + more) && Names([m] + more) !! names
    ensures MemberYield(m) + ([COMMA] + (MembersYield(more) + rest)) == MembersYield([m] + more) + rest
  {
    hide MemberYield, Yield, WellFormed, Distinct, CharsMeaning;
    assert ([m] + more)[1..] == more;
    Regroup(MemberYield(m), [COMMA], MembersYield(more), rest);
  }

  lemma {:induction false} MembersSound(s: Text, names: set<Text>)
    ensures ParseMembers(s, names).Ok? ==>
              var r := ParseMembers(s, names).value;
              && MembersWellFormed(r.item) && MembersDistinct(r.item) && Names(r.item) !! names
              && s == MembersYield(r.item) + r.rest
    decreases |s|, 2
  {
    if ParseMembers(s, names).Ok? {
      MemberSound(s, names);
      var first := ParseMember(s, names).value;
      var next := first.rest;
      HeadFirst(next);
      hide MemberYield, ParseMember, WellFormed, Distinct, CharsMeaning;
      if next[0] == RBRACE {
        assert ParseMembers(s, names) == Ok(Step([first.item], next[1..]));
        hide ParseMembers;
        Assoc(MemberYield(first.item), [RBRACE], next[1..]);
      } else {
        var seen := names + {CharsMeaning(first.item.name)};
        MembersSound(next[1..], seen);
        var more := ParseMembers(next[1..], seen).value;
        assert ParseMembers(s, names) == Ok(Step([first.item] + more.item, more.rest));
        hide ParseMembers, MembersYield;
        MembersCons(first.item, more.item, more.rest, names);
      }
    }
  }

  /** `StrictJsonParser.parse`: the tree of a whole text. */
  function ParseText(s: Text): (r: Result<Tree, JsonError>)
    ensures r.Ok? ==> WellFormed(r.value)
  {
    match ParseTree(s[Lead(s)..])
    case Err(e) => Err(e)
    case Ok(value) =>
      TreeSound(s[Lead(s)..]);
      if Lead(value.rest) == |value.rest| then Ok(value.item) else Err(InvalidJson)
  }

  /** The value `StrictJsonParser.parse` returns, or the error it throws. */
  function ParseValue(s: Text): Result<Value, JsonError> {
    match ParseText(s)
    case Err(e) => Err(e)
    case Ok(t) => Ok(Meaning(t))
  }
}
