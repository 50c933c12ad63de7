/** The canonical printer of policy documents and of command fingerprints, which the strict parser inverts. */
module CanonicalJson {
  import opened Prelude
  import opened Json
  import opened TextOrder
  import opened JsonParser
  import opened JsonCompleteness

  // ---------------------------------------------------------------- JSON.stringify on scalars

  function HexUnit(d: nat): (u: Unit)
    requires d < 16
    ensures IsHexDigit(u) && HexValue(u) == d
  {
    if d < 10 then 0x30 + d else 0x61 + d - 10
  }

  /** The four lower-case hexadecimal digits of a unit. */
  function FourHex(u: Unit): (digits: Text)
    ensures CharWellFormed(Hex(digits)) && HexMeaning(digits) == u
  {
    FourDigits(u);
    var digits := [HexUnit(u / 0x1000), HexUnit(u / 0x100 % 0x10), HexUnit(u / 0x10 % 0x10), HexUnit(u % 0x10)];
    assert IsHexDigit(digits[0]) && IsHexDigit(digits[1]) && IsHexDigit(digits[2]) && IsHexDigit(digits[3]);
    digits
  }

  lemma FourDigits(u: Unit)
    ensures u / 0x1000 < 0x10
    ensures u / 0x1000 * 0x1000 + u / 0x100 % 0x10 * 0x100 + u / 0x10 % 0x10 * 0x10 + u % 0x10 == u
  {
    var a := u / 0x10;
    var b := a / 0x10;
    var c := b / 0x10;
    assert u / 0x100 == b && u / 0x1000 == c;
  }

  predicate IsHighSurrogate(u: Unit) {
    0xD800 <= u <= 0xDBFF
  }

  predicate IsLowSurrogate(u: Unit) {
    0xDC00 <= u <= 0xDFFF
  }

  /** How `JSON.stringify` writes a unit that is not part of a surrogate pair. */
  function QuotedUnit(u: Unit): Text {
    if u == QUOTE || u == BACKSLASH then [BACKSLASH, u]
    else if u == 0x08 then [BACKSLASH, 0x62]
    else if u == 0x0C then [BACKSLASH, 0x66]
    else if u == 0x0A then [BACKSLASH, 0x6E]
    else if u == 0x0D then [BACKSLASH, 0x72]
    else if u == 0x09 then [BACKSLASH, 0x74]
    else if u < 0x20 || IsHighSurrogate(u) || IsLowSurrogate(u) then [BACKSLASH, 0x75] + FourHex(u)
    else [u]
  }

  predicate PairFirst(t: Text) {
    |t| >= 2 && IsHighSurrogate(t[0]) && IsLowSurrogate(t[1])
  }

  /** A string's body: surrogate pairs as they are, lone surrogates and controls escaped. */
  function QuotedBody(t: Text): Text {
    if t == [] then []
    else if PairFirst(t) then [t[0], t[1]] + QuotedBody(t[2..])
    else QuotedUnit(t[0]) + QuotedBody(t[1..])
  }

  function Quoted(t: Text): Text {
    [QUOTE] + QuotedBody(t) + [QUOTE]
  }

  /** A natural number in decimal. */
  function Digits(n: nat): (s: Text)
    ensures s != [] && AllDigits(s) && (s[0] == ZERO ==> n == 0 && s == [ZERO])
  {
    if n < 10 then [0x30 + n] else Digits(n / 10) + [0x30 + n % 10]
  }

  function Magnitude(n: int): nat {
    if n < 0 then -n else n
  }

  function PrintedInteger(n: int): Text {
    if n < 0 then [MINUS] + Digits(Magnitude(n)) else Digits(Magnitude(n))
  }

  // ---------------------------------------------------------------- canonicalizePolicyDocument

  /**
   * Every number in `v` is an ordinary safe integer, the numbers this model prints. (Negative zero is a lexeme,
   * not an integer; JSON.stringify would print it as zero.)
   */
  ghost predicate Integral(v: Value)
    decreases v
  {
    match v
    case Num(number) => number.Integer? && -MAX_SAFE_INTEGER <= number.n <= MAX_SAFE_INTEGER
    case Arr(items) => forall i | 0 <= i < |items| :: Integral(items[i])
    case Obj(members) => forall k | k in members :: Integral(members[k])
    case _ => true
  }

  /** `canonicalizePolicyDocument`: no whitespace, and every object's members in the order of their names. */
  ghost function Canonical(v: Value): Text
    requires Integral(v)
    decreases v, 2
  {
    match v
    case Null => NULL_TEXT
    case Bool(b) => if b then TRUE_TEXT else FALSE_TEXT
    case Num(number) => PrintedInteger(number.n)
    case Str(t) => Quoted(t)
    case Arr(items) => [LBRACKET] + CanonicalItems(items) + [RBRACKET]
    case Obj(members) => [LBRACE] + CanonicalMembers(v, Sorted(members.Keys)) + [RBRACE]
  }

  /** The elements joined by commas. */
  ghost function CanonicalItems(items: seq<Value>): Text
    requires forall i | 0 <= i < |items| :: Integral(items[i])
    decreases items, 1
  {
    if items == [] then []
    else if |items| == 1 then Canonical(items[0])
    else Canonical(items[0]) + ([COMMA] + CanonicalItems(items[1..]))
  }

  /** The members named by `names`, in that order, joined by commas. */
  ghost function CanonicalMembers(v: Value, names: seq<Text>): Text
    requires v.Obj? && Integral(v) && forall i | 0 <= i < |names| :: names[i] in v.members
    decreases v, 1, |names|
  {
    if names == [] then []
    else
      var first := Quoted(names[0]) + ([COLON] + Canonical(v.members[names[0]]));
      if |names| == 1 then first else first + ([COMMA] + CanonicalMembers(v, names[1..]))
  }

  predicate NoRepeats(names: seq<Text>) {
    forall i, j | 0 <= i < j < |names| :: names[i] != names[j]
  }

  /** `names` are an object's own names, each once, in some order. */
  predicate Lists(v: Value, names: seq<Text>) {
    v.Obj? && NoRepeats(names) && Elements(names) == v.members.Keys && forall i | 0 <= i < |names| :: names[i] in v.members
  }

  /** An object's members in the order of `names`, which is how `JSON.stringify` prints a record it was given. */
  ghost function Stringified(v: Value, names: seq<Text>): Text
    requires Integral(v) && Lists(v, names)
  {
    [LBRACE] + CanonicalMembers(v, names) + [RBRACE]
  }

  /** An array of strings. */
  function Strings(ts: seq<Text>): (vs: seq<Value>)
    ensures |vs| == |ts| && forall i | 0 <= i < |ts| :: vs[i] == Str(ts[i])
  {
    seq(|ts|, i requires 0 <= i < |ts| => Str(ts[i]))
  }

  lemma StringsIntegral(ts: seq<Text>)
    ensures Integral(Arr(Strings(ts)))
  {
  }

  // ---------------------------------------------------------------- the tree of a canonical text

  function QuotedChar(u: Unit): (c: CharTree)
    ensures CharWellFormed(c) && CharMeaning(c) == u && CharYield(c) == QuotedUnit(u)
  {
    if u == QUOTE || u == BACKSLASH then Short(u)
    else if u == 0x08 then Short(0x62)
    else if u == 0x0C then Short(0x66)
    else if u == 0x0A then Short(0x6E)
    else if u == 0x0D then Short(0x72)
    else if u == 0x09 then Short(0x74)
    else if u < 0x20 || IsHighSurrogate(u) || IsLowSurrogate(u) then Hex(FourHex(u))
    else Plain(u)
  }

  function CharsOf(t: Text): seq<CharTree> {
    if t == [] then []
    else if PairFirst(t) then [Plain(t[0]), Plain(t[1])] + CharsOf(t[2..])
    else [QuotedChar(t[0])] + CharsOf(t[1..])
  }

  lemma {:induction false} CharsOfText(t: Text)
    ensures CharsWellFormed(CharsOf(t)) && CharsMeaning(CharsOf(t)) == t && CharsYield(CharsOf(t)) == QuotedBody(t)
  {
    if t == [] {
    } else if PairFirst(t) {
      CharsOfText(t[2..]);
      TwoChars(Plain(t[0]), Plain(t[1]), CharsOf(t[2..]));
      assert t == [t[0], t[1]] + t[2..];
    } else {
      CharsOfText(t[1..]);
      OneChar(QuotedChar(t[0]), CharsOf(t[1..]));
      assert t == [t[0]] + t[1..];
    }
  }

  lemma OneChar(c: CharTree, cs: seq<CharTree>)
    requires CharWellFormed(c) && CharsWellFormed(cs)
    ensures CharsWellFormed([c] + cs) && CharsMeaning([c] + cs) == [CharMeaning(c)] + CharsMeaning(cs)
    ensures CharsYield([c] + cs) == CharYield(c) + CharsYield(cs)
  {
    assert ([c] + cs)[1..] == cs;
  }

  lemma TwoChars(c: CharTree, d: CharTree, cs: seq<CharTree>)
    requires CharWellFormed(c) && CharWellFormed(d) && CharsWellFormed(cs)
    ensures CharsWellFormed([c, d] + cs) && CharsMeaning([c, d] + cs) == [CharMeaning(c), CharMeaning(d)] + CharsMeaning(cs)
    ensures CharsYield([c, d] + cs) == (CharYield(c) + CharYield(d)) + CharsYield(cs)
  {
    hide CharYield, CharMeaning, CharWellFormed;
    OneChar(d, cs);
    OneChar(c, [d] + cs);
    Assoc([c], [d], cs);
    Assoc([CharMeaning(c)], [CharMeaning(d)], CharsMeaning(cs));
    Assoc(CharYield(c), CharYield(d), CharsYield(cs));
    hide CharsYield, CharsMeaning, CharsWellFormed;
    assert [c] + [d] == [c, d];
    assert [CharMeaning(c)] + [CharMeaning(d)] == [CharMeaning(c), CharMeaning(d)];
  }

  lemma {:induction false} DigitsValue(n: nat)
    ensures IsWhole(Digits(n)) && Decimal(Digits(n)) == n
  {
    if n >= 10 {
      DigitsValue(n / 10);
      var s := Digits(n);
      assert s[..|s| - 1] == Digits(n / 10);
    }
  }

  function IntegerTree(n: int): NumberTree {
    NumberTree(n < 0, Digits(Magnitude(n)), None, None)
  }

  lemma IntegerTreeMeans(n: int)
    requires -MAX_SAFE_INTEGER <= n <= MAX_SAFE_INTEGER
    ensures NumberWellFormed(IntegerTree(n)) && NumberMeaning(IntegerTree(n)) == Integer(n)
    ensures NumberYield(IntegerTree(n)) == PrintedInteger(n)
  {
    DigitsValue(Magnitude(n));
  }

  ghost function TreeOf(v: Value): Tree
    requires Integral(v)
    decreases v, 2
  {
    match v
    case Null => NullTree
    case Bool(b) => if b then TrueTree else FalseTree
    case Num(number) => NumTree(IntegerTree(number.n))
    case Str(t) => StrTree(CharsOf(t))
    case Arr(items) => ArrTree([], ItemsOf(items))
    case Obj(members) => ObjTree([], MembersOf(v, Sorted(members.Keys)))
  }

  ghost function ItemsOf(items: seq<Value>): seq<ItemTree>
    requires forall i | 0 <= i < |items| :: Integral(items[i])
    decreases items, 1
  {
    if items == [] then [] else [ItemTree([], TreeOf(items[0]), [])] + ItemsOf(items[1..])
  }

  ghost function MemberOf(v: Value, name: Text): MemberTree
    requires v.Obj? && Integral(v) && name in v.members
    decreases v, 1, 0
  {
    MemberTree([], CharsOf(name), [], [], TreeOf(v.members[name]), [])
  }

  ghost function MembersOf(v: Value, names: seq<Text>): seq<MemberTree>
    requires v.Obj? && Integral(v) && forall i | 0 <= i < |names| :: names[i] in v.members
    decreases v, 1, |names| + 1
  {
    if names == [] then [] else [MemberOf(v, names[0])] + MembersOf(v, names[1..])
  }

  lemma {:induction false} TreeOfValue(v: Value)
    requires Integral(v)
    ensures WellFormed(TreeOf(v)) && Distinct(TreeOf(v)) && Meaning(TreeOf(v)) == v && Yield(TreeOf(v)) == Canonical(v)
    decreases v, 2
  {
    match v
    case Num(number) => IntegerTreeMeans(number.n);
    case Str(t) => CharsOfText(t);
    case Arr(items) => ArrayOfValue(items);
    case Obj(members) => ObjectOfValue(v);
    case _ =>
  }

  lemma {:induction false} ArrayOfValue(items: seq<Value>)
    requires Integral(Arr(items))
    ensures var t := ArrTree([], ItemsOf(items));
            WellFormed(t) && Distinct(t) && Meaning(t) == Arr(items) && Yield(t) == Canonical(Arr(items))
    decreases Arr(items), 1, 0
  {
    ItemsOfValues(items);
    hide ItemsYield, CanonicalItems, ItemsWellFormed, ItemsDistinct, ItemsMeaning;
    if items != [] {
      Assoc([LBRACKET], CanonicalItems(items), [RBRACKET]);
    }
  }

  lemma {:induction false} ItemsOfValues(items: seq<Value>)
    requires forall i | 0 <= i < |items| :: Integral(items[i])
    ensures var ts := ItemsOf(items);
            && ItemsWellFormed(ts) && ItemsDistinct(ts) && ItemsMeaning(ts) == items && (ts == [] <==> items == [])
            && (items != [] ==> ItemsYield(ts) == CanonicalItems(items) + [RBRACKET])
    decreases items, 1
  {
    if items != [] {
      TreeOfValue(items[0]);
      ItemsOfValues(items[1..]);
      hide TreeOf, Yield, Canonical, WellFormed, Distinct, Meaning, Integral;
      HeadFirst(items);
      ItemsOfCons(ItemTree([], TreeOf(items[0]), []), ItemsOf(items[1..]));
      if |items| > 1 {
        Regroup(Canonical(items[0]), [COMMA], CanonicalItems(items[1..]), [RBRACKET]);
      }
    }
  }

  lemma ItemsOfCons(item: ItemTree, more: seq<ItemTree>)
    requires item.before == [] && item.after == [] && WellFormed(item.value) && Distinct(item.value)
    requires ItemsWellFormed(more) && ItemsDistinct(more)
    ensures var ts := [item] + more;
            && ItemsWellFormed(ts) && ItemsDistinct(ts) && ItemsMeaning(ts) == [Meaning(item.value)] + ItemsMeaning(more)
            && ItemsYield(ts) == Yield(item.value) + if more == [] then [RBRACKET] else [COMMA] + ItemsYield(more)
  {
    hide Yield, WellFormed, Distinct, Meaning;
    assert ([item] + more)[1..] == more;
    assert ItemYield(item) == Yield(item.value);
  }

  lemma {:induction false} ObjectOfValue(v: Value)
    requires v.Obj? && Integral(v)
    ensures var t := ObjTree([], MembersOf(v, Sorted(v.members.Keys)));
            WellFormed(t) && Distinct(t) && Meaning(t) == v && Yield(t) == Canonical(v)
    decreases v, 1, 1
  {
    var names := Sorted(v.members.Keys);
    SortedLists(v);
    ObjectOfNames(v, names);
    CanonicalObject(v);
    hide *;
  }

  lemma {:induction false} ObjectOfNames(v: Value, names: seq<Text>)
    requires v.Obj? && Integral(v) && Lists(v, names)
    ensures var t := ObjTree([], MembersOf(v, names));
            WellFormed(t) && Distinct(t) && Meaning(t) == v && Yield(t) == Stringified(v, names)
    decreases v, 1, 0
  {
    MembersOfValue(v, names);
    hide MembersYield, CanonicalMembers, MembersWellFormed, MembersDistinct, MembersMeaning, Integral, MembersOf, Names;
    hide Stringified, NoRepeats;
    ObjectMeaning(v.members, MembersOf(v, names));
    ObjectText(v, MembersOf(v, names), names);
  }

  lemma SortedLists(v: Value)
    requires v.Obj?
    ensures Lists(v, Sorted(v.members.Keys))
  {
    var names := Sorted(v.members.Keys);
    assert forall i | 0 <= i < |names| :: names[i] in Elements(names);
    forall i, j | 0 <= i < j < |names| ensures names[i] != names[j] {
      assert Less(names[i], names[j]);
      LessIrreflexive(names[i]);
    }
  }

  lemma ObjectMeaning(members: map<Text, Value>, ms: seq<MemberTree>)
    requires MembersWellFormed(ms) && MembersDistinct(ms) && Names(ms) == members.Keys
    requires forall k | k in members :: MembersMeaning(ms)[k] == members[k]
    ensures var t := ObjTree([], ms); WellFormed(t) && Distinct(t) && Meaning(t) == Obj(members)
  {
    assert MembersMeaning(ms) == members;
  }

  lemma ObjectText(v: Value, ms: seq<MemberTree>, names: seq<Text>)
    requires v.Obj? && Integral(v) && Lists(v, names)
    requires ms == [] <==> names == []
    requires names != [] ==> MembersYield(ms) == CanonicalMembers(v, names) + [RBRACE]
    ensures Yield(ObjTree([], ms)) == Stringified(v, names)
  {
    hide *;
    StringifiedText(v, names);
    YieldObject(ms);
    var body := CanonicalMembers(v, names);
    if ms == [] {
      Brackets();
    } else {
      Assoc([LBRACE], body, [RBRACE]);
    }
  }

  lemma StringifiedText(v: Value, names: seq<Text>)
    requires v.Obj? && Integral(v) && Lists(v, names)
    ensures forall i | 0 <= i < |names| :: names[i] in v.members
    ensures Stringified(v, names) == [LBRACE] + CanonicalMembers(v, names) + [RBRACE] && (names == [] ==> CanonicalMembers(v, names) == [])
  {
    hide Integral;
  }

  lemma CanonicalObject(v: Value)
    requires v.Obj? && Integral(v)
    ensures Lists(v, Sorted(v.members.Keys)) && Canonical(v) == Stringified(v, Sorted(v.members.Keys))
  {
    SortedLists(v);
    hide Integral, Sorted;
  }

  lemma YieldObject(ms: seq<MemberTree>)
    ensures Yield(ObjTree([], ms)) == [LBRACE] + if ms == [] then [RBRACE] else MembersYield(ms)
  {
    hide MembersYield;
    assert [] + [RBRACE] == [RBRACE];
  }

  lemma Brackets()
    ensures [LBRACE] + [] + [RBRACE] == [LBRACE] + [RBRACE]
  {
  }

  lemma {:induction false} MembersOfValue(v: Value, names: seq<Text>)
    requires v.Obj? && Integral(v) && NoRepeats(names) && forall i | 0 <= i < |names| :: names[i] in v.members
    ensures var ms := MembersOf(v, names);
            && MembersWellFormed(ms) && MembersDistinct(ms) && Names(ms) == Elements(names) && (ms == [] <==> names == [])
            && (forall k | k in Elements(names) :: MembersMeaning(ms)[k] == v.members[k])
            && (names != [] ==> MembersYield(ms) == CanonicalMembers(v, names) + [RBRACE])
    decreases v, 0, |names|
  {
    if names != [] {
      var name := names[0];
      TreeOfValue(v.members[name]);
      CharsOfText(name);
      MembersOfValue(v, names[1..]);
      HeadElement(names);
      hide TreeOf, Yield, Canonical, WellFormed, Distinct, Meaning, Integral, CharsOf, QuotedBody, CharsMeaning, CharsWellFormed;
      hide NoRepeats, Elements;
      MembersOfCons(MemberOf(v, name), MembersOf(v, names[1..]));
      if |names| > 1 {
        Regroup(Quoted(name) + ([COLON] + Canonical(v.members[name])), [COMMA], CanonicalMembers(v, names[1..]), [RBRACE]);
      }
    }
  }

  lemma HeadElement(names: seq<Text>)
    requires names != [] && NoRepeats(names)
    ensures Elements(names) == {names[0]} + Elements(names[1..]) && names[0] !in Elements(names[1..]) && NoRepeats(names[1..])
  {
    assert names == [names[0]] + names[1..];
  }

  lemma MembersOfCons(m: MemberTree, more: seq<MemberTree>)
    requires m.before == [] && m.beforeColon == [] && m.afterColon == [] && m.after == []
    requires CharsWellFormed(m.name) && WellFormed(m.value) && Distinct(m.value)
    requires MembersWellFormed(more) && MembersDistinct(more) && CharsMeaning(m.name) !in Names(more)
    ensures var ms := [m] + more; var name := CharsMeaning(m.name);
            && MembersWellFormed(ms) && MembersDistinct(ms) && Names(ms) == {name} + Names(more)
            && MembersMeaning(ms) == MembersMeaning(more)[name := Meaning(m.value)]
            && MembersYield(ms) == (StringYield(m.name) + ([COLON] + Yield(m.value))) +
                                   if more == [] then [RBRACE] else [COMMA] + MembersYield(more)
  {
    hide Yield, WellFormed, Distinct, Meaning, CharsMeaning, CharsWellFormed, StringYield;
    assert ([m] + more)[1..] == more;
    NoSpace(StringYield(m.name), Yield(m.value));
  }

  lemma NoSpace(name: Text, value: Text)
    ensures [] + (name + ([] + ([COLON] + ([] + (value + []))))) == name + ([COLON] + value)
  {
    assert value + [] == value;
    assert [] + value == value;
    assert [] + ([COLON] + value) == [COLON] + value;
  }

  // ---------------------------------------------------------------- what a canonical text looks like

  /** A character is escaped only where it must be, with its short escape if it has one, else in lower-case digits. */
  predicate BrieflyWritten(c: CharTree)
    requires CharWellFormed(c)
  {
    match c
    case Plain(_) => true
    case Short(e) => e != 0x2F
    case Hex(digits) =>
      var u := HexMeaning(digits);
      && (u < 0x08 || u == 0x0B || 0x0E <= u < 0x20 || 0xD800 <= u <= 0xDFFF)
      && forall i | 0 <= i < |digits| :: IsDigit(digits[i]) || 0x61 <= digits[i] <= 0x66
  }

  predicate BrieflySpelled(cs: seq<CharTree>)
    requires CharsWellFormed(cs)
  {
    cs == [] || (BrieflyWritten(cs[0]) && BrieflySpelled(cs[1..]))
  }

  /** No whitespace anywhere, no name out of order, no number with a fraction or an exponent, no needless escape. */
  ghost predicate Compact(t: Tree)
    requires WellFormed(t)
  {
    match t
    case NumTree(n) => n.fraction.None? && n.exponent.None?
    case StrTree(chars) => BrieflySpelled(chars)
    case ArrTree(space, items) => space == [] && ItemsCompact(items)
    case ObjTree(space, members) => space == [] && MembersCompact(members)
    case _ => true
  }

  ghost predicate ItemsCompact(items: seq<ItemTree>)
    requires ItemsWellFormed(items)
  {
    items == [] || (
      && items[0].before == [] && items[0].after == [] && Compact(items[0].value)
      && ItemsCompact(items[1..]))
  }

  ghost predicate MembersCompact(members: seq<MemberTree>)
    requires MembersWellFormed(members)
  {
    members == [] || (
      var m := members[0];
      && m.before == [] && m.beforeColon == [] && m.afterColon == [] && m.after == []
      && BrieflySpelled(m.name) && Compact(m.value)
      && (forall name | name in Names(members[1..]) :: Precedes(CharsMeaning(m.name), name))
      && MembersCompact(members[1..]))
  }

  lemma QuotedCharIsBrief(u: Unit)
    ensures BrieflyWritten(QuotedChar(u))
  {
    hide HexMeaning, IsHexDigit, HexValue;
  }

  lemma BriefCons(c: CharTree, cs: seq<CharTree>)
    requires CharWellFormed(c) && CharsWellFormed(cs) && BrieflyWritten(c) && BrieflySpelled(cs)
    ensures CharsWellFormed([c] + cs) && BrieflySpelled([c] + cs)
  {
    assert ([c] + cs)[1..] == cs;
    hide BrieflyWritten;
  }

  lemma {:induction false} CharsOfTextAreBrief(t: Text)
    ensures CharsWellFormed(CharsOf(t)) && BrieflySpelled(CharsOf(t))
  {
    CharsOfText(t);
    hide BrieflySpelled, QuotedChar, CharsMeaning, CharsYield, QuotedBody;
    if t == [] {
      NothingIsBrief();
    } else if PairFirst(t) {
      CharsOfTextAreBrief(t[2..]);
      BriefCons(Plain(t[1]), CharsOf(t[2..]));
      BriefCons(Plain(t[0]), [Plain(t[1])] + CharsOf(t[2..]));
      assert CharsOf(t) == [Plain(t[0])] + ([Plain(t[1])] + CharsOf(t[2..]));
    } else {
      CharsOfTextAreBrief(t[1..]);
      QuotedCharIsBrief(t[0]);
      BriefCons(QuotedChar(t[0]), CharsOf(t[1..]));
    }
  }

  lemma NothingIsBrief()
    ensures BrieflySpelled([])
  {
  }

  lemma {:induction false} TreeOfIsCompact(v: Value)
    requires Integral(v)
    ensures WellFormed(TreeOf(v)) && Compact(TreeOf(v))
    decreases v, 2
  {
    TreeOfValue(v);
    match v
    case Str(t) => CharsOfTextAreBrief(t);
    case Arr(items) => ItemsOfAreCompact(items);
    case Obj(members) =>
      var names := Sorted(members.Keys);
      SortedLists(v);
      SortedByPosition(members.Keys);
      MembersOfAreCompact(v, names);
    case _ =>
  }

  lemma {:induction false} ItemsOfAreCompact(items: seq<Value>)
    requires forall i | 0 <= i < |items| :: Integral(items[i])
    ensures ItemsWellFormed(ItemsOf(items)) && ItemsCompact(ItemsOf(items))
    decreases items, 1
  {
    ItemsOfValues(items);
    if items != [] {
      TreeOfIsCompact(items[0]);
      ItemsOfAreCompact(items[1..]);
      assert ItemsOf(items)[1..] == ItemsOf(items[1..]);
    }
  }

  lemma {:induction false} MembersOfAreCompact(v: Value, names: seq<Text>)
    requires v.Obj? && Integral(v) && NoRepeats(names) && forall i | 0 <= i < |names| :: names[i] in v.members
    requires forall i, j | 0 <= i < j < |names| :: Precedes(names[i], names[j])
    ensures MembersWellFormed(MembersOf(v, names)) && MembersCompact(MembersOf(v, names))
    decreases v, 1, |names|
  {
    hide *;
    MembersOfValue(v, names);
    if names == [] {
      NoMembers(v);
    } else {
      TailNames(v, names);
      MembersOfValue(v, names[1..]);
      TreeOfIsCompact(v.members[names[0]]);
      MembersOfAreCompact(v, names[1..]);
      CompactCons(v, names);
    }
  }

  lemma NoMembers(v: Value)
    requires v.Obj? && Integral(v)
    ensures MembersWellFormed(MembersOf(v, [])) && MembersCompact(MembersOf(v, []))
  {
    hide Integral;
  }

  lemma TailNames(v: Value, names: seq<Text>)
    requires v.Obj? && Integral(v) && NoRepeats(names) && names != [] && forall i | 0 <= i < |names| :: names[i] in v.members
    ensures NoRepeats(names[1..]) && Integral(v.members[names[0]])
  {
  }

  lemma CompactCons(v: Value, names: seq<Text>)
    requires v.Obj? && Integral(v) && names != [] && forall i | 0 <= i < |names| :: names[i] in v.members
    requires forall i, j | 0 <= i < j < |names| :: Precedes(names[i], names[j])
    requires Integral(v.members[names[0]])
    requires MembersWellFormed(MembersOf(v, names)) && MembersWellFormed(MembersOf(v, names[1..]))
    requires Names(MembersOf(v, names[1..])) == Elements(names[1..])
    requires WellFormed(TreeOf(v.members[names[0]])) && Compact(TreeOf(v.members[names[0]]))
    requires MembersCompact(MembersOf(v, names[1..]))
    ensures MembersCompact(MembersOf(v, names))
  {
    CharsOfText(names[0]);
    CharsOfTextAreBrief(names[0]);
    assert MembersOf(v, names)[1..] == MembersOf(v, names[1..]);
    hide TreeOf, CharsOf, WellFormed, Compact, BrieflySpelled, Integral, Names, CharsMeaning, CharsWellFormed, Precedes, QuotedBody, CharsYield;
    forall name | name in Elements(names[1..]) ensures Precedes(names[0], name) {
      var i :| 0 <= i < |names[1..]| && names[1..][i] == name;
      assert names[i + 1] == name;
    }
  }

  /**
   * The canonical text is that of a compact tree: it holds no whitespace outside strings, every object's names ascend,
   * and numbers and characters are written without fraction, exponent or needless escape.
   */
  lemma CanonicalIsCompact(v: Value)
    requires Integral(v)
    ensures exists t :: WellFormed(t) && Distinct(t) && Compact(t) && Meaning(t) == v && Yield(t) == Canonical(v)
  {
    TreeOfValue(v);
    TreeOfIsCompact(v);
    hide WellFormed, Distinct, Compact, Meaning, Yield, TreeOf, Canonical, Integral;
    assert WellFormed(TreeOf(v)) && Distinct(TreeOf(v)) && Compact(TreeOf(v));
  }

  // ---------------------------------------------------------------- the results

  /** The strict parser undoes the canonical printer, for every value whose numbers are ordinary integers. */
  lemma ParsingUndoesPrinting(v: Value)
    requires Integral(v)
    ensures ParseValue(Canonical(v)) == Ok(v) && IsJsonText(Canonical(v), v)
  {
    var t := TreeOf(v);
    TreeOfValue(v);
    TextComplete([], t, []);
    hide Canonical, TreeOf, Yield, WellFormed, Distinct, Meaning, Integral, ParseText;
    assert [] + Yield(t) + [] == Yield(t);
    AcceptsExactlyJson(Canonical(v), v);
  }

  /** It also undoes printing an object's own members in any other order. */
  lemma ParsingUndoesStringifying(v: Value, names: seq<Text>)
    requires v.Obj? && Integral(v) && Lists(v, names)
    ensures ParseValue(Stringified(v, names)) == Ok(v)
  {
    var t := ObjTree([], MembersOf(v, names));
    ObjectOfNames(v, names);
    TextComplete([], t, []);
    hide Stringified, Yield, WellFormed, Distinct, Meaning, Integral, ParseText, MembersOf, Lists;
    assert [] + Yield(t) + [] == Yield(t);
  }

  /** Canonical texts are equal exactly when the values are, object members being unordered. */
  lemma CanonicalTextsIdentifyValues(v: Value, w: Value)
    requires Integral(v) && Integral(w)
    ensures Canonical(v) == Canonical(w) <==> v == w
  {
    ParsingUndoesPrinting(v);
    ParsingUndoesPrinting(w);
    hide Canonical, Integral, ParseValue;
  }

  /** However `Object.keys` lists an object's names, sorting them gives the one order the printer uses. */
  lemma KeyOrderIsImmaterial(v: Value, names: seq<Text>)
    requires v.Obj? && Integral(v) && Lists(v, names) && StrictlySorted(names)
    ensures Canonical(v) == Stringified(v, names)
  {
    SortedUnique(names, Sorted(v.members.Keys));
  }
}
