/** JSON values, and the grammar of RFC 8259 sections 2 to 7 as syntax trees with a yield and a meaning. */
module Json {
  import opened Prelude

  const QUOTE: Unit := 0x22
  const BACKSLASH: Unit := 0x5C
  const SLASH: Unit := 0x2F
  const LBRACE: Unit := 0x7B
  const RBRACE: Unit := 0x7D
  const LBRACKET: Unit := 0x5B
  const RBRACKET: Unit := 0x5D
  const COLON: Unit := 0x3A
  const COMMA: Unit := 0x2C
  const MINUS: Unit := 0x2D
  const PLUS: Unit := 0x2B
  const DOT: Unit := 0x2E
  const ZERO: Unit := 0x30
  const TRUE_TEXT: Text := [0x74, 0x72, 0x75, 0x65]
  const FALSE_TEXT: Text := [0x66, 0x61, 0x6C, 0x73, 0x65]
  const NULL_TEXT: Text := [0x6E, 0x75, 0x6C, 0x6C]

  /**
   * A number is the integer its text denotes when it is written as a plain safe integer, and its text
   * otherwise: fractions, exponents, negative zero and unsafe integers are kept as written.
   */
  datatype Number = Integer(n: int) | Lexeme(text: Text)

  datatype Value =
    | Null
    | Bool(b: bool)
    | Num(number: Number)
    | Str(text: Text)
    | Arr(items: seq<Value>)
    | Obj(members: map<Text, Value>)

  predicate IsSpace(u: Unit) {
    u == 0x20 || u == 0x09 || u == 0x0A || u == 0x0D
  }

  predicate AllSpace(s: Text) {
    forall i | 0 <= i < |s| :: IsSpace(s[i])
  }

  predicate IsDigit(u: Unit) {
    0x30 <= u <= 0x39
  }

  predicate AllDigits(s: Text) {
    forall i | 0 <= i < |s| :: IsDigit(s[i])
  }

  // ---------------------------------------------------------------- strings

  /** One character of a JSON string: as is, a two-character escape, or four hexadecimal digits. */
  datatype CharTree = Plain(u: Unit) | Short(code: Unit) | Hex(digits: Text)

  predicate IsShortEscape(u: Unit) {
    u == QUOTE || u == BACKSLASH || u == SLASH || u == 0x62 || u == 0x66 || u == 0x6E || u == 0x72 || u == 0x74
  }

  predicate IsHexDigit(u: Unit) {
    IsDigit(u) || 0x41 <= u <= 0x46 || 0x61 <= u <= 0x66
  }

  function HexValue(u: Unit): (v: nat)
    requires IsHexDigit(u)
    ensures v < 16
  {
    if IsDigit(u) then u - 0x30 else if u <= 0x46 then u - 0x41 + 10 else u - 0x61 + 10
  }

  predicate CharWellFormed(c: CharTree) {
    match c
    case Plain(u) => 0x20 <= u && u != QUOTE && u != BACKSLASH
    case Short(code) => IsShortEscape(code)
    case Hex(digits) => |digits| == 4 && forall i | 0 <= i < 4 :: IsHexDigit(digits[i])
  }

  predicate CharsWellFormed(cs: seq<CharTree>) {
    forall i | 0 <= i < |cs| :: CharWellFormed(cs[i])
  }

  function CharYield(c: CharTree): Text {
    match c
    case Plain(u) => [u]
    case Short(code) => [BACKSLASH, code]
    case Hex(digits) => [BACKSLASH, 0x75] + digits
  }

  function CharsYield(cs: seq<CharTree>): Text {
    if cs == [] then [] else CharYield(cs[0]) + CharsYield(cs[1..])
  }

  function ShortMeaning(code: Unit): Unit {
    if code == 0x62 then 0x08
    else if code == 0x66 then 0x0C
    else if code == 0x6E then 0x0A
    else if code == 0x72 then 0x0D
    else if code == 0x74 then 0x09
    else code
  }

  function HexMeaning(digits: Text): Unit
    requires CharWellFormed(Hex(digits))
  {
    HexValue(digits[0]) * 0x1000 + HexValue(digits[1]) * 0x100 + HexValue(digits[2]) * 0x10 + HexValue(digits[3])
  }

  function CharMeaning(c: CharTree): Unit
    requires CharWellFormed(c)
  {
    match c
    case Plain(u) => u
    case Short(code) => ShortMeaning(code)
    case Hex(digits) => HexMeaning(digits)
  }

  function CharsMeaning(cs: seq<CharTree>): (t: Text)
    requires CharsWellFormed(cs)
  {
    if cs == [] then [] else [CharMeaning(cs[0])] + CharsMeaning(cs[1..])
  }

  // ---------------------------------------------------------------- numbers

  datatype NumberTree = NumberTree(minus: bool, whole: Text, fraction: Option<Text>, exponent: Option<ExponentTree>)
  datatype ExponentTree = ExponentTree(mark: Unit, sign: Text, digits: Text)

  predicate IsWhole(s: Text) {
    s == [ZERO] || (s != [] && AllDigits(s) && s[0] != ZERO)
  }

  predicate NumberWellFormed(n: NumberTree) {
    && IsWhole(n.whole)
    && (n.fraction.Some? ==> n.fraction.value != [] && AllDigits(n.fraction.value))
    && (n.exponent.Some? ==> ExponentWellFormed(n.exponent.value))
  }

  predicate ExponentWellFormed(e: ExponentTree) {
    (e.mark == 0x65 || e.mark == 0x45) && (e.sign == [] || e.sign == [PLUS] || e.sign == [MINUS])
    && e.digits != [] && AllDigits(e.digits)
  }

  function FractionYield(fraction: Option<Text>): Text {
    if fraction.Some? then [DOT] + fraction.value else []
  }

  function ExponentYield(exponent: Option<ExponentTree>): Text {
    if exponent.Some? then [exponent.value.mark] + exponent.value.sign + exponent.value.digits else []
  }

  function NumberYield(n: NumberTree): Text {
    (if n.minus then [MINUS] else []) + n.whole + FractionYield(n.fraction) + ExponentYield(n.exponent)
  }

  function DigitValue(u: Unit): (v: nat)
    requires IsDigit(u)
    ensures v < 10
  {
    u - 0x30
  }

  /** The value of decimal digits, most significant first. */
  function Decimal(s: Text): (v: nat)
    requires AllDigits(s)
  {
    if s == [] then 0 else 10 * Decimal(s[..|s| - 1]) + DigitValue(s[|s| - 1])
  }

  function NumberMeaning(n: NumberTree): Number
    requires NumberWellFormed(n)
  {
    if n.fraction.None? && n.exponent.None? && AllDigits(n.whole) && Decimal(n.whole) <= MAX_SAFE_INTEGER
       && !(n.minus && Decimal(n.whole) == 0)
    then var d: int := Decimal(n.whole); Integer(if n.minus then -d else d)
    else Lexeme(NumberYield(n))
  }

  // ---------------------------------------------------------------- values

  datatype Tree =
    | NullTree
    | TrueTree
    | FalseTree
    | NumTree(number: NumberTree)
    | StrTree(chars: seq<CharTree>)
    // `space` is the whitespace between the brackets of an empty array or object.
    | ArrTree(space: Text, items: seq<ItemTree>)
    | ObjTree(space: Text, members: seq<MemberTree>)

  /** An array element with the whitespace around it. */
  datatype ItemTree = ItemTree(before: Text, value: Tree, after: Text)

  /** An object member with the whitespace around its name and its value. */
  datatype MemberTree = MemberTree(
    before: Text, name: seq<CharTree>, beforeColon: Text, afterColon: Text, value: Tree, after: Text)

  predicate WellFormed(t: Tree) {
    match t
    case NullTree => true
    case TrueTree => true
    case FalseTree => true
    case NumTree(n) => NumberWellFormed(n)
    case StrTree(chars) => CharsWellFormed(chars)
    case ArrTree(space, items) => AllSpace(space) && (items != [] ==> space == []) && ItemsWellFormed(items)
    case ObjTree(space, members) => AllSpace(space) && (members != [] ==> space == []) && MembersWellFormed(members)
  }

  predicate ItemsWellFormed(items: seq<ItemTree>) {
    items == [] || (
      && AllSpace(items[0].before) && AllSpace(items[0].after) && WellFormed(items[0].value)
      && ItemsWellFormed(items[1..]))
  }

  predicate MembersWellFormed(members: seq<MemberTree>) {
    members == [] || (
      var m := members[0];
      && AllSpace(m.before) && AllSpace(m.beforeColon) && AllSpace(m.afterColon) && AllSpace(m.after)
      && CharsWellFormed(m.name) && WellFormed(m.value)
      && MembersWellFormed(members[1..]))
  }

  /** The text a tree stands for. */
  function Yield(t: Tree): Text {
    match t
    case NullTree => NULL_TEXT
    case TrueTree => TRUE_TEXT
    case FalseTree => FALSE_TEXT
    case NumTree(n) => NumberYield(n)
    case StrTree(chars) => StringYield(chars)
    case ArrTree(space, items) => [LBRACKET] + (if items == [] then space + [RBRACKET] else ItemsYield(items))
    case ObjTree(space, members) => [LBRACE] + (if members == [] then space + [RBRACE] else MembersYield(members))
  }

  function StringYield(chars: seq<CharTree>): Text {
    [QUOTE] + CharsYield(chars) + [QUOTE]
  }

  /** One or more elements with their separators, up to and including the closing bracket. */
  function ItemsYield(items: seq<ItemTree>): Text
    requires items != []
  {
    ItemYield(items[0]) + if |items| == 1 then [RBRACKET] else [COMMA] + ItemsYield(items[1..])
  }

  function ItemYield(item: ItemTree): Text {
    item.before + (Yield(item.value) + item.after)
  }

  function MemberYield(m: MemberTree): Text {
    m.before + (StringYield(m.name) + (m.beforeColon + ([COLON] + (m.afterColon + (Yield(m.value) + m.after)))))
  }

  function MembersYield(members: seq<MemberTree>): Text
    requires members != []
  {
    MemberYield(members[0]) + if |members| == 1 then [RBRACE] else [COMMA] + MembersYield(members[1..])
  }

  /** No object at any depth repeats a member name after unescaping. */
  predicate Distinct(t: Tree)
    requires WellFormed(t)
  {
    match t
    case ArrTree(_, items) => ItemsDistinct(items)
    case ObjTree(_, members) => MembersDistinct(members)
    case _ => true
  }

  predicate ItemsDistinct(items: seq<ItemTree>)
    requires ItemsWellFormed(items)
  {
    items == [] || (Distinct(items[0].value) && ItemsDistinct(items[1..]))
  }

  predicate MembersDistinct(members: seq<MemberTree>)
    requires MembersWellFormed(members)
  {
    members == [] || (
      && Distinct(members[0].value)
      && CharsMeaning(members[0].name) !in Names(members[1..])
      && MembersDistinct(members[1..]))
  }

  function Names(members: seq<MemberTree>): set<Text>
    requires MembersWellFormed(members)
  {
    if members == [] then {} else {CharsMeaning(members[0].name)} + Names(members[1..])
  }

  function Meaning(t: Tree): Value
    requires WellFormed(t)
  {
    match t
    case NullTree => Null
    case TrueTree => Bool(true)
    case FalseTree => Bool(false)
    case NumTree(n) => Num(NumberMeaning(n))
    case StrTree(chars) => Str(CharsMeaning(chars))
    case ArrTree(_, items) => Arr(ItemsMeaning(items))
    case ObjTree(_, members) => Obj(MembersMeaning(members))
  }

  function ItemsMeaning(items: seq<ItemTree>): seq<Value>
    requires ItemsWellFormed(items)
  {
    if items == [] then [] else [Meaning(items[0].value)] + ItemsMeaning(items[1..])
  }

  function MembersMeaning(members: seq<MemberTree>): (m: map<Text, Value>)
    requires MembersWellFormed(members)
    ensures m.Keys == Names(members)
  {
    if members == [] then map[]
    else MembersMeaning(members[1..])[CharsMeaning(members[0].name) := Meaning(members[0].value)]
  }

  /** `text` is a JSON text without repeated member names, and `v` is its value. */
  ghost predicate IsJsonText(text: Text, v: Value) {
    exists before, t, after :: IsJsonTextBy(text, v, before, t, after)
  }

  ghost predicate IsJsonTextBy(text: Text, v: Value, before: Text, t: Tree, after: Text) {
    && AllSpace(before) && AllSpace(after) && WellFormed(t) && Distinct(t)
    && text == before + Yield(t) + after && Meaning(t) == v
  }
}
