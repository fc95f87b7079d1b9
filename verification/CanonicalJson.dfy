/** `canonicalJson`: equal texts, equal values. */
module CanonicalJson {
  import opened Texts
  import Lists
  import Sorting

  // The source prints a value with the members of every object sorted by key, and compares values by
  // comparing these texts. This module proves what that comparison decides. A `Json` is a value as the
  // program holds it, members in insertion order. A `Value` is what it means: the same with key order
  // forgotten.

  /** A number is represented by the text that the number printer gives it. */
  datatype Json =
    | Null
    | Bool(truth: bool)
    | Num(literal: Text)
    | Str(text: Text)
    | Arr(items: seq<Json>)
    | Obj(members: seq<Member>)

  datatype Member = Member(key: Text, value: Json)

  datatype Value =
    | VNull
    | VBool(truth: bool)
    | VNum(literal: Text)
    | VStr(text: Text)
    | VArr(items: seq<Value>)
    | VObj(members: map<Text, Value>)

  const QUOTE: CodeUnit := 0x22
  const COMMA: CodeUnit := 0x2C
  const COLON: CodeUnit := 0x3A
  const BACKSLASH: CodeUnit := 0x5C
  const OPEN_ARRAY: CodeUnit := 0x5B
  const CLOSE_ARRAY: CodeUnit := 0x5D
  const OPEN_OBJECT: CodeUnit := 0x7B
  const CLOSE_OBJECT: CodeUnit := 0x7D
  const SMALL_U: CodeUnit := 0x75

  const NULL_TEXT: Text := [0x6E, 0x75, 0x6C, 0x6C]
  const TRUE_TEXT: Text := [0x74, 0x72, 0x75, 0x65]
  const FALSE_TEXT: Text := [0x66, 0x61, 0x6C, 0x73, 0x65]

  // ---------------------------------------------------------------- well-formed values

  /** Digits, signs, full stop and exponent letters (section 6 of RFC 8259). */
  predicate NumberUnit(c: CodeUnit) {
    IsDigit(c) || c == 0x2B || c == HYPHEN || c == FULL_STOP || c == 0x65 || c == 0x45
  }

  predicate NumberLiteral(t: Text) {
    && t != []
    && (IsDigit(t[0]) || t[0] == HYPHEN)
    && forall c <- t :: NumberUnit(c)
  }

  function Keys(members: seq<Member>): seq<Text> {
    if members == [] then [] else [members[0].key] + Keys(members[1..])
  }

  /** Objects have each key once and numbers are printed numbers. Every parsed value is like this. */
  predicate WellFormed(j: Json)
    decreases j, 0
  {
    match j
    case Num(literal) => NumberLiteral(literal)
    case Arr(items) => WellFormedItems(items)
    case Obj(members) => WellFormedMembers(members)
    case _ => true
  }

  predicate WellFormedItems(items: seq<Json>)
    decreases items, 1
  {
    items != [] ==> WellFormed(items[0]) && WellFormedItems(items[1..])
  }

  predicate WellFormedMembers(members: seq<Member>)
    decreases members, 1
  {
    members != [] ==>
      && WellFormed(members[0].value)
      && members[0].key !in Keys(members[1..])
      && WellFormedMembers(members[1..])
  }

  // ---------------------------------------------------------------- printing strings

  predicate HighSurrogate(c: CodeUnit) {
    0xD800 <= c < 0xDC00
  }

  predicate LowSurrogate(c: CodeUnit) {
    0xDC00 <= c < 0xE000
  }

  function HexDigit(n: nat): (c: CodeUnit)
    requires n < 16
  {
    if n < 10 then (0x30 + n) as CodeUnit else (0x61 + n - 10) as CodeUnit
  }

  function UnicodeEscape(c: CodeUnit): Text {
    var n := c as nat;
    [BACKSLASH, SMALL_U, HexDigit(n / 16 / 16 / 16), HexDigit(n / 16 / 16 % 16), HexDigit(n / 16 % 16),
     HexDigit(n % 16)]
  }

  /** The letter after the backslash for the units that have a short escape. */
  function ShortEscape(c: CodeUnit): CodeUnit
    requires c == QUOTE || c == BACKSLASH || 0x08 <= c <= 0x0A || c == 0x0C || c == 0x0D
  {
    if c == 0x08 then 0x62
    else if c == 0x09 then 0x74
    else if c == 0x0A then 0x6E
    else if c == 0x0C then 0x66
    else if c == 0x0D then 0x72
    else c
  }

  /** How many units the next printed piece of a string covers: two for a surrogate pair. */
  function Width(s: Text): (n: nat)
    requires s != []
    ensures 1 <= n <= |s|
  {
    if |s| >= 2 && HighSurrogate(s[0]) && LowSurrogate(s[1]) then 2 else 1
  }

  function Piece(s: Text): Text
    requires s != []
  {
    var c := s[0];
    if Width(s) == 2 then s[..2]
    else if c == QUOTE || c == BACKSLASH || 0x08 <= c <= 0x0A || c == 0x0C || c == 0x0D then
      [BACKSLASH, ShortEscape(c)]
    else if c < 0x20 || HighSurrogate(c) || LowSurrogate(c) then UnicodeEscape(c)
    else [c]
  }

  function Escaped(s: Text): Text {
    if s == [] then [] else Piece(s) + Escaped(s[Width(s)..])
  }

  function Quoted(s: Text): Text {
    [QUOTE] + Escaped(s) + [QUOTE]
  }

  // ---------------------------------------------------------------- strings by the grammar of JSON

  // Section 7 of RFC 8259, which lets a printer choose between spellings.

  /** What the letter after a backslash stands for. */
  ghost predicate EscapeLetter(letter: CodeUnit, c: CodeUnit) {
    || (letter == c && (c == QUOTE || c == BACKSLASH || c == SLASH))
    || (letter == 0x62 && c == 0x08) || (letter == 0x66 && c == 0x0C) || (letter == 0x6E && c == 0x0A)
    || (letter == 0x72 && c == 0x0D) || (letter == 0x74 && c == 0x09)
  }

  /** Hexadecimal digits, in either case. */
  ghost predicate IsHex(c: CodeUnit) {
    IsDigit(c) || 0x41 <= c <= 0x46 || 0x61 <= c <= 0x66
  }

  ghost function HexValue(c: CodeUnit): nat
    requires IsHex(c)
  {
    c as nat - if IsDigit(c) then 0x30 else if c <= 0x46 then 0x41 - 10 else 0x61 - 10
  }

  ghost predicate HexSpells(digits: Text, c: CodeUnit) {
    && |digits| == 4 && IsHex(digits[0]) && IsHex(digits[1]) && IsHex(digits[2]) && IsHex(digits[3])
    && c as nat ==
       ((HexValue(digits[0]) * 16 + HexValue(digits[1])) * 16 + HexValue(digits[2])) * 16 + HexValue(digits[3])
  }

  /** A unit stands for itself, or it is escaped by a letter or by its number. */
  ghost predicate SpellsUnit(t: Text, c: CodeUnit) {
    || (t == [c] && c >= 0x20 && c != QUOTE && c != BACKSLASH)
    || (|t| == 2 && t[0] == BACKSLASH && EscapeLetter(t[1], c))
    || (|t| == 6 && t[0] == BACKSLASH && t[1] == SMALL_U && HexSpells(t[2..], c))
  }

  ghost predicate SpellsUnits(t: Text, s: Text) {
    if s == [] then t == []
    else exists n: nat :: n <= |t| && SpellsUnit(t[..n], s[0]) && SpellsUnits(t[n..], s[1..])
  }

  /** The text is a JSON string whose value is exactly the given units. */
  ghost predicate SpellsString(t: Text, s: Text) {
    |t| >= 2 && t[0] == QUOTE && t[|t| - 1] == QUOTE && SpellsUnits(t[1..|t| - 1], s)
  }

  lemma SpellsNext(first: Text, rest: Text, c: CodeUnit, s: Text)
    requires SpellsUnit(first, c) && SpellsUnits(rest, s)
    ensures SpellsUnits(first + rest, [c] + s)
  {
    var t := first + rest;
    assert t[..|first|] == first && t[|first|..] == rest;
    assert ([c] + s)[1..] == s;
  }

  lemma HexDigitValue(n: nat)
    requires n < 16
    ensures IsHex(HexDigit(n)) && HexValue(HexDigit(n)) == n
  {
  }

  lemma HexDigitsSpell(n0: nat, n1: nat, n2: nat, n3: nat, c: CodeUnit)
    requires n0 < 16 && n1 < 16 && n2 < 16 && n3 < 16 && c as nat == ((n0 * 16 + n1) * 16 + n2) * 16 + n3
    ensures HexSpells([HexDigit(n0), HexDigit(n1), HexDigit(n2), HexDigit(n3)], c)
  {
    HexDigitValue(n0);
    HexDigitValue(n1);
    HexDigitValue(n2);
    HexDigitValue(n3);
  }

  lemma UnicodeEscapeSpells(c: CodeUnit)
    ensures SpellsUnit(UnicodeEscape(c), c)
  {
    var n := c as nat;
    var n0, n1, n2, n3 := n / 16 / 16 / 16, n / 16 / 16 % 16, n / 16 % 16, n % 16;
    var t, digits := UnicodeEscape(c), [HexDigit(n0), HexDigit(n1), HexDigit(n2), HexDigit(n3)];
    HexDigitsSpell(n0, n1, n2, n3, c);
    assert t == [BACKSLASH, SMALL_U] + digits;
    assert t[2..] == digits && HexSpells(t[2..], c);
  }

  lemma PieceSpells(s: Text)
    requires s != [] && Width(s) == 1
    ensures SpellsUnit(Piece(s), s[0])
  {
    UnicodeEscapeSpells(s[0]);
  }

  lemma PairSpells(s: Text, rest: Text)
    requires s != [] && Width(s) == 2 && SpellsUnits(rest, s[2..])
    ensures SpellsUnits(Piece(s) + rest, s)
  {
    SpellsNext([s[1]], rest, s[1], s[2..]);
    SpellsNext([s[0]], [s[1]] + rest, s[0], [s[1]] + s[2..]);
    assert [s[0]] + ([s[1]] + s[2..]) == s;
    assert [s[0]] + ([s[1]] + rest) == Piece(s) + rest;
  }

  lemma {:induction false} EscapedSpells(s: Text)
    ensures SpellsUnits(Escaped(s), s)
  {
    if s != [] {
      EscapedSpells(s[Width(s)..]);
      if Width(s) == 2 {
        PairSpells(s, Escaped(s[2..]));
      } else {
        PieceSpells(s);
        SpellsNext(Piece(s), Escaped(s[1..]), s[0], s[1..]);
        assert [s[0]] + s[1..] == s;
      }
      assert Escaped(s) == Piece(s) + Escaped(s[Width(s)..]);
    }
  }

  /** A text is printed as a JSON string with exactly its units. */
  lemma QuotedSpells(s: Text)
    ensures SpellsString(Quoted(s), s)
  {
    EscapedSpells(s);
    assert Quoted(s)[1..|Quoted(s)| - 1] == Escaped(s);
  }

  // ---------------------------------------------------------------- printing values

  /** Prints a value with its members in the order they have. */
  function Print(j: Json): Text
    decreases j, 0
  {
    match j
    case Null => NULL_TEXT
    case Bool(truth) => if truth then TRUE_TEXT else FALSE_TEXT
    case Num(literal) => literal
    case Str(text) => Quoted(text)
    case Arr(items) => [OPEN_ARRAY] + PrintItems(items) + [CLOSE_ARRAY]
    case Obj(members) => [OPEN_OBJECT] + PrintMembers(members) + [CLOSE_OBJECT]
  }

  function PrintItems(items: seq<Json>): Text
    decreases items, 1
  {
    if items == [] then []
    else if |items| == 1 then Print(items[0])
    else Print(items[0]) + [COMMA] + PrintItems(items[1..])
  }

  function PrintMember(member: Member): Text
    decreases member.value, 1
  {
    Quoted(member.key) + [COLON] + Print(member.value)
  }

  function PrintMembers(members: seq<Member>): Text
    decreases members, 2
  {
    if members == [] then []
    else if |members| == 1 then PrintMember(members[0])
    else PrintMember(members[0]) + [COMMA] + PrintMembers(members[1..])
  }

  // ---------------------------------------------------------------- sorting the members

  function MemberOrder(leq: Order): Sorting.Comparison<Member> {
    (a: Member, b: Member) => leq(a.key, b.key)
  }

  /** The value with the members of every object sorted by key. */
  function Normal(leq: Order, j: Json): Json
    decreases j, 0
  {
    match j
    case Arr(items) => Arr(NormalItems(leq, items))
    case Obj(members) => Obj(Sorting.Sort(MemberOrder(leq), NormalMembers(leq, members)))
    case _ => j
  }

  function NormalItems(leq: Order, items: seq<Json>): seq<Json>
    decreases items, 1
  {
    if items == [] then [] else [Normal(leq, items[0])] + NormalItems(leq, items[1..])
  }

  function NormalMembers(leq: Order, members: seq<Member>): seq<Member>
    decreases members, 1
  {
    if members == [] then []
    else [Member(members[0].key, Normal(leq, members[0].value))] + NormalMembers(leq, members[1..])
  }

  /** The text that the source compares. */
  function Canonical(leq: Order, j: Json): Text {
    Print(Normal(leq, j))
  }

  // ---------------------------------------------------------------- meaning

  function Denote(j: Json): Value
    decreases j, 0
  {
    match j
    case Null => VNull
    case Bool(truth) => VBool(truth)
    case Num(literal) => VNum(literal)
    case Str(text) => VStr(text)
    case Arr(items) => VArr(DenoteItems(items))
    case Obj(members) => VObj(DenoteMembers(members))
  }

  function DenoteItems(items: seq<Json>): seq<Value>
    decreases items, 1
  {
    if items == [] then [] else [Denote(items[0])] + DenoteItems(items[1..])
  }

  function DenoteMembers(members: seq<Member>): map<Text, Value>
    decreases members, 1
  {
    if members == [] then map[] else DenoteMembers(members[1..])[members[0].key := Denote(members[0].value)]
  }

  // ---------------------------------------------------------------- reading a printed value back

  lemma Cancel(p: Text, x: Text, y: Text)
    requires p + x == p + y
    ensures x == y
  {
    assert x == (p + x)[|p|..] && y == (p + y)[|p|..];
  }

  lemma HexDigitInjective(m: nat, n: nat)
    requires m < 16 && n < 16 && HexDigit(m) == HexDigit(n)
    ensures m == n
  {
  }

  lemma UnicodeEscapeInjective(c: CodeUnit, d: CodeUnit)
    requires UnicodeEscape(c) == UnicodeEscape(d)
    ensures c == d
  {
    var m, n := c as nat, d as nat;
    var s, t := UnicodeEscape(c), UnicodeEscape(d);
    assert s[2] == t[2] && s[3] == t[3] && s[4] == t[4] && s[5] == t[5];
    HexDigitInjective(m / 16 / 16 / 16, n / 16 / 16 / 16);
    HexDigitInjective(m / 16 / 16 % 16, n / 16 / 16 % 16);
    HexDigitInjective(m / 16 % 16, n / 16 % 16);
    HexDigitInjective(m % 16, n % 16);
  }

  lemma PieceStart(s: Text)
    requires s != []
    ensures Piece(s) != [] && Piece(s)[0] != QUOTE
  {
  }

  /** How long a piece is shows in its first two units. */
  lemma PieceLength(s: Text)
    requires s != []
    ensures
      var p := Piece(s);
      && p != [] && (p[0] == BACKSLASH ==> |p| > 1)
      && |p| == if p[0] == BACKSLASH then (if p[1] == SMALL_U then 6 else 2) else if HighSurrogate(p[0]) then 2 else 1
  {
  }

  lemma PieceInjective(s: Text, t: Text)
    requires s != [] && t != [] && Piece(s) == Piece(t)
    ensures s[..Width(s)] == t[..Width(t)]
  {
    PieceLength(s);
    PieceLength(t);
    var p := Piece(s);
    if p[0] == BACKSLASH {
      assert Width(s) == 1 && Width(t) == 1;
      if p[1] == SMALL_U {
        UnicodeEscapeInjective(s[0], t[0]);
      }
    }
  }

  /** The first piece of a printed string determines the units it stands for. */
  lemma PieceUnambiguous(s: Text, t: Text, x: Text, y: Text)
    requires s != [] && t != []
    requires Piece(s) + x == Piece(t) + y
    ensures s[..Width(s)] == t[..Width(t)] && x == y
  {
    var p, q := Piece(s), Piece(t);
    var left, right := p + x, q + y;
    PieceLength(s);
    PieceLength(t);
    assert left[0] == p[0] && right[0] == q[0];
    if p[0] == BACKSLASH {
      assert left[1] == p[1] && right[1] == q[1];
    }
    assert |p| == |q|;
    assert p == left[..|p|] && q == right[..|q|];
    Cancel(p, x, y);
    PieceInjective(s, t);
  }

  lemma Regrouped(piece: Text, rest: Text, x: Text)
    ensures piece + rest + [QUOTE] + x == piece + (rest + [QUOTE] + x)
    ensures piece != [] ==> (piece + rest + [QUOTE] + x)[0] == piece[0]
  {
  }

  lemma EscapedSplit(s: Text, x: Text)
    ensures (Escaped(s) + [QUOTE] + x)[0] == QUOTE <==> s == []
    ensures s == [] ==> Escaped(s) + [QUOTE] + x == [QUOTE] + x
    ensures s != [] ==>
      Escaped(s) + [QUOTE] + x == Piece(s) + (Escaped(s[Width(s)..]) + [QUOTE] + x)
  {
    if s == [] {
      assert Escaped(s) == [] && [] + [QUOTE] + x == [QUOTE] + x;
    } else {
      var rest := Escaped(s[Width(s)..]);
      PieceStart(s);
      assert Escaped(s) == Piece(s) + rest;
      Regrouped(Piece(s), rest, x);
    }
  }

  /** A quoted string ends at one place and determines its text (section 7 of RFC 8259). */
  lemma {:induction false} EscapedUnambiguous(s: Text, t: Text, x: Text, y: Text)
    requires Escaped(s) + [QUOTE] + x == Escaped(t) + [QUOTE] + y
    ensures s == t && x == y
  {
    EscapedSplit(s, x);
    EscapedSplit(t, y);
    if s == [] {
      Cancel([QUOTE], x, y);
    } else {
      var s', t' := s[Width(s)..], t[Width(t)..];
      PieceUnambiguous(s, t, Escaped(s') + [QUOTE] + x, Escaped(t') + [QUOTE] + y);
      EscapedUnambiguous(s', t', x, y);
      assert s == s[..Width(s)] + s' && t == t[..Width(t)] + t';
    }
  }

  lemma QuotedForm(s: Text, x: Text)
    ensures Quoted(s) + x == [QUOTE] + (Escaped(s) + [QUOTE] + x)
  {
  }

  lemma QuotedUnambiguous(s: Text, t: Text, x: Text, y: Text)
    requires Quoted(s) + x == Quoted(t) + y
    ensures s == t && x == y
  {
    QuotedForm(s, x);
    QuotedForm(t, y);
    Cancel([QUOTE], Escaped(s) + [QUOTE] + x, Escaped(t) + [QUOTE] + y);
    EscapedUnambiguous(s, t, x, y);
  }

  /** What can follow a value inside a printed value, or nothing. */
  predicate Delimited(rest: Text) {
    rest != [] ==> rest[0] == COMMA || rest[0] == CLOSE_ARRAY || rest[0] == CLOSE_OBJECT
  }

  lemma {:induction false} NumberUnambiguous(a: Text, b: Text, x: Text, y: Text)
    requires (forall c <- a :: NumberUnit(c)) && (forall c <- b :: NumberUnit(c))
    requires Delimited(x) && Delimited(y) && a + x == b + y
    ensures a == b && x == y
  {
    var left, right := a + x, b + y;
    assert forall k :: 0 <= k < |a| ==> left[k] == a[k] && NumberUnit(left[k]);
    assert forall k :: 0 <= k < |b| ==> right[k] == b[k] && NumberUnit(right[k]);
    assert x != [] ==> !NumberUnit(left[|a|]);
    assert y != [] ==> !NumberUnit(right[|b|]);
    assert |a| == |b|;
    assert a == left[..|a|] && b == right[..|b|];
    Cancel(a, x, y);
  }

  /** The first unit of a printed value tells which kind of value it is. */
  lemma PrintStart(j: Json)
    requires WellFormed(j)
    ensures Print(j) != []
    ensures
      var c := Print(j)[0];
      match j
      case Null => c == NULL_TEXT[0]
      case Bool(truth) => c == if truth then TRUE_TEXT[0] else FALSE_TEXT[0]
      case Num(_) => IsDigit(c) || c == HYPHEN
      case Str(_) => c == QUOTE
      case Arr(_) => c == OPEN_ARRAY
      case Obj(_) => c == OPEN_OBJECT
  {
  }

  lemma SameKind(a: Json, b: Json, x: Text, y: Text)
    requires WellFormed(a) && WellFormed(b) && Print(a) + x == Print(b) + y
    ensures a.Null? == b.Null? && a.Bool? == b.Bool? && a.Num? == b.Num?
    ensures a.Str? == b.Str? && a.Arr? == b.Arr? && a.Obj? == b.Obj?
    ensures a.Bool? ==> a == b
  {
    PrintStart(a);
    PrintStart(b);
    assert (Print(a) + x)[0] == Print(a)[0] && (Print(b) + y)[0] == Print(b)[0];
  }

  lemma Unbracket(open: CodeUnit, p: Text, q: Text, close: CodeUnit, x: Text, y: Text)
    requires [open] + p + [close] + x == [open] + q + [close] + y
    ensures p + ([close] + x) == q + ([close] + y)
  {
    assert [open] + p + [close] + x == [open] + (p + ([close] + x));
    assert [open] + q + [close] + y == [open] + (q + ([close] + y));
    Cancel([open], p + ([close] + x), q + ([close] + y));
  }

  /** A printed value ends at one place and determines the value. */
  lemma {:induction false} PrintUnambiguous(a: Json, b: Json, x: Text, y: Text)
    requires WellFormed(a) && WellFormed(b) && Delimited(x) && Delimited(y)
    requires Print(a) + x == Print(b) + y
    ensures a == b && x == y
    decreases a, 0
  {
    SameKind(a, b, x, y);
    match a {
      case Null => Cancel(NULL_TEXT, x, y);
      case Bool(truth) => Cancel(Print(a), x, y);
      case Num(literal) => NumberUnambiguous(literal, b.literal, x, y);
      case Str(text) => QuotedUnambiguous(text, b.text, x, y);
      case Arr(items) =>
        Unbracket(OPEN_ARRAY, PrintItems(items), PrintItems(b.items), CLOSE_ARRAY, x, y);
        ItemsUnambiguous(items, b.items, [CLOSE_ARRAY] + x, [CLOSE_ARRAY] + y);
        Cancel([CLOSE_ARRAY], x, y);
      case Obj(members) =>
        Unbracket(OPEN_OBJECT, PrintMembers(members), PrintMembers(b.members), CLOSE_OBJECT, x, y);
        MembersUnambiguous(members, b.members, [CLOSE_OBJECT] + x, [CLOSE_OBJECT] + y);
        Cancel([CLOSE_OBJECT], x, y);
    }
  }

  /** Splits a printed list into its first element and what follows it. */
  lemma ItemsSplit(items: seq<Json>, x: Text) returns (rest: Text)
    requires WellFormedItems(items) && x != [] && x[0] == CLOSE_ARRAY
    ensures (PrintItems(items) + x)[0] == CLOSE_ARRAY <==> items == []
    ensures items == [] ==> PrintItems(items) + x == x
    ensures items != [] ==> Delimited(rest) && PrintItems(items) + x == Print(items[0]) + rest
    ensures items != [] ==> rest == if |items| == 1 then x else [COMMA] + (PrintItems(items[1..]) + x)
  {
    if items == [] {
      rest := [];
    } else {
      rest := if |items| == 1 then x else [COMMA] + (PrintItems(items[1..]) + x);
      assert |items| > 1 ==> Print(items[0]) + [COMMA] + PrintItems(items[1..]) + x == Print(items[0]) + rest;
      PrintStart(items[0]);
      assert (PrintItems(items) + x)[0] == Print(items[0])[0];
    }
  }

  lemma {:induction false} ItemsUnambiguous(a: seq<Json>, b: seq<Json>, x: Text, y: Text)
    requires WellFormedItems(a) && WellFormedItems(b)
    requires x != [] && x[0] == CLOSE_ARRAY && y != [] && y[0] == CLOSE_ARRAY
    requires PrintItems(a) + x == PrintItems(b) + y
    ensures a == b && x == y
    decreases a, 1
  {
    var r := ItemsSplit(a, x);
    var s := ItemsSplit(b, y);
    if a != [] {
      PrintUnambiguous(a[0], b[0], r, s);
      assert a == [a[0]] + a[1..] && b == [b[0]] + b[1..];
      assert |a| == 1 <==> |b| == 1;
      if |a| > 1 {
        Cancel([COMMA], PrintItems(a[1..]) + x, PrintItems(b[1..]) + y);
        ItemsUnambiguous(a[1..], b[1..], x, y);
      }
    }
  }

  lemma AndThen(a: Text, b: Text, c: Text, d: Text)
    ensures a + b + c + d == a + (b + (c + d))
  {
  }

  lemma MemberThen(member: Member, rest: Text)
    ensures PrintMember(member) + rest == Quoted(member.key) + ([COLON] + (Print(member.value) + rest))
    ensures (PrintMember(member) + rest)[0] == QUOTE
  {
    AndThen(Quoted(member.key), [COLON], Print(member.value), rest);
  }

  lemma MembersSplit(members: seq<Member>, x: Text) returns (rest: Text)
    requires x != [] && x[0] == CLOSE_OBJECT
    ensures (PrintMembers(members) + x)[0] == CLOSE_OBJECT <==> members == []
    ensures members == [] ==> PrintMembers(members) + x == x
    ensures members != [] ==> Delimited(rest)
    ensures members != [] ==>
      PrintMembers(members) + x == Quoted(members[0].key) + ([COLON] + (Print(members[0].value) + rest))
    ensures members != [] ==> rest == if |members| == 1 then x else [COMMA] + (PrintMembers(members[1..]) + x)
  {
    if members == [] {
      rest := [];
    } else {
      rest := if |members| == 1 then x else [COMMA] + (PrintMembers(members[1..]) + x);
      MemberThen(members[0], rest);
      if |members| > 1 {
        AndThen(PrintMember(members[0]), [COMMA], PrintMembers(members[1..]), x);
      }
      assert PrintMembers(members) + x == PrintMember(members[0]) + rest;
    }
  }

  lemma {:induction false} MembersUnambiguous(a: seq<Member>, b: seq<Member>, x: Text, y: Text)
    requires WellFormedMembers(a) && WellFormedMembers(b)
    requires x != [] && x[0] == CLOSE_OBJECT && y != [] && y[0] == CLOSE_OBJECT
    requires PrintMembers(a) + x == PrintMembers(b) + y
    ensures a == b && x == y
    decreases a, 1
  {
    var r := MembersSplit(a, x);
    var s := MembersSplit(b, y);
    if a != [] {
      var v, w := [COLON] + (Print(a[0].value) + r), [COLON] + (Print(b[0].value) + s);
      QuotedUnambiguous(a[0].key, b[0].key, v, w);
      Cancel([COLON], Print(a[0].value) + r, Print(b[0].value) + s);
      PrintUnambiguous(a[0].value, b[0].value, r, s);
      assert a == [a[0]] + a[1..] && b == [b[0]] + b[1..];
      assert |a| == 1 <==> |b| == 1;
      if |a| > 1 {
        Cancel([COMMA], PrintMembers(a[1..]) + x, PrintMembers(b[1..]) + y);
        MembersUnambiguous(a[1..], b[1..], x, y);
      }
    }
  }

  // ---------------------------------------------------------------- sorting keeps the meaning

  lemma {:induction false} KeysOf(members: seq<Member>)
    ensures |Keys(members)| == |members|
    ensures forall i :: 0 <= i < |members| ==> Keys(members)[i] == members[i].key
  {
    if members != [] {
      KeysOf(members[1..]);
    }
  }

  const KeyOf: Member -> Text := (m: Member) => m.key

  ghost predicate DistinctKeys(members: seq<Member>) {
    Lists.DistinctBy(KeyOf, members)
  }

  lemma {:induction false} WellFormedMembersMeans(members: seq<Member>)
    ensures WellFormedMembers(members) <==>
      DistinctKeys(members) && forall m :: m in members ==> WellFormed(m.value)
  {
    if members != [] {
      WellFormedMembersMeans(members[1..]);
      KeysOf(members[1..]);
      assert members == [members[0]] + members[1..];
      assert members[0].key !in Keys(members[1..]) <==>
        forall j :: 1 <= j < |members| ==> members[0].key != members[j].key by {
        assert forall j :: 1 <= j < |members| ==> Keys(members[1..])[j - 1] == members[j].key;
      }
    }
  }

  lemma {:induction false} KeysDenoted(members: seq<Member>)
    ensures forall k :: k in DenoteMembers(members) ==> exists m :: m in members && m.key == k
  {
    if members != [] {
      var first, rest := members[0], members[1..];
      assert first in members && forall m :: m in rest ==> m in members;
      KeysDenoted(rest);
      forall k | k in DenoteMembers(members)
        ensures exists m :: m in members && m.key == k
      {
        if k != first.key {
          assert k in DenoteMembers(rest);
          var m :| m in rest && m.key == k;
        }
      }
    }
  }

  lemma {:induction false} MemberDenoted(members: seq<Member>, i: nat)
    requires DistinctKeys(members) && i < |members|
    ensures members[i].key in DenoteMembers(members)
    ensures DenoteMembers(members)[members[i].key] == Denote(members[i].value)
  {
    if i > 0 {
      assert DistinctKeys(members[1..]);
      MemberDenoted(members[1..], i - 1);
      assert KeyOf(members[0]) != KeyOf(members[i]);
    }
  }

  lemma DenoteMembersMeans(members: seq<Member>)
    requires DistinctKeys(members)
    ensures forall m :: m in members ==>
      m.key in DenoteMembers(members) && DenoteMembers(members)[m.key] == Denote(m.value)
    ensures forall k :: k in DenoteMembers(members) ==> exists m :: m in members && m.key == k
  {
    KeysDenoted(members);
    forall m | m in members
      ensures m.key in DenoteMembers(members) && DenoteMembers(members)[m.key] == Denote(m.value)
    {
      var i :| 0 <= i < |members| && members[i] == m;
      MemberDenoted(members, i);
    }
  }

  lemma SameMembersSameMeaning(a: seq<Member>, b: seq<Member>)
    requires DistinctKeys(a) && multiset(a) == multiset(b)
    ensures DistinctKeys(b) && DenoteMembers(a) == DenoteMembers(b)
  {
    Lists.SameElements(a, b);
    Lists.DistinctByPermuted(KeyOf, a, b);
    DenoteMembersMeans(a);
    DenoteMembersMeans(b);
    var m, n := DenoteMembers(a), DenoteMembers(b);
    forall k
      ensures k in m <==> k in n
      ensures k in m ==> m[k] == n[k]
    {
    }
  }

  lemma {:induction false} NormalMembersAre(leq: Order, members: seq<Member>)
    ensures |NormalMembers(leq, members)| == |members|
    ensures forall i :: 0 <= i < |members| ==>
      NormalMembers(leq, members)[i] == Member(members[i].key, Normal(leq, members[i].value))
  {
    if members != [] {
      NormalMembersAre(leq, members[1..]);
    }
  }

  /** Sorting members keeps a value well formed and keeps its meaning, whatever the collation does. */
  lemma {:induction false} NormalKeepsMeaning(leq: Order, j: Json)
    requires WellFormed(j)
    ensures WellFormed(Normal(leq, j)) && Denote(Normal(leq, j)) == Denote(j)
    decreases j, 0
  {
    match j {
      case Arr(items) => NormalItemsKeepMeaning(leq, items);
      case Obj(members) =>
        var normal := NormalMembers(leq, members);
        NormalMembersKeepMeaning(leq, members);
        Sorting.SortElements(MemberOrder(leq), normal);
        var sorted := Sorting.Sort(MemberOrder(leq), normal);
        WellFormedMembersMeans(normal);
        SameMembersSameMeaning(normal, sorted);
        WellFormedMembersMeans(sorted);
      case _ =>
    }
  }

  lemma {:induction false} NormalItemsKeepMeaning(leq: Order, items: seq<Json>)
    requires WellFormedItems(items)
    ensures WellFormedItems(NormalItems(leq, items))
    ensures DenoteItems(NormalItems(leq, items)) == DenoteItems(items)
    decreases items, 1
  {
    if items != [] {
      NormalKeepsMeaning(leq, items[0]);
      NormalItemsKeepMeaning(leq, items[1..]);
      assert NormalItems(leq, items)[1..] == NormalItems(leq, items[1..]);
    }
  }

  lemma {:induction false} NormalMembersKeepMeaning(leq: Order, members: seq<Member>)
    requires WellFormedMembers(members)
    ensures WellFormedMembers(NormalMembers(leq, members))
    ensures DenoteMembers(NormalMembers(leq, members)) == DenoteMembers(members)
    ensures Keys(NormalMembers(leq, members)) == Keys(members)
    decreases members, 1
  {
    if members != [] {
      NormalKeepsMeaning(leq, members[0].value);
      NormalMembersKeepMeaning(leq, members[1..]);
      assert NormalMembers(leq, members)[1..] == NormalMembers(leq, members[1..]);
    }
  }

  /** Equal texts have equal meanings, whatever the collation. */
  lemma CanonicalTextDetermines(leq: Order, a: Json, b: Json)
    requires WellFormed(a) && WellFormed(b)
    requires Canonical(leq, a) == Canonical(leq, b)
    ensures Denote(a) == Denote(b)
  {
    NormalKeepsMeaning(leq, a);
    NormalKeepsMeaning(leq, b);
    var x, y := Normal(leq, a), Normal(leq, b);
    assert Print(x) + [] == Print(x) && Print(y) + [] == Print(y);
    PrintUnambiguous(x, y, [], []);
  }

  // ---------------------------------------------------------------- one normal form per meaning

  lemma {:induction false} NormalUnique(leq: Order, a: Json, b: Json)
    requires TotalOrder(leq) && WellFormed(a) && WellFormed(b)
    requires Denote(a) == Denote(b)
    ensures Normal(leq, a) == Normal(leq, b)
    decreases a, 0
  {
    match a {
      case Arr(items) => NormalItemsUnique(leq, items, b.items);
      case Obj(members) =>
        var x, y := members, b.members;
        WellFormedMembersMeans(x);
        WellFormedMembersMeans(y);
        forall i, k | 0 <= i < |x| && 0 <= k < |y| && x[i].key == y[k].key
          ensures Normal(leq, x[i].value) == Normal(leq, y[k].value)
        {
          DenoteMembersMeans(x);
          DenoteMembersMeans(y);
          assert x[i] in x && y[k] in y;
          NormalUnique(leq, x[i].value, y[k].value);
        }
        MembersUnique(leq, x, y);
      case _ =>
    }
  }

  lemma {:induction false} NormalItemsUnique(leq: Order, a: seq<Json>, b: seq<Json>)
    requires TotalOrder(leq) && WellFormedItems(a) && WellFormedItems(b)
    requires DenoteItems(a) == DenoteItems(b)
    ensures NormalItems(leq, a) == NormalItems(leq, b)
    decreases a, 1
  {
    if a != [] && b != [] {
      assert DenoteItems(a)[0] == Denote(a[0]) && DenoteItems(b)[0] == Denote(b[0]);
      assert DenoteItems(a)[1..] == DenoteItems(a[1..]) && DenoteItems(b)[1..] == DenoteItems(b[1..]);
      NormalUnique(leq, a[0], b[0]);
      NormalItemsUnique(leq, a[1..], b[1..]);
    }
  }

  lemma MembersUnique(leq: Order, x: seq<Member>, y: seq<Member>)
    requires TotalOrder(leq) && DistinctKeys(x) && DistinctKeys(y)
    requires DenoteMembers(x) == DenoteMembers(y)
    requires forall i, k :: 0 <= i < |x| && 0 <= k < |y| && x[i].key == y[k].key ==>
      Normal(leq, x[i].value) == Normal(leq, y[k].value)
    ensures Sorting.Sort(MemberOrder(leq), NormalMembers(leq, x)) ==
      Sorting.Sort(MemberOrder(leq), NormalMembers(leq, y))
  {
    var m, n := NormalMembers(leq, x), NormalMembers(leq, y);
    NormalMembersAre(leq, x);
    NormalMembersAre(leq, y);
    NormalMembersWithin(leq, x, y);
    NormalMembersWithin(leq, y, x);
    Lists.SameSetPermuted(KeyOf, m, n);
    assert Sorting.Separates(MemberOrder(leq), m) by {
      Lists.DistinctByMeans(KeyOf, m);
    }
    Sorting.SortIffSameElements(MemberOrder(leq), m, n);
  }

  lemma NormalMembersWithin(leq: Order, x: seq<Member>, y: seq<Member>)
    requires DistinctKeys(x) && DistinctKeys(y) && DenoteMembers(x) == DenoteMembers(y)
    requires forall i, k :: 0 <= i < |x| && 0 <= k < |y| && x[i].key == y[k].key ==>
      Normal(leq, x[i].value) == Normal(leq, y[k].value)
    ensures forall m :: m in NormalMembers(leq, x) ==> m in NormalMembers(leq, y)
  {
    NormalMembersAre(leq, x);
    NormalMembersAre(leq, y);
    DenoteMembersMeans(x);
    DenoteMembersMeans(y);
    forall m | m in NormalMembers(leq, x)
      ensures m in NormalMembers(leq, y)
    {
      var i :| 0 <= i < |x| && NormalMembers(leq, x)[i] == m;
      assert x[i] in x;
      var other :| other in y && other.key == x[i].key;
      var k :| 0 <= k < |y| && y[k] == other;
      assert m == NormalMembers(leq, y)[k];
    }
  }

  /** The comparison of canonical texts, for a collation that never ties two different keys: equal
      exactly when the values are equal up to the order of keys at every depth. */
  lemma CanonicalTextIffSameMeaning(leq: Order, a: Json, b: Json)
    requires TotalOrder(leq) && WellFormed(a) && WellFormed(b)
    ensures Canonical(leq, a) == Canonical(leq, b) <==> Denote(a) == Denote(b)
  {
    if Canonical(leq, a) == Canonical(leq, b) {
      CanonicalTextDetermines(leq, a, b);
    }
    if Denote(a) == Denote(b) {
      NormalUnique(leq, a, b);
    }
  }

  ghost predicate IgnoresKeyOrder(leq: Order) {
    forall a, b :: WellFormed(a) && WellFormed(b) && Denote(a) == Denote(b) ==> Canonical(leq, a) == Canonical(leq, b)
  }

  function TwoKeys(first: Text, second: Text): Json {
    Obj([Member(first, Null), Member(second, Null)])
  }

  lemma TwoKeysSame(k: Text, l: Text)
    requires k != l
    ensures WellFormed(TwoKeys(k, l)) && WellFormed(TwoKeys(l, k))
    ensures Denote(TwoKeys(k, l)) == Denote(TwoKeys(l, k))
  {
    var m, n := Member(k, Null), Member(l, Null);
    WellFormedMembersMeans([m, n]);
    WellFormedMembersMeans([n, m]);
    assert multiset([m, n]) == multiset([n, m]);
    SameMembersSameMeaning([m, n], [n, m]);
  }

  lemma CanonicalApart(leq: Order, a: Json, b: Json)
    requires WellFormed(a) && WellFormed(b) && Normal(leq, a) != Normal(leq, b)
    ensures Canonical(leq, a) != Canonical(leq, b)
  {
    var x, y := Normal(leq, a), Normal(leq, b);
    NormalKeepsMeaning(leq, a);
    NormalKeepsMeaning(leq, b);
    if Print(x) == Print(y) {
      assert Print(x) + [] == Print(x) && Print(y) + [] == Print(y);
      PrintUnambiguous(x, y, [], []);
    }
  }

  /** A collation that ties two different keys leaves their order in the text. */
  lemma TiedKeysShow(leq: Order, k: Text, l: Text)
    requires k != l && leq(k, l) && leq(l, k)
    ensures WellFormed(TwoKeys(k, l)) && WellFormed(TwoKeys(l, k))
    ensures Denote(TwoKeys(k, l)) == Denote(TwoKeys(l, k))
    ensures Canonical(leq, TwoKeys(k, l)) != Canonical(leq, TwoKeys(l, k))
  {
    var m, n := Member(k, Null), Member(l, Null);
    TwoKeysSame(k, l);
    TiedPairStays(leq, m, n);
    TiedPairStays(leq, n, m);
    CanonicalApart(leq, TwoKeys(k, l), TwoKeys(l, k));
  }

  lemma TiedPairStays(leq: Order, m: Member, n: Member)
    requires leq(m.key, n.key) && m.value == Null && n.value == Null
    ensures Normal(leq, Obj([m, n])) == Obj([m, n])
  {
    assert [m, n][1..] == [n] && [n][1..] == [];
    assert NormalMembers(leq, [n]) == [n];
    assert NormalMembers(leq, [m, n]) == [m, n];
    var le := MemberOrder(leq);
    assert Sorting.Sort(le, [n]) == [n];
    assert Sorting.Sort(le, [m, n]) == Sorting.Insert(le, m, [n]) == [m, n];
  }

  /** So the text ignores key order exactly for collations that separate different keys. */
  lemma IgnoresKeyOrderIffSeparating(leq: Order)
    requires Preorder(leq)
    ensures IgnoresKeyOrder(leq) <==> TotalOrder(leq)
  {
    if TotalOrder(leq) {
      forall a, b | WellFormed(a) && WellFormed(b) && Denote(a) == Denote(b)
        ensures Canonical(leq, a) == Canonical(leq, b)
      {
        NormalUnique(leq, a, b);
      }
    } else {
      var k, l :| leq(k, l) && leq(l, k) && k != l;
      TiedKeysShow(leq, k, l);
    }
  }
}
