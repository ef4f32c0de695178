/**
 stableStringify and the request fingerprint. Text is a sequence of UTF-16 code units, as in the
 program, so that string escaping and the order of keys are the program's own.
 */
module CanonicalJson {
  import opened Money

  type Text = seq<int>

  /** A number is kept as the text it prints to; one too large for a double is TooLarge. */
  datatype Json =
    | Null | TooLarge | Bool(b: bool) | Num(literal: Text) | Str(text: Text)
    | Arr(items: Items) | Obj(fields: Fields)

  datatype Items = NoItems | Item(head: Json, tail: Items)

  datatype Fields = NoFields | Field(key: Text, value: Json, next: Fields)

  const QUOTE := 0x22
  const BACKSLASH := 0x5C
  const COMMA := 0x2C
  const COLON := 0x3A
  const LBRACKET := 0x5B
  const RBRACKET := 0x5D
  const LBRACE := 0x7B
  const RBRACE := 0x7D

  const NULL: Text := [0x6E, 0x75, 0x6C, 0x6C]
  const TRUE: Text := [0x74, 0x72, 0x75, 0x65]
  const FALSE: Text := [0x66, 0x61, 0x6C, 0x73, 0x65]

  // --------------------------------------------------------------------------
  // Strings
  // --------------------------------------------------------------------------

  predicate IsHigh(u: int) {
    0xD800 <= u < 0xDC00
  }

  predicate IsLow(u: int) {
    0xDC00 <= u < 0xE000
  }

  /** A surrogate that is not half of a pair. */
  predicate IsLone(t: Text, i: int)
    requires 0 <= i < |t|
  {
    || (IsHigh(t[i]) && !(i + 1 < |t| && IsLow(t[i + 1])))
    || (IsLow(t[i]) && !(0 < i && IsHigh(t[i - 1])))
  }

  function Hex(d: int): int {
    if d < 10 then 0x30 + d else 0x57 + d
  }

  function UnHex(c: int): int {
    if c < 0x3A then c - 0x30 else c - 0x57
  }

  /** The letter of a two-character escape. */
  function ShortEscape(u: int): Option<int> {
    if u == QUOTE || u == BACKSLASH then Some(u)
    else if u == 0x08 then Some(0x62)
    else if u == 0x0C then Some(0x66)
    else if u == 0x0A then Some(0x6E)
    else if u == 0x0D then Some(0x72)
    else if u == 0x09 then Some(0x74)
    else None
  }

  function UnShort(c: int): int {
    if c == 0x62 then 0x08
    else if c == 0x66 then 0x0C
    else if c == 0x6E then 0x0A
    else if c == 0x72 then 0x0D
    else if c == 0x74 then 0x09
    else c
  }

  function EscapeUnit(t: Text, i: int): Text
    requires 0 <= i < |t|
  {
    var u := t[i];
    match ShortEscape(u)
    case Some(letter) => [BACKSLASH, letter]
    case None =>
      if u < 0x20 || IsLone(t, i)
      then [BACKSLASH, 0x75, Hex(u / 16 / 16 / 16), Hex(u / 16 / 16 % 16), Hex(u / 16 % 16), Hex(u % 16)]
      else [u]
  }

  /** JSON.stringify of a string, from unit i up to and including the closing quote. */
  function EscapeFrom(t: Text, i: int): Text
    requires 0 <= i <= |t|
    decreases |t| - i
  {
    if i == |t| then [QUOTE] else EscapeUnit(t, i) + EscapeFrom(t, i + 1)
  }

  function Quoted(t: Text): Text {
    [QUOTE] + EscapeFrom(t, 0)
  }

  predicate IsText(t: Text) {
    forall i :: 0 <= i < |t| ==> 0 <= t[i] < 0x10000
  }

  // --------------------------------------------------------------------------
  // The order of keys
  // --------------------------------------------------------------------------

  /** Array.prototype.sort on strings: by code unit, a prefix first. */
  predicate Less(a: Text, b: Text) {
    b != [] && (a == [] || a[0] < b[0] || (a[0] == b[0] && Less(a[1..], b[1..])))
  }

  lemma {:induction false} LessIsTotal(a: Text, b: Text)
    ensures Less(a, b) || a == b || Less(b, a)
    ensures !(Less(a, b) && Less(b, a)) && !Less(a, a)
  {
    if a != [] && b != [] && a[0] == b[0] {
      LessIsTotal(a[1..], b[1..]);
      assert a == [a[0]] + a[1..] && b == [b[0]] + b[1..];
    }
    if a != [] {
      LessIsTotal(a[1..], a[1..]);
    }
  }

  lemma {:induction false} LessIsTransitive(a: Text, b: Text, c: Text)
    requires Less(a, b) && Less(b, c)
    ensures Less(a, c)
  {
    if a != [] && a[0] == b[0] && b[0] == c[0] {
      LessIsTransitive(a[1..], b[1..], c[1..]);
    }
  }

  // --------------------------------------------------------------------------
  // stableStringify
  // --------------------------------------------------------------------------

  /** The printed fields of an object, each under its key. */
  datatype Parts = NoParts | Part(key: Text, text: Text, rest: Parts)

  function Stringify(v: Json): Text {
    match v
    case Null => NULL
    case TooLarge => NULL
    case Bool(b) => if b then TRUE else FALSE
    case Num(literal) => literal
    case Str(text) => Quoted(text)
    case Arr(items) => [LBRACKET] + StringifyItems(items) + [RBRACKET]
    case Obj(fields) => [LBRACE] + JoinParts(SortParts(StringifyFields(fields))) + [RBRACE]
  }

  function StringifyItems(items: Items): Text {
    match items
    case NoItems => []
    case Item(head, NoItems) => Stringify(head)
    case Item(head, tail) => Stringify(head) + [COMMA] + StringifyItems(tail)
  }

  function StringifyFields(fields: Fields): Parts {
    match fields
    case NoFields => NoParts
    case Field(key, value, next) => Part(key, Quoted(key) + [COLON] + Stringify(value), StringifyFields(next))
  }

  function InsertPart(key: Text, text: Text, parts: Parts): Parts {
    match parts
    case NoParts => Part(key, text, NoParts)
    case Part(k, t, rest) =>
      if Less(key, k) then Part(key, text, parts) else Part(k, t, InsertPart(key, text, rest))
  }

  function SortParts(parts: Parts): Parts {
    match parts case NoParts => NoParts case Part(key, text, rest) => InsertPart(key, text, SortParts(rest))
  }

  function JoinParts(parts: Parts): Text {
    match parts
    case NoParts => []
    case Part(_, text, NoParts) => text
    case Part(_, text, rest) => text + [COMMA] + JoinParts(rest)
  }

  // --------------------------------------------------------------------------
  // Values
  // --------------------------------------------------------------------------

  predicate IsNumberChar(c: int) {
    0x30 <= c <= 0x39 || c in {0x2B, 0x2D, 0x2E, 0x45, 0x65}
  }

  predicate IsLiteral(t: Text) {
    t != [] && (0x30 <= t[0] <= 0x39 || t[0] == 0x2D) && forall i :: 0 <= i < |t| ==> IsNumberChar(t[i])
  }

  function Get(fields: Fields, key: Text): Option<Json> {
    match fields
    case NoFields => None
    case Field(k, v, next) => if k == key then Some(v) else Get(next, key)
  }

  /** What a parsed body is: object keys are distinct. `large` says whether TooLarge may occur. */
  predicate WellFormed(v: Json, large: bool) {
    match v
    case Null => true
    case TooLarge => large
    case Bool(_) => true
    case Num(literal) => IsLiteral(literal)
    case Str(text) => IsText(text)
    case Arr(items) => WellFormedItems(items, large)
    case Obj(fields) => WellFormedFields(fields, large)
  }

  predicate WellFormedItems(items: Items, large: bool) {
    match items case NoItems => true case Item(head, tail) => WellFormed(head, large) && WellFormedItems(tail, large)
  }

  predicate WellFormedFields(fields: Fields, large: bool) {
    match fields
    case NoFields => true
    case Field(key, value, next) =>
      IsText(key) && WellFormed(value, large) && Get(next, key) == None && WellFormedFields(next, large)
  }

  /** The same tree, with the fields of every object in key order. */
  function Canon(v: Json): Json {
    match v
    case TooLarge => Null
    case Arr(items) => Arr(CanonItems(items))
    case Obj(fields) => Obj(CanonFields(fields))
    case _ => v
  }

  function CanonItems(items: Items): Items {
    match items case NoItems => NoItems case Item(head, tail) => Item(Canon(head), CanonItems(tail))
  }

  function CanonFields(fields: Fields): Fields {
    match fields
    case NoFields => NoFields
    case Field(key, value, next) => Insert(key, Canon(value), CanonFields(next))
  }

  function Insert(key: Text, value: Json, fields: Fields): Fields {
    match fields
    case NoFields => Field(key, value, NoFields)
    case Field(k, v, next) =>
      if Less(key, k) then Field(key, value, fields) else Field(k, v, Insert(key, value, next))
  }

  predicate IsNull(v: Json) {
    v == Null || v == TooLarge
  }

  /** The same tree up to the order of object fields: each object's fields are all found in the other. */
  predicate SameTree(a: Json, b: Json)
    decreases a
  {
    match a
    case Null => IsNull(b)
    case TooLarge => IsNull(b)
    case Bool(_) => a == b
    case Num(_) => a == b
    case Str(_) => a == b
    case Arr(items) => b.Arr? && SameItems(items, b.items)
    case Obj(fields) => b.Obj? && Includes(fields, b.fields) && NoOtherKeys(fields, b.fields)
  }

  predicate SameItems(a: Items, b: Items)
    decreases a
  {
    match a
    case NoItems => b == NoItems
    case Item(head, tail) => b.Item? && SameTree(head, b.head) && SameItems(tail, b.tail)
  }

  predicate Includes(a: Fields, b: Fields)
    decreases a
  {
    match a
    case NoFields => true
    case Field(key, value, next) =>
      Get(b, key).Some? && SameTree(value, Get(b, key).value) && Includes(next, b)
  }

  predicate NoOtherKeys(a: Fields, b: Fields) {
    match b case NoFields => true case Field(key, _, next) => Get(a, key).Some? && NoOtherKeys(a, next)
  }

  // --------------------------------------------------------------------------
  // Sorting fields
  // --------------------------------------------------------------------------

  predicate Ordered(fields: Fields) {
    match fields
    case NoFields => true
    case Field(key, _, next) => (next.Field? ==> Less(key, next.key)) && Ordered(next)
  }

  lemma {:induction false} InsertGets(key: Text, value: Json, fields: Fields, k: Text)
    requires Get(fields, key) == None
    ensures Get(Insert(key, value, fields), k) == if k == key then Some(value) else Get(fields, k)
  {
    if fields.Field? {
      InsertGets(key, value, fields.next, k);
    }
  }

  lemma {:induction false} InsertKeepsOrder(key: Text, value: Json, fields: Fields)
    requires Ordered(fields) && Get(fields, key) == None
    ensures Ordered(Insert(key, value, fields))
    ensures var r := Insert(key, value, fields); r.key == key || (fields.Field? && r.key == fields.key)
  {
    if fields.Field? {
      LessIsTotal(key, fields.key);
      InsertKeepsOrder(key, value, fields.next);
    }
  }

  function CanonOption(o: Option<Json>): Option<Json> {
    match o case None => None case Some(v) => Some(Canon(v))
  }

  lemma {:induction false} CanonGets(fields: Fields, k: Text, large: bool)
    requires WellFormedFields(fields, large)
    ensures Get(CanonFields(fields), k) == CanonOption(Get(fields, k))
  {
    if fields.Field? {
      CanonGets(fields.next, k, large);
      CanonGets(fields.next, fields.key, large);
      InsertGets(fields.key, Canon(fields.value), CanonFields(fields.next), k);
    }
  }

  lemma {:induction false} CanonIsOrdered(fields: Fields, large: bool)
    requires WellFormedFields(fields, large)
    ensures Ordered(CanonFields(fields))
  {
    if fields.Field? {
      CanonIsOrdered(fields.next, large);
      CanonGets(fields.next, fields.key, large);
      InsertKeepsOrder(fields.key, Canon(fields.value), CanonFields(fields.next));
    }
  }

  lemma {:induction false} NothingBeforeTheFirst(fields: Fields, k: Text)
    requires Ordered(fields) && fields.Field? && Less(k, fields.key)
    ensures Get(fields, k) == None
  {
    LessIsTotal(k, fields.key);
    if fields.next.Field? {
      LessIsTransitive(k, fields.key, fields.next.key);
      NothingBeforeTheFirst(fields.next, k);
    }
  }

  ghost predicate SameGets(a: Fields, b: Fields) {
    forall k :: Get(a, k) == Get(b, k)
  }

  /** Two key-ordered field lists that answer every lookup alike are the same list. */
  lemma {:induction false} OrderedFieldsAreTheirLookups(a: Fields, b: Fields)
    requires Ordered(a) && Ordered(b) && SameGets(a, b)
    ensures a == b
  {
    if a == NoFields {
      assert b.Field? ==> Get(a, b.key) == Get(b, b.key);
    } else {
      assert Get(a, a.key) == Get(b, a.key);
      if Less(a.key, b.key) {
        NothingBeforeTheFirst(b, a.key);
      }
      assert Get(a, b.key) == Get(b, b.key);
      if Less(b.key, a.key) {
        NothingBeforeTheFirst(a, b.key);
      }
      LessIsTotal(a.key, b.key);
      forall k ensures Get(a.next, k) == Get(b.next, k) {
        assert Get(a, k) == Get(b, k);
        if k == a.key {
          NotInTheRest(a);
          NotInTheRest(b);
        }
      }
      OrderedFieldsAreTheirLookups(a.next, b.next);
    }
  }

  lemma NotInTheRest(fields: Fields)
    requires Ordered(fields) && fields.Field?
    ensures Get(fields.next, fields.key) == None
  {
    if fields.next.Field? {
      NothingBeforeTheFirst(fields.next, fields.key);
    }
  }

  // --------------------------------------------------------------------------
  // Printing in key order is printing the canonical tree
  // --------------------------------------------------------------------------

  /** Printing without sorting. */
  function Raw(v: Json): Text {
    match v
    case Null => NULL
    case TooLarge => NULL
    case Bool(b) => if b then TRUE else FALSE
    case Num(literal) => literal
    case Str(text) => Quoted(text)
    case Arr(items) => [LBRACKET] + RawItems(items) + [RBRACKET]
    case Obj(fields) => [LBRACE] + RawFields(fields) + [RBRACE]
  }

  function RawItems(items: Items): Text {
    match items
    case NoItems => []
    case Item(head, NoItems) => Raw(head)
    case Item(head, tail) => Raw(head) + [COMMA] + RawItems(tail)
  }

  function RawField(key: Text, printed: Text): Text {
    Quoted(key) + [COLON] + printed
  }

  function RawFields(fields: Fields): Text {
    match fields
    case NoFields => []
    case Field(key, value, NoFields) => RawField(key, Raw(value))
    case Field(key, value, next) => RawField(key, Raw(value)) + [COMMA] + RawFields(next)
  }

  function RawParts(fields: Fields): Parts {
    match fields
    case NoFields => NoParts
    case Field(key, value, next) => Part(key, RawField(key, Raw(value)), RawParts(next))
  }

  lemma {:induction false} JoiningRawParts(fields: Fields)
    ensures JoinParts(RawParts(fields)) == RawFields(fields)
  {
    if fields.Field? {
      JoiningRawParts(fields.next);
    }
  }

  lemma {:induction false} InsertingRawParts(key: Text, value: Json, fields: Fields)
    ensures InsertPart(key, RawField(key, Raw(value)), RawParts(fields)) == RawParts(Insert(key, value, fields))
  {
    if fields.Field? {
      InsertingRawParts(key, value, fields.next);
    }
  }

  lemma {:induction false} StringifyIsRawCanon(v: Json)
    ensures Stringify(v) == Raw(Canon(v))
  {
    match v
    case Arr(items) => StringifyItemsIsRaw(items);
    case Obj(fields) =>
      SortedPartsAreRaw(fields);
      JoiningRawParts(CanonFields(fields));
    case _ =>
  }

  lemma {:induction false} StringifyItemsIsRaw(items: Items)
    ensures StringifyItems(items) == RawItems(CanonItems(items))
  {
    if items.Item? {
      StringifyIsRawCanon(items.head);
      StringifyItemsIsRaw(items.tail);
    }
  }

  lemma {:induction false} SortedPartsAreRaw(fields: Fields)
    ensures SortParts(StringifyFields(fields)) == RawParts(CanonFields(fields))
  {
    if fields.Field? {
      StringifyIsRawCanon(fields.value);
      SortedPartsAreRaw(fields.next);
      InsertingRawParts(fields.key, Canon(fields.value), CanonFields(fields.next));
    }
  }

  // --------------------------------------------------------------------------
  // Same tree, same canonical tree
  // --------------------------------------------------------------------------

  lemma {:induction false} SameTreeIffSameCanon(a: Json, b: Json)
    requires WellFormed(a, true) && WellFormed(b, true)
    ensures SameTree(a, b) <==> Canon(a) == Canon(b)
    decreases a
  {
    match a
    case Arr(items) => if b.Arr? { SameItemsIffSameCanon(items, b.items); }
    case Obj(fields) => if b.Obj? { SameFieldsIffSameCanon(fields, b.fields); }
    case _ =>
  }

  lemma {:induction false} SameItemsIffSameCanon(a: Items, b: Items)
    requires WellFormedItems(a, true) && WellFormedItems(b, true)
    ensures SameItems(a, b) <==> CanonItems(a) == CanonItems(b)
    decreases a
  {
    if a.Item? && b.Item? {
      SameTreeIffSameCanon(a.head, b.head);
      SameItemsIffSameCanon(a.tail, b.tail);
    }
  }

  ghost predicate IncludesCanon(a: Fields, b: Fields) {
    forall k :: Get(a, k).Some? ==> CanonOption(Get(a, k)) == CanonOption(Get(b, k))
  }

  ghost predicate KeysAmong(a: Fields, b: Fields) {
    forall k :: Get(b, k).Some? ==> Get(a, k).Some?
  }

  lemma {:induction false} GotIsWellFormed(fields: Fields, k: Text)
    requires WellFormedFields(fields, true) && Get(fields, k).Some?
    ensures WellFormed(Get(fields, k).value, true)
  {
    if fields.key != k {
      GotIsWellFormed(fields.next, k);
    }
  }

  lemma {:induction false} IncludesIffCanon(a: Fields, b: Fields)
    requires WellFormedFields(a, true) && WellFormedFields(b, true)
    ensures Includes(a, b) <==> IncludesCanon(a, b)
    decreases a, 0
  {
    if a.Field? {
      IncludesIffCanon(a.next, b);
      if Get(b, a.key).Some? {
        GotIsWellFormed(b, a.key);
        SameTreeIffSameCanon(a.value, Get(b, a.key).value);
      }
      assert Get(a, a.key) == Some(a.value);
      assert forall k :: Get(a, k) == if k == a.key then Some(a.value) else Get(a.next, k);
    }
  }

  lemma {:induction false} NoOtherKeysIff(a: Fields, b: Fields)
    ensures NoOtherKeys(a, b) <==> KeysAmong(a, b)
  {
    if b.Field? {
      NoOtherKeysIff(a, b.next);
      assert Get(b, b.key).Some?;
      assert forall k :: Get(b, k).Some? <==> k == b.key || Get(b.next, k).Some?;
    }
  }

  lemma {:induction false} SameFieldsIffSameCanon(a: Fields, b: Fields)
    requires WellFormedFields(a, true) && WellFormedFields(b, true)
    ensures Includes(a, b) && NoOtherKeys(a, b) <==> CanonFields(a) == CanonFields(b)
    decreases a, 1
  {
    IncludesIffCanon(a, b);
    NoOtherKeysIff(a, b);
    forall k ensures Get(CanonFields(a), k) == CanonOption(Get(a, k)) && Get(CanonFields(b), k) == CanonOption(Get(b, k)) {
      CanonGets(a, k, true);
      CanonGets(b, k, true);
    }
    CanonIsOrdered(a, true);
    CanonIsOrdered(b, true);
    if Includes(a, b) && NoOtherKeys(a, b) {
      forall k ensures Get(CanonFields(a), k) == Get(CanonFields(b), k) {
        assert Get(b, k).Some? ==> Get(a, k).Some?;
      }
      OrderedFieldsAreTheirLookups(CanonFields(a), CanonFields(b));
    }
    if CanonFields(a) == CanonFields(b) {
      assert forall k :: CanonOption(Get(a, k)) == CanonOption(Get(b, k));
    }
  }
}
