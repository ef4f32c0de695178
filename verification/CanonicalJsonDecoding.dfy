/** A decoder that undoes stableStringify, and what it says about the request fingerprint. */
module CanonicalJsonDecoding {
  import opened Money
  import opened CanonicalJson

  datatype Parse<T> = Fail | Got(value: T, rest: Text)

  // --------------------------------------------------------------------------
  // The decoder
  // --------------------------------------------------------------------------

  function Push(u: int, p: Parse<Text>): Parse<Text> {
    match p case Fail => Fail case Got(t, rest) => Got([u] + t, rest)
  }

  /** The characters of a string literal, after its opening quote. */
  function DecodeChars(s: Text): (p: Parse<Text>)
    ensures p.Got? ==> |p.rest| < |s|
  {
    if s == [] then Fail
    else if s[0] == QUOTE then Got([], s[1..])
    else if s[0] != BACKSLASH then Push(s[0], DecodeChars(s[1..]))
    else if |s| < 2 then Fail
    else if s[1] != 0x75 then Push(UnShort(s[1]), DecodeChars(s[2..]))
    else if |s| < 6 then Fail
    else Push(UnHex4(s[2], s[3], s[4], s[5]), DecodeChars(s[6..]))
  }

  /** The end of the run of number characters starting at i. */
  function NumberEnd(s: Text, i: int): (n: int)
    requires 0 <= i <= |s|
    ensures i <= n <= |s|
    decreases |s| - i
  {
    if i < |s| && IsNumberChar(s[i]) then NumberEnd(s, i + 1) else i
  }

  function Decode(s: Text): (p: Parse<Json>)
    ensures p.Got? ==> |p.rest| < |s|
    decreases |s|, 0
  {
    if s == [] then Fail
    else if s[0] == QUOTE then
      match DecodeChars(s[1..]) case Fail => Fail case Got(t, rest) => Got(Str(t), rest)
    else if s[0] == LBRACKET then
      if |s| > 1 && s[1] == RBRACKET then Got(Arr(NoItems), s[2..])
      else (match DecodeItems(s[1..]) case Fail => Fail case Got(items, rest) => Got(Arr(items), rest))
    else if s[0] == LBRACE then
      if |s| > 1 && s[1] == RBRACE then Got(Obj(NoFields), s[2..])
      else (match DecodeFields(s[1..]) case Fail => Fail case Got(fields, rest) => Got(Obj(fields), rest))
    else if NULL <= s then Got(Null, s[4..])
    else if TRUE <= s then Got(Bool(true), s[4..])
    else if FALSE <= s then Got(Bool(false), s[5..])
    else if IsNumberChar(s[0]) then Got(Num(s[..NumberEnd(s, 0)]), s[NumberEnd(s, 0)..])
    else Fail
  }

  /** One or more items and the closing bracket. */
  function DecodeItems(s: Text): (p: Parse<Items>)
    ensures p.Got? ==> |p.rest| < |s|
    decreases |s|, 1
  {
    match Decode(s)
    case Fail => Fail
    case Got(v, rest) =>
      if rest == [] then Fail
      else if rest[0] == RBRACKET then Got(Item(v, NoItems), rest[1..])
      else if rest[0] != COMMA then Fail
      else match DecodeItems(rest[1..]) case Fail => Fail case Got(items, r) => Got(Item(v, items), r)
  }

  /** One or more fields and the closing brace. */
  function DecodeFields(s: Text): (p: Parse<Fields>)
    ensures p.Got? ==> |p.rest| < |s|
    decreases |s|, 1
  {
    if s == [] || s[0] != QUOTE then Fail
    else
      match DecodeChars(s[1..])
      case Fail => Fail
      case Got(key, r) =>
        if r == [] || r[0] != COLON then Fail
        else
          match Decode(r[1..])
          case Fail => Fail
          case Got(v, rest) =>
            if rest == [] then Fail
            else if rest[0] == RBRACE then Got(Field(key, v, NoFields), rest[1..])
            else if rest[0] != COMMA then Fail
            else match DecodeFields(rest[1..]) case Fail => Fail case Got(fields, q) => Got(Field(key, v, fields), q)
  }

  // --------------------------------------------------------------------------
  // Strings and numbers round-trip
  // --------------------------------------------------------------------------

  /** The value of four hexadecimal digits. */
  function UnHex4(a: int, b: int, c: int, d: int): int {
    ((UnHex(a) * 16 + UnHex(b)) * 16 + UnHex(c)) * 16 + UnHex(d)
  }

  lemma HexDigitRoundTrip(d: int)
    requires 0 <= d < 16
    ensures UnHex(Hex(d)) == d
  {
  }

  lemma HexRoundTrip(u: int)
    requires 0 <= u < 0x10000
    ensures UnHex4(Hex(u / 16 / 16 / 16), Hex(u / 16 / 16 % 16), Hex(u / 16 % 16), Hex(u % 16)) == u
  {
    HexDigitRoundTrip(u / 16 / 16 / 16);
    HexDigitRoundTrip(u / 16 / 16 % 16);
    HexDigitRoundTrip(u / 16 % 16);
    HexDigitRoundTrip(u % 16);
  }

  lemma UnitRoundTrip(t: Text, i: int, tail: Text)
    requires IsText(t) && 0 <= i < |t|
    ensures DecodeChars(EscapeUnit(t, i) + tail) == Push(t[i], DecodeChars(tail))
  {
    var unit := EscapeUnit(t, i);
    var s := unit + tail;
    assert s[|unit|..] == tail;
    HexRoundTrip(t[i]);
  }

  lemma {:induction false} OneMoreUnit(t: Text, i: int, rest: Text)
    requires 0 <= i < |t|
    ensures EscapeFrom(t, i) + rest == EscapeUnit(t, i) + (EscapeFrom(t, i + 1) + rest)
    ensures [t[i]] + t[i + 1..] == t[i..]
  {
  }

  lemma {:induction false} CharsRoundTrip(t: Text, i: int, rest: Text)
    requires IsText(t) && 0 <= i <= |t|
    ensures DecodeChars(EscapeFrom(t, i) + rest) == Got(t[i..], rest)
    decreases |t| - i
  {
    if i == |t| {
      assert ([QUOTE] + rest)[1..] == rest;
    } else {
      CharsRoundTrip(t, i + 1, rest);
      UnitRoundTrip(t, i, EscapeFrom(t, i + 1) + rest);
      OneMoreUnit(t, i, rest);
      var p := DecodeChars(EscapeFrom(t, i + 1) + rest);
      assert Push(t[i], p) == Got([t[i]] + t[i + 1..], rest);
    }
  }

  predicate EndsNumber(rest: Text) {
    rest == [] || !IsNumberChar(rest[0])
  }

  lemma {:induction false} NumberEndsWhereItShould(t: Text, i: int, rest: Text)
    requires 0 <= i <= |t| && EndsNumber(rest)
    requires forall j :: 0 <= j < |t| ==> IsNumberChar(t[j])
    ensures NumberEnd(t + rest, i) == |t|
    decreases |t| - i
  {
    if i < |t| {
      NumberEndsWhereItShould(t, i + 1, rest);
    }
  }

  // --------------------------------------------------------------------------
  // Trees round-trip
  // --------------------------------------------------------------------------

  lemma RawStarts(v: Json)
    requires WellFormed(v, false)
    ensures Raw(v) != [] && Raw(v)[0] != RBRACKET
  {
  }

  lemma WordRoundTrip(v: Json, rest: Text)
    requires v.Null? || v.Bool?
    ensures Decode(Raw(v) + rest) == Got(v, rest)
  {
    var word := Raw(v);
    var s := word + rest;
    assert s[..|word|] == word && s[|word|..] == rest;
    assert NULL <= s <==> s[0] == 0x6E && NULL <= s;
  }

  lemma NumberRoundTrip(t: Text, rest: Text)
    requires IsLiteral(t) && EndsNumber(rest)
    ensures Decode(t + rest) == Got(Num(t), rest)
  {
    NumberEndsWhereItShould(t, 0, rest);
    var s := t + rest;
    assert s[..|t|] == t && s[|t|..] == rest;
    assert s[0] == t[0];
  }

  lemma StringRoundTrip(t: Text, rest: Text)
    requires IsText(t)
    ensures Decode(Quoted(t) + rest) == Got(Str(t), rest)
  {
    CharsRoundTrip(t, 0, rest);
    assert (Quoted(t) + rest)[1..] == EscapeFrom(t, 0) + rest;
  }

  predicate DecodesTo(s: Text, v: Json, rest: Text) {
    Decode(s) == Got(v, rest)
  }

  predicate DecodesToItems(s: Text, items: Items, rest: Text) {
    s != [] && s[0] != RBRACKET && DecodeItems(s) == Got(items, rest)
  }

  predicate DecodesToFields(s: Text, fields: Fields, rest: Text) {
    s != [] && s[0] == QUOTE && DecodeFields(s) == Got(fields, rest)
  }

  lemma ArrayRoundTrip(inside: Text, items: Items, rest: Text)
    requires DecodesToItems(inside + ([RBRACKET] + rest), items, rest)
    ensures DecodesTo([LBRACKET] + inside + [RBRACKET] + rest, Arr(items), rest)
  {
    var s := [LBRACKET] + inside + [RBRACKET] + rest;
    assert s[1..] == inside + ([RBRACKET] + rest);
    assert s[1] == s[1..][0];
  }

  lemma ObjectRoundTrip(inside: Text, fields: Fields, rest: Text)
    requires DecodesToFields(inside + ([RBRACE] + rest), fields, rest)
    ensures DecodesTo([LBRACE] + inside + [RBRACE] + rest, Obj(fields), rest)
  {
    var s := [LBRACE] + inside + [RBRACE] + rest;
    assert s[1..] == inside + ([RBRACE] + rest);
    assert s[1] == s[1..][0];
  }

  lemma EmptyRoundTrip(rest: Text)
    ensures DecodesTo([LBRACKET] + [] + [RBRACKET] + rest, Arr(NoItems), rest)
    ensures DecodesTo([LBRACE] + [] + [RBRACE] + rest, Obj(NoFields), rest)
  {
    assert [LBRACKET] + [] + [RBRACKET] + rest == [LBRACKET, RBRACKET] + rest;
    assert ([LBRACKET, RBRACKET] + rest)[2..] == rest;
    assert [LBRACE] + [] + [RBRACE] + rest == [LBRACE, RBRACE] + rest;
    assert ([LBRACE, RBRACE] + rest)[2..] == rest;
  }

  lemma LastItem(printed: Text, v: Json, rest: Text)
    requires printed != [] && printed[0] != RBRACKET
    requires DecodesTo(printed + ([RBRACKET] + rest), v, [RBRACKET] + rest)
    ensures DecodesToItems(printed + ([RBRACKET] + rest), Item(v, NoItems), rest)
  {
    assert ([RBRACKET] + rest)[1..] == rest;
  }

  lemma NextItem(printed: Text, v: Json, after: Text, items: Items, rest: Text)
    requires printed != [] && printed[0] != RBRACKET
    requires DecodesTo(printed + ([COMMA] + after), v, [COMMA] + after) && DecodesToItems(after, items, rest)
    ensures DecodesToItems(printed + ([COMMA] + after), Item(v, items), rest)
  {
    assert ([COMMA] + after)[1..] == after;
  }

  /** Up to its value, a field's text is the key, quoted, and a colon. */
  lemma KeyRoundTrip(key: Text, printed: Text, tail: Text)
    requires IsText(key)
    ensures var s := RawField(key, printed) + tail;
      && s[0] == QUOTE && DecodeChars(s[1..]) == Got(key, [COLON] + (printed + tail))
  {
    CharsRoundTrip(key, 0, [COLON] + (printed + tail));
    AfterTheQuote(EscapeFrom(key, 0), printed, tail);
  }

  lemma AfterTheQuote(escaped: Text, printed: Text, tail: Text)
    ensures ([QUOTE] + escaped + [COLON] + printed + tail)[1..] == escaped + ([COLON] + (printed + tail))
  {
  }

  lemma LastField(key: Text, printed: Text, v: Json, rest: Text)
    requires IsText(key) && DecodesTo(printed + ([RBRACE] + rest), v, [RBRACE] + rest)
    ensures DecodesToFields(RawField(key, printed) + ([RBRACE] + rest), Field(key, v, NoFields), rest)
  {
    KeyRoundTrip(key, printed, [RBRACE] + rest);
    assert ([COLON] + (printed + ([RBRACE] + rest)))[1..] == printed + ([RBRACE] + rest);
    assert ([RBRACE] + rest)[1..] == rest;
  }

  lemma NextField(key: Text, printed: Text, v: Json, after: Text, fields: Fields, rest: Text)
    requires IsText(key) && DecodesTo(printed + ([COMMA] + after), v, [COMMA] + after)
    requires DecodesToFields(after, fields, rest)
    ensures DecodesToFields(RawField(key, printed) + ([COMMA] + after), Field(key, v, fields), rest)
  {
    KeyRoundTrip(key, printed, [COMMA] + after);
    assert ([COLON] + (printed + ([COMMA] + after)))[1..] == printed + ([COMMA] + after);
    assert ([COMMA] + after)[1..] == after;
  }

  lemma Regroup(a: Text, b: Text, c: Text)
    ensures a + [COMMA] + b + c == a + ([COMMA] + (b + c))
  {
  }

  lemma {:induction false} RawRoundTrip(v: Json, rest: Text)
    requires WellFormed(v, false)
    requires v.Num? ==> EndsNumber(rest)
    ensures DecodesTo(Raw(v) + rest, v, rest)
    decreases v, 1
  {
    match v
    case Null => WordRoundTrip(v, rest);
    case Bool(_) => WordRoundTrip(v, rest);
    case Num(t) => NumberRoundTrip(t, rest);
    case Str(t) => StringRoundTrip(t, rest);
    case Arr(items) =>
      if items == NoItems {
        EmptyRoundTrip(rest);
      } else {
        ItemsRoundTrip(items, rest);
        ArrayRoundTrip(RawItems(items), items, rest);
      }
    case Obj(fields) =>
      if fields == NoFields {
        EmptyRoundTrip(rest);
      } else {
        FieldsRoundTrip(fields, rest);
        ObjectRoundTrip(RawFields(fields), fields, rest);
      }
  }

  lemma {:induction false} ItemsRoundTrip(items: Items, rest: Text)
    requires WellFormedItems(items, false) && items.Item?
    ensures DecodesToItems(RawItems(items) + ([RBRACKET] + rest), items, rest)
    decreases items, 0
  {
    RawStarts(items.head);
    if items.tail == NoItems {
      RawRoundTrip(items.head, [RBRACKET] + rest);
      LastItem(Raw(items.head), items.head, rest);
    } else {
      ItemsRoundTrip(items.tail, rest);
      var after := RawItems(items.tail) + ([RBRACKET] + rest);
      RawRoundTrip(items.head, [COMMA] + after);
      NextItem(Raw(items.head), items.head, after, items.tail, rest);
      Regroup(Raw(items.head), RawItems(items.tail), [RBRACKET] + rest);
    }
  }

  lemma {:induction false} FieldsRoundTrip(fields: Fields, rest: Text)
    requires WellFormedFields(fields, false) && fields.Field?
    ensures DecodesToFields(RawFields(fields) + ([RBRACE] + rest), fields, rest)
    decreases fields, 0
  {
    var key, printed := fields.key, Raw(fields.value);
    if fields.next == NoFields {
      RawRoundTrip(fields.value, [RBRACE] + rest);
      LastField(key, printed, fields.value, rest);
    } else {
      FieldsRoundTrip(fields.next, rest);
      var after := RawFields(fields.next) + ([RBRACE] + rest);
      RawRoundTrip(fields.value, [COMMA] + after);
      NextField(key, printed, fields.value, after, fields.next, rest);
      Regroup(RawField(key, printed), RawFields(fields.next), [RBRACE] + rest);
    }
  }

  lemma {:induction false} CanonIsWellFormed(v: Json)
    requires WellFormed(v, true)
    ensures WellFormed(Canon(v), false)
  {
    match v
    case Arr(items) => CanonItemsAreWellFormed(items);
    case Obj(fields) => CanonFieldsAreWellFormed(fields);
    case _ =>
  }

  lemma {:induction false} CanonItemsAreWellFormed(items: Items)
    requires WellFormedItems(items, true)
    ensures WellFormedItems(CanonItems(items), false)
  {
    if items.Item? {
      CanonIsWellFormed(items.head);
      CanonItemsAreWellFormed(items.tail);
    }
  }

  lemma {:induction false} InsertIsWellFormed(key: Text, value: Json, fields: Fields)
    requires WellFormedFields(fields, false) && WellFormed(value, false) && IsText(key) && Get(fields, key) == None
    ensures WellFormedFields(Insert(key, value, fields), false)
  {
    if fields.Field? {
      InsertIsWellFormed(key, value, fields.next);
      InsertGets(key, value, fields.next, fields.key);
    }
  }

  lemma {:induction false} CanonFieldsAreWellFormed(fields: Fields)
    requires WellFormedFields(fields, true)
    ensures WellFormedFields(CanonFields(fields), false)
  {
    if fields.Field? {
      CanonIsWellFormed(fields.value);
      CanonFieldsAreWellFormed(fields.next);
      CanonGets(fields.next, fields.key, true);
      InsertIsWellFormed(fields.key, Canon(fields.value), CanonFields(fields.next));
    }
  }

  // --------------------------------------------------------------------------
  // The main results
  // --------------------------------------------------------------------------

  /** Whatever follows, decoding a printed body gives back the body, its object fields in key order. */
  lemma DecoderUndoesStringify(v: Json, rest: Text)
    requires WellFormed(v, true)
    requires v.Num? ==> EndsNumber(rest)
    ensures Decode(Stringify(v) + rest) == Got(Canon(v), rest)
    ensures SameTree(v, Canon(v))
  {
    StringifyIsRawCanon(v);
    CanonIsWellFormed(v);
    RawRoundTrip(Canon(v), rest);
    CanonAgain(v);
    WellFormedEitherWay(Canon(v));
    SameTreeIffSameCanon(v, Canon(v));
  }

  lemma {:induction false} WellFormedEitherWay(v: Json)
    requires WellFormed(v, false)
    ensures WellFormed(v, true)
  {
    match v
    case Arr(items) => WellFormedItemsEitherWay(items);
    case Obj(fields) => WellFormedFieldsEitherWay(fields);
    case _ =>
  }

  lemma {:induction false} WellFormedItemsEitherWay(items: Items)
    requires WellFormedItems(items, false)
    ensures WellFormedItems(items, true)
  {
    if items.Item? {
      WellFormedEitherWay(items.head);
      WellFormedItemsEitherWay(items.tail);
    }
  }

  lemma {:induction false} WellFormedFieldsEitherWay(fields: Fields)
    requires WellFormedFields(fields, false)
    ensures WellFormedFields(fields, true)
  {
    if fields.Field? {
      WellFormedEitherWay(fields.value);
      WellFormedFieldsEitherWay(fields.next);
    }
  }

  /** Putting fields in key order twice changes nothing more. */
  lemma {:induction false} CanonAgain(v: Json)
    requires WellFormed(v, true)
    ensures Canon(Canon(v)) == Canon(v)
  {
    match v
    case Arr(items) => CanonItemsAgain(items);
    case Obj(fields) => CanonFieldsAgain(fields);
    case _ =>
  }

  lemma {:induction false} CanonItemsAgain(items: Items)
    requires WellFormedItems(items, true)
    ensures CanonItems(CanonItems(items)) == CanonItems(items)
  {
    if items.Item? {
      CanonAgain(items.head);
      CanonItemsAgain(items.tail);
    }
  }

  ghost predicate CanonicalValues(fields: Fields) {
    forall k :: Get(fields, k).Some? ==> Canon(Get(fields, k).value) == Get(fields, k).value
  }

  lemma {:induction false} CanonFieldsAgain(fields: Fields)
    requires WellFormedFields(fields, true)
    ensures CanonFields(CanonFields(fields)) == CanonFields(fields)
    decreases fields, 1
  {
    var once := CanonFields(fields);
    CanonFieldsAreWellFormed(fields);
    WellFormedFieldsEitherWay(once);
    CanonIsOrdered(fields, true);
    CanonIsOrdered(once, true);
    forall k ensures Get(CanonFields(once), k) == Get(once, k) {
      CanonGets(fields, k, true);
      CanonGets(once, k, true);
      if Get(fields, k).Some? {
        CanonAgainAt(fields, k);
      }
    }
    OrderedFieldsAreTheirLookups(CanonFields(once), once);
  }

  lemma {:induction false} CanonAgainAt(fields: Fields, k: Text)
    requires WellFormedFields(fields, true) && Get(fields, k).Some?
    ensures Canon(Canon(Get(fields, k).value)) == Canon(Get(fields, k).value)
    decreases fields, 0
  {
    if fields.key == k {
      CanonAgain(fields.value);
    } else {
      CanonAgainAt(fields.next, k);
    }
  }

  /** Two bodies print equally exactly when they are the same tree up to object key order. */
  lemma PrintsEquallyIffSameTree(a: Json, b: Json)
    requires WellFormed(a, true) && WellFormed(b, true)
    ensures Stringify(a) == Stringify(b) <==> SameTree(a, b)
  {
    DecoderUndoesStringify(a, []);
    DecoderUndoesStringify(b, []);
    assert Stringify(a) + [] == Stringify(a) && Stringify(b) + [] == Stringify(b);
    StringifyIsRawCanon(a);
    StringifyIsRawCanon(b);
    SameTreeIffSameCanon(a, b);
  }

  // --------------------------------------------------------------------------
  // The fingerprint
  // --------------------------------------------------------------------------

  /** `body || {}`: a missing, null, false, zero or empty-string body counts as an empty object. */
  function OrEmpty(body: Option<Json>): Json {
    match body
    case None => Obj(NoFields)
    case Some(v) => if v in {Null, Bool(false), Num([0x30]), Str([])} then Obj(NoFields) else v
  }

  /** The text that is hashed. */
  function Fingerprint(verb: Text, route: Text, body: Option<Json>): Text {
    verb + [COLON] + route + [COLON] + Stringify(OrEmpty(body))
  }

  predicate BodyOk(body: Option<Json>) {
    body.Some? ==> WellFormed(body.value, true)
  }

  lemma {:induction false} SplitAtColon(a: Text, x: Text, b: Text, y: Text)
    requires COLON !in a && COLON !in b
    requires a + [COLON] + x == b + [COLON] + y
    ensures a == b && x == y
  {
    if a == [] || b == [] {
      assert (a + [COLON] + x)[0] == (b + [COLON] + y)[0];
      assert a == b && (a + [COLON] + x)[1..] == x && (b + [COLON] + y)[1..] == y;
    } else {
      assert (a + [COLON] + x)[0] == a[0] && (b + [COLON] + y)[0] == b[0];
      assert (a + [COLON] + x)[1..] == a[1..] + [COLON] + x;
      assert (b + [COLON] + y)[1..] == b[1..] + [COLON] + y;
      SplitAtColon(a[1..], x, b[1..], y);
    }
  }

  lemma SplitThreeParts(a: Text, b: Text, p: Text, c: Text, d: Text, q: Text)
    requires COLON !in a && COLON !in c
    requires (a == c && b == d) || (COLON !in b && COLON !in d)
    ensures a + [COLON] + b + [COLON] + p == c + [COLON] + d + [COLON] + q <==> a == c && b == d && p == q
  {
    var x, y := b + [COLON] + p, d + [COLON] + q;
    assert a + [COLON] + b + [COLON] + p == a + [COLON] + x;
    assert c + [COLON] + d + [COLON] + q == c + [COLON] + y;
    if a + [COLON] + x == c + [COLON] + y {
      SplitAtColon(a, x, c, y);
      if b == d {
        assert x[|b| + 1..] == p && y[|b| + 1..] == q;
      } else {
        SplitAtColon(b, p, d, q);
      }
    }
  }

  /** On one route a fingerprint stands for the body, and where routes hold no colon for the whole request. */
  lemma FingerprintIdentifiesTheRequest(verb1: Text, route1: Text, body1: Option<Json>,
    verb2: Text, route2: Text, body2: Option<Json>)
    requires BodyOk(body1) && BodyOk(body2) && COLON !in verb1 && COLON !in verb2
    requires (verb1 == verb2 && route1 == route2) || (COLON !in route1 && COLON !in route2)
    ensures Fingerprint(verb1, route1, body1) == Fingerprint(verb2, route2, body2) <==>
      verb1 == verb2 && route1 == route2 && SameTree(OrEmpty(body1), OrEmpty(body2))
  {
    PrintsEquallyIffSameTree(OrEmpty(body1), OrEmpty(body2));
    SplitThreeParts(verb1, route1, Stringify(OrEmpty(body1)), verb2, route2, Stringify(OrEmpty(body2)));
  }

  /** What JavaScript counts as false. */
  predicate IsFalsy(v: Json) {
    v == Null || v == Bool(false) || v == Num([0x30]) || v == Str([])
  }

  /** So objects, and all bodies that are not falsy, are told apart; a missing or falsy body is an empty object. */
  lemma FingerprintTellsBodiesApart(verb: Text, route: Text, a: Json, b: Json)
    requires WellFormed(a, true) && WellFormed(b, true) && COLON !in verb
    ensures Fingerprint(verb, route, None) == Fingerprint(verb, route, Some(Obj(NoFields)))
    ensures IsFalsy(a) ==> Fingerprint(verb, route, Some(a)) == Fingerprint(verb, route, None)
    ensures !IsFalsy(a) && !IsFalsy(b) ==>
      (Fingerprint(verb, route, Some(a)) == Fingerprint(verb, route, Some(b)) <==> SameTree(a, b))
  {
    FingerprintIdentifiesTheRequest(verb, route, Some(a), verb, route, Some(b));
  }

  /** The one exception to "same text, same tree": a number too large for a double prints as null. */
  lemma TooLargePrintsAsNull()
    ensures Stringify(TooLarge) == Stringify(Null) && TooLarge != Null
    ensures Decode(Stringify(TooLarge)) == Got(Null, [])
  {
    assert NULL[4..] == [];
  }
}
