/** The text form under which the verification page keeps item details in
    session storage, standing in for `JSON.stringify` / `JSON.parse`.
    Only the property the cache relies on is kept: parsing what was
    stringified gives back the same value (`null` for absent details). */
module Codec {
  import opened Common

  /** A decoded value and the text that follows it. */
  datatype Decoded<T> = Decoded(value: T, rest: string)

  /** What `JSON.parse` yields: a parse error, `null`, or an item. */
  datatype Parsed = Invalid | Null | Value(item: Item)

  /** Encoders take the text that follows, so that decoding needs no
      reasoning about where a concatenation was split. */
  function EncStr(s: string, rest: string): string {
    if s == [] then ['"'] + rest
    else if s[0] == '"' || s[0] == '\\' then ['\\', s[0]] + EncStr(s[1..], rest)
    else [s[0]] + EncStr(s[1..], rest)
  }

  function DecStr(t: string): Option<Decoded<string>>
    decreases |t|
  {
    if t == [] then None
    else if t[0] == '"' then Some(Decoded([], t[1..]))
    else if t[0] == '\\' then
      if |t| < 2 then None
      else match DecStr(t[2..])
        case None => None
        case Some(d) => Some(Decoded([t[1]] + d.value, d.rest))
    else match DecStr(t[1..])
      case None => None
      case Some(d) => Some(Decoded([t[0]] + d.value, d.rest))
  }

  lemma {:induction false} DecEncStr(s: string, rest: string)
    ensures DecStr(EncStr(s, rest)) == Some(Decoded(s, rest))
  {
    if s != [] {
      DecEncStr(s[1..], rest);
      var t := EncStr(s, rest);
      if s[0] == '"' || s[0] == '\\' {
        assert t[2..] == EncStr(s[1..], rest);
      } else {
        assert t[1..] == EncStr(s[1..], rest);
      }
      assert [s[0]] + s[1..] == s;
    }
  }

  function IntToString(n: int): string {
    if n < 0 then "-" + NatToString(-n) else NatToString(n)
  }

  function ParseInt(s: string): int {
    if |s| > 0 && s[0] == '-' then -(ParseNat(s[1..]) as int) else ParseNat(s)
  }

  lemma ParseIntToString(n: int)
    ensures ParseInt(IntToString(n)) == n
  {
    if n < 0 {
      assert IntToString(n)[1..] == NatToString(-n);
      ParseNatToString(-n);
    } else {
      assert IsDigit(NatToString(n)[0]);
      ParseNatToString(n);
    }
  }

  function EncOptStr(o: Option<string>, rest: string): string {
    match o
    case None => "~" + rest
    case Some(s) => "=" + EncStr(s, rest)
  }

  function DecOptStr(t: string): Option<Decoded<Option<string>>> {
    if t == [] then None
    else if t[0] == '~' then Some(Decoded(None, t[1..]))
    else if t[0] == '=' then
      match DecStr(t[1..])
      case None => None
      case Some(d) => Some(Decoded(Some(d.value), d.rest))
    else None
  }

  lemma DecEncOptStr(o: Option<string>, rest: string)
    ensures DecOptStr(EncOptStr(o, rest)) == Some(Decoded(o, rest))
  {
    if o.Some? {
      var t := EncOptStr(o, rest);
      assert t[1..] == EncStr(o.value, rest);
      DecEncStr(o.value, rest);
    } else {
      assert EncOptStr(o, rest)[1..] == rest;
    }
  }

  function EncOptInt(o: Option<int>, rest: string): string {
    match o
    case None => "~" + rest
    case Some(n) => "=" + EncStr(IntToString(n), rest)
  }

  function DecOptInt(t: string): Option<Decoded<Option<int>>> {
    match DecOptStr(t)
    case None => None
    case Some(d) =>
      Some(Decoded(if d.value.Some? then Some(ParseInt(d.value.value)) else None, d.rest))
  }

  lemma DecEncOptInt(o: Option<int>, rest: string)
    ensures DecOptInt(EncOptInt(o, rest)) == Some(Decoded(o, rest))
  {
    if o.Some? {
      DecEncOptStr(Some(IntToString(o.value)), rest);
      ParseIntToString(o.value);
    } else {
      DecEncOptStr(None, rest);
    }
  }

  function EncItem(it: Item, rest: string): string {
    EncStr(it.itemId,
    EncStr(it.itemType,
    EncOptStr(it.itemName,
    EncOptStr(it.description,
    EncOptStr(it.location,
    EncOptInt(it.createdAt,
    EncOptStr(it.imageUrl,
    EncOptStr(it.status,
    EncOptStr(it.claimedByUserId, rest)))))))))
  }

  function DecItem(t: string): Option<Decoded<Item>> {
    match DecStr(t)
    case None => None
    case Some(id) =>
    match DecStr(id.rest)
    case None => None
    case Some(ty) =>
    match DecOptStr(ty.rest)
    case None => None
    case Some(name) =>
    match DecOptStr(name.rest)
    case None => None
    case Some(desc) =>
    match DecOptStr(desc.rest)
    case None => None
    case Some(loc) =>
    match DecOptInt(loc.rest)
    case None => None
    case Some(date) =>
    match DecOptStr(date.rest)
    case None => None
    case Some(url) =>
    match DecOptStr(url.rest)
    case None => None
    case Some(st) =>
    match DecOptStr(st.rest)
    case None => None
    case Some(cb) =>
      Some(Decoded(Item(id.value, ty.value, name.value, desc.value, loc.value,
                        date.value, url.value, st.value, cb.value), cb.rest))
  }

  lemma DecEncItem(it: Item, rest: string)
    ensures DecItem(EncItem(it, rest)) == Some(Decoded(it, rest))
  {
    var t8 := EncOptStr(it.claimedByUserId, rest);
    var t7 := EncOptStr(it.status, t8);
    var t6 := EncOptStr(it.imageUrl, t7);
    var t5 := EncOptInt(it.createdAt, t6);
    var t4 := EncOptStr(it.location, t5);
    var t3 := EncOptStr(it.description, t4);
    var t2 := EncOptStr(it.itemName, t3);
    var t1 := EncStr(it.itemType, t2);
    DecEncStr(it.itemId, t1);
    DecEncStr(it.itemType, t2);
    DecEncOptStr(it.itemName, t3);
    DecEncOptStr(it.description, t4);
    DecEncOptStr(it.location, t5);
    DecEncOptInt(it.createdAt, t6);
    DecEncOptStr(it.imageUrl, t7);
    DecEncOptStr(it.status, t8);
    DecEncOptStr(it.claimedByUserId, rest);
  }

  /** `JSON.stringify(itemDetails)`; `null`/`undefined` details become `"null"`. */
  function Stringify(details: Option<Item>): string {
    match details
    case None => "null"
    case Some(it) => "{" + EncItem(it, "}")
  }

  /** `JSON.parse(text)`; a missing entry (`getItem` returns `null`) parses as `null`. */
  function Parse(text: Option<string>): Parsed {
    if text.None? || text.value == "null" then Null
    else
      var s := text.value;
      if |s| > 0 && s[0] == '{' then
        match DecItem(s[1..])
        case Some(d) => if d.rest == "}" then Value(d.value) else Invalid
        case None => Invalid
      else Invalid
  }

  /** Round trip: what was stringified parses back to the same details. */
  lemma ParseStringify(details: Option<Item>)
    ensures Parse(Some(Stringify(details))) == if details.Some? then Value(details.value) else Null
  {
    if details.Some? {
      var s := Stringify(details);
      assert s[1..] == EncItem(details.value, "}");
      DecEncItem(details.value, "}");
    }
  }
}
