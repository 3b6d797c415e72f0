/** The part of JavaScript's value semantics the system relies on: JSON
    values, property access, truthiness and conversion to text, and the
    library services (JSON text, hashing, schema validation) it calls. */
module Js {
  import opened Wrappers
  import opened Text

  /** A JSON value. Object members are listed in order; `Canonical`
      states when that order is the one JavaScript enumerates them in. A
      number that is not an integer is kept as its decimal text. */
  datatype Value =
    | Null
    | Bool(b: bool)
    | Int(i: int)
    | Frac(text: string)
    | Str(s: string)
    | Arr(items: seq<Value>)
    | Obj(fields: seq<(string, Value)>)

  type Fields = seq<(string, Value)>

  /** The keys of an object, in enumeration order. */
  function Keys(fields: Fields): seq<string> {
    seq(|fields|, k requires 0 <= k < |fields| => fields[k].0)
  }

  /** The value of an own property, or `undefined` (None). */
  function Lookup(fields: Fields, key: string): Option<Value> {
    if fields == [] then None
    else if fields[0].0 == key then Some(fields[0].1)
    else Lookup(fields[1..], key)
  }

  /** A property is found exactly when the object has that key, and what is
      found is the value the first member with that key holds. */
  lemma {:induction false} LookupFinds(fields: Fields, key: string)
    ensures Lookup(fields, key).None? <==> key !in Keys(fields)
    ensures Lookup(fields, key).Some? ==>
      exists k :: 0 <= k < |fields| && fields[k] == (key, Lookup(fields, key).value)
                  && key !in Keys(fields[..k])
  {
    if fields != [] {
      LookupFinds(fields[1..], key);
      assert Keys(fields) == [fields[0].0] + Keys(fields[1..]);
      if fields[0].0 == key {
        assert fields[0] == (key, Lookup(fields, key).value) && Keys(fields[..0]) == [];
      } else if Lookup(fields, key).Some? {
        var k :| 0 <= k < |fields[1..]| && fields[1..][k] == (key, Lookup(fields, key).value)
                 && key !in Keys(fields[1..][..k]);
        assert Keys(fields[..k + 1]) == [fields[0].0] + Keys(fields[1..][..k]);
        assert fields[k + 1] == (key, Lookup(fields, key).value);
      }
    }
  }

  /** `obj[key] = v`: an existing property keeps its place, a new one goes last. */
  function Assign(fields: Fields, key: string, v: Value): Fields {
    if fields == [] then [(key, v)]
    else if fields[0].0 == key then [(key, v)] + fields[1..]
    else [fields[0]] + Assign(fields[1..], key, v)
  }

  /** After `obj[key] = v` the property reads as `v`. */
  lemma {:induction false} AssignSets(fields: Fields, key: string, v: Value)
    ensures Lookup(Assign(fields, key, v), key) == Some(v)
  {
    if fields != [] && fields[0].0 != key {
      AssignSets(fields[1..], key, v);
    }
  }

  /** `obj[key] = v` overwrites the first member named `key` in place, and
      adds a member at the end when there is none. */
  lemma {:induction false} AssignPlaces(fields: Fields, key: string, v: Value)
    ensures key !in Keys(fields) ==> Assign(fields, key, v) == fields + [(key, v)]
    ensures key in Keys(fields) ==>
      exists k :: 0 <= k < |fields| && fields[k].0 == key && key !in Keys(fields[..k])
                  && Assign(fields, key, v) == fields[k := (key, v)]
  {
    if fields != [] {
      assert Keys(fields) == [fields[0].0] + Keys(fields[1..]);
      if fields[0].0 == key {
        assert Keys(fields[..0]) == [];
        assert Assign(fields, key, v) == fields[0 := (key, v)];
      } else {
        AssignPlaces(fields[1..], key, v);
        var rest := Assign(fields[1..], key, v);
        if key in Keys(fields) {
          var k :| 0 <= k < |fields[1..]| && fields[1..][k].0 == key && key !in Keys(fields[1..][..k])
                   && rest == fields[1..][k := (key, v)];
          assert Keys(fields[..k + 1]) == [fields[0].0] + Keys(fields[1..][..k]);
          assert [fields[0]] + rest == fields[k + 1 := (key, v)];
        } else {
          assert [fields[0]] + (fields[1..] + [(key, v)]) == fields + [(key, v)];
        }
      }
    }
  }

  /** Assigning keeps the keys and their order, adding `key` last when it was
      not among them. */
  lemma AssignKeys(fields: Fields, key: string, v: Value)
    ensures key in Keys(fields) ==> Keys(Assign(fields, key, v)) == Keys(fields)
    ensures key !in Keys(fields) ==> Keys(Assign(fields, key, v)) == Keys(fields) + [key]
  {
    AssignPlaces(fields, key, v);
  }

  /** Assigning one property leaves every other property as it was. */
  lemma {:induction false} AssignKeepsOthers(fields: Fields, key: string, v: Value, other: string)
    requires other != key
    ensures Lookup(Assign(fields, key, v), other) == Lookup(fields, other)
  {
    if fields != [] && fields[0].0 != key {
      AssignKeepsOthers(fields[1..], key, v, other);
    }
  }

  /** A property key that names an array element: the canonical numeral of
      an integer below 2^32 - 1 (section 6.1.7 of ECMA-262). */
  function ArrayIndex(key: string): Option<nat> {
    if IsCanonicalNumeral(key) && DigitsValue(key) < 0xFFFF_FFFF then Some(DigitsValue(key)) else None
  }

  /** Array indices are exactly the printed integers below 2^32 - 1, and a
      printed integer names the element at that integer. */
  lemma ArrayIndexOfNumeral(key: string)
    ensures ArrayIndex(key).Some? ==> IsCanonicalNumeral(key) && key == NatToString(ArrayIndex(key).value)
    ensures forall n: nat :: n < 0xFFFF_FFFF && key == NatToString(n) ==> ArrayIndex(key) == Some(n)
  {
    forall n: nat | key == NatToString(n) ensures IsCanonicalNumeral(key) && DigitsValue(key) == n {
      NatToStringParses(n);
    }
    if ArrayIndex(key).Some? {
      CanonicalNumeralPrints(key);
    }
  }

  const ReadHead := "Cannot read properties of "
  const ReadMiddle := " (reading '"

  function ReadError(base: string, key: string): string {
    ReadHead + base + ReadMiddle + key + "')"
  }

  /** `v[key]` on a value that is not `undefined`: own properties of objects,
      elements and `length` of arrays and strings; `undefined` otherwise.
      Reading from `null` raises a TypeError. */
  function Prop(v: Value, key: string): (r: Result<Option<Value>, string>)
    ensures r.Failure? <==> v.Null?
    ensures v.Obj? ==> r == Success(Lookup(v.fields, key))
  {
    match v
    case Null => Failure(ReadError("null", key))
    case Obj(fields) => Success(Lookup(fields, key))
    case Arr(items) =>
      if key == "length" then Success(Some(Int(|items|)))
      else
        var n := ArrayIndex(key);
        Success(if n.Some? && n.value < |items| then Some(items[n.value]) else None)
    case Str(s) =>
      if key == "length" then Success(Some(Int(|s|)))
      else
        var n := ArrayIndex(key);
        Success(if n.Some? && n.value < |s| then Some(Str([s[n.value]])) else None)
    case _ => Success(None)
  }

  /** `x[key]` where `x` may be `undefined`. */
  function Get(x: Option<Value>, key: string): (r: Result<Option<Value>, string>)
    ensures r.Failure? <==> (x.None? || x.value.Null?)
  {
    match x
    case None => Failure(ReadError("undefined", key))
    case Some(v) => Prop(v, key)
  }

  /** `x?.[key]`: `undefined` when `x` is `null` or `undefined`. */
  function OptGet(x: Option<Value>, key: string): (r: Option<Value>)
    ensures (x.None? || x.value.Null?) ==> r.None?
    ensures x.Some? && x.value.Obj? ==> r == Lookup(x.value.fields, key)
  {
    match x
    case None => None
    case Some(v) => if v.Null? then None else Prop(v, key).value
  }

  /** JavaScript truthiness; `undefined` is None. A non-integral number is
      never zero. */
  predicate Truthy(x: Option<Value>) {
    match x
    case None => false
    case Some(v) =>
      match v
      case Null => false
      case Bool(b) => b
      case Int(i) => i != 0
      case Frac(_) => true
      case Str(s) => s != []
      case _ => true
  }

  /** `a || b` */
  function Or(a: Option<Value>, b: Option<Value>): (r: Option<Value>)
    ensures Truthy(a) ==> r == a
    ensures !Truthy(a) ==> r == b
  {
    if Truthy(a) then a else b
  }

  /** `String(v)`: what a template literal or `toString` makes of a value. */
  function StringOf(v: Value): string
    decreases v, 1
  {
    match v
    case Null => "null"
    case Bool(b) => if b then "true" else "false"
    case Int(i) => IntToString(i)
    case Frac(text) => text
    case Str(s) => s
    case Arr(items) => ItemsText(items)
    case Obj(_) => "[object Object]"
  }

  /** `Array.prototype.join(",")`, where `null` elements print as nothing. */
  function ItemsText(items: seq<Value>): string
    decreases items, 0
  {
    if items == [] then ""
    else
      var head := if items[0].Null? then "" else StringOf(items[0]);
      if |items| == 1 then head else head + "," + ItemsText(items[1..])
  }

  /** What `${x}` inserts into a template literal. */
  function TemplateOf(x: Option<Value>): (r: string)
    ensures x.None? ==> r == "undefined"
    ensures x.Some? && x.value.Str? ==> r == x.value.s
  {
    match x
    case None => "undefined"
    case Some(v) => StringOf(v)
  }

  /** `x.toString()`, which raises a TypeError on `null` and `undefined`. */
  function ToText(x: Option<Value>): (r: Result<string, string>)
    ensures r.Failure? <==> (x.None? || x.value.Null?)
    ensures x.Some? && x.value.Int? ==> r == Success(IntToString(x.value.i))
    ensures x.Some? && x.value.Str? ==> r == Success(x.value.s)
  {
    match x
    case None => Failure(ReadError("undefined", "toString"))
    case Some(v) => if v.Null? then Failure(ReadError("null", "toString")) else Success(StringOf(v))
  }

  const EntriesError := "Cannot convert undefined or null to object"

  /** An array's entries: each element under its index. */
  function ItemEntries(items: seq<Value>): (r: Fields)
    ensures |r| == |items|
    ensures forall k :: 0 <= k < |items| ==> r[k] == (NatToString(k), items[k])
  {
    seq(|items|, k requires 0 <= k < |items| => (NatToString(k), items[k]))
  }

  /** A string's entries: each character, as a string of its own, under its
      index. */
  function CharEntries(s: string): (r: Fields)
    ensures |r| == |s|
    ensures forall k :: 0 <= k < |s| ==> r[k] == (NatToString(k), Str([s[k]]))
  {
    seq(|s|, k requires 0 <= k < |s| => (NatToString(k), Str([s[k]])))
  }

  /** The elements of an array whose entries are `fields`, in order. */
  function ItemsOf(fields: Fields): (r: seq<Value>)
    ensures |r| == |fields|
    ensures forall k :: 0 <= k < |fields| ==> r[k] == fields[k].1
  {
    seq(|fields|, k requires 0 <= k < |fields| => fields[k].1)
  }

  /** `Object.entries(x)`: the members of an object in enumeration order,
      the elements of an array and the characters of a string under their
      indices, and nothing for a number or a boolean. */
  function Entries(x: Option<Value>): (r: Result<Fields, string>)
    ensures r.Failure? <==> (x.None? || x.value.Null?)
    ensures x.Some? && x.value.Obj? ==> r == Success(x.value.fields)
    ensures x.Some? && x.value.Arr? ==> r.Success? && |r.value| == |x.value.items|
                                        && forall k :: 0 <= k < |x.value.items| ==> r.value[k] == (NatToString(k), x.value.items[k])
    ensures x.Some? && x.value.Str? ==> r.Success? && |r.value| == |x.value.s|
                                        && forall k :: 0 <= k < |x.value.s| ==> r.value[k] == (NatToString(k), Str([x.value.s[k]]))
    ensures x.Some? && (x.value.Bool? || x.value.Int? || x.value.Frac?) ==> r == Success([])
  {
    match x
    case None => Failure(EntriesError)
    case Some(v) =>
      match v
      case Null => Failure(EntriesError)
      case Obj(fields) => Success(fields)
      case Arr(items) => Success(ItemEntries(items))
      case Str(s) => Success(CharEntries(s))
      case _ => Success([])
  }

  /** Keys in the order JavaScript enumerates an object's own properties:
      distinct, and the array-index keys first, in ascending order
      (section 10.1.11.1 of ECMA-262). */
  predicate EnumerationOrdered(keys: seq<string>) {
    forall i, j :: 0 <= i < j < |keys| ==>
      && keys[i] != keys[j]
      && (ArrayIndex(keys[j]).Some? ==> ArrayIndex(keys[i]).Some? && ArrayIndex(keys[i]).value < ArrayIndex(keys[j]).value)
  }

  /** The largest integer a JavaScript number holds exactly. */
  const MaxSafeInteger := 0x1F_FFFF_FFFF_FFFF

  /** The number of zeros `s` starts with. */
  function LeadingZeros(s: string): (r: nat)
    ensures r <= |s|
    ensures forall j :: 0 <= j < r ==> s[j] == '0'
    ensures r < |s| ==> s[r] != '0'
  {
    if s != [] && s[0] == '0' then 1 + LeadingZeros(s[1..]) else 0
  }

  /** The most significant digits a decimal may have and be sure to be
      printed back unchanged by `Number.prototype.toString`: a decimal of
      at most 15 significant digits is the shortest text of the double
      nearest to it. */
  const MaxExactDigits := 15

  /** Text `Number.prototype.toString` prints, in plain (not exponent)
      form, for a number that is not an integer: an optional minus sign,
      an integer part without superfluous leading zeros, a point, and a
      fraction ending in a non-zero digit. Only decimals of at most 15
      significant digits are admitted, and none below 10^-6, which print
      in exponent form (section 6.1.6.1.20 of ECMA-262). */
  predicate IsFractionText(t: string) {
    var body := if |t| > 0 && t[0] == '-' then t[1..] else t;
    var point := FindChar(body, '.');
    && point.Some?
    && var whole, fraction := body[..point.value], body[point.value + 1..];
       && IsCanonicalNumeral(whole) && |fraction| > 0 && AllDigits(fraction)
       && fraction[|fraction| - 1] != '0'
       && if whole == "0" then LeadingZeros(fraction) < 6 && |fraction| - LeadingZeros(fraction) <= MaxExactDigits
          else |whole| + |fraction| <= MaxExactDigits
  }

  /** Fraction text is never the text of an integer, signed or not, so a
      faithful `JSON.parse` reads it back as a fraction. */
  lemma FractionTextIsNotInteger(t: string)
    requires IsFractionText(t)
    ensures !AllDigits(t) && !(|t| > 0 && t[0] == '-' && AllDigits(t[1..]))
  {
    var body := if |t| > 0 && t[0] == '-' then t[1..] else t;
    var p := FindChar(body, '.').value;
    if |t| > 0 && t[0] == '-' {
      assert t[1..][p] == '.';
      assert t[p + 1] == '.';
    } else {
      assert t[p] == '.';
    }
  }

  /** Texts that are not JavaScript's printed form of a fraction: `1` is
      an integer, `""` and `abc` are no number, and `1.50` has a trailing
      zero. */
  lemma NotFractionTexts()
    ensures !IsFractionText("1") && !IsFractionText("") && !IsFractionText("abc")
    ensures !IsFractionText("1.50")
  {
    assert FindChar("1", '.').None?;
    assert FindChar("abc", '.').None?;
    assert FindChar("1.50", '.') == Some(1) && "1.50"[2..] == "50";
  }

  /** The text JavaScript prints for minus one quarter is fraction text. */
  lemma FractionTexts()
    ensures IsFractionText("-0.25")
  {
    assert "-0.25"[1..] == "0.25" && FindChar("0.25", '.') == Some(1);
    assert "0.25"[..1] == "0" && "0.25"[2..] == "25";
  }

  /** A value as `JSON.parse` can produce it, within what the model covers:
      every object's keys distinct and in enumeration order, every integer
      within the exactly held range, and every other number in the plain
      text `IsFractionText` admits. */
  predicate Canonical(v: Value)
    decreases v
  {
    match v
    case Int(i) => -MaxSafeInteger <= i <= MaxSafeInteger
    case Frac(t) => IsFractionText(t)
    case Arr(items) => forall k :: 0 <= k < |items| ==> Canonical(items[k])
    case Obj(fields) => EnumerationOrdered(Keys(fields)) && forall k :: 0 <= k < |fields| ==> Canonical(fields[k].1)
    case _ => true
  }

  /** A member read from a canonical object is canonical. */
  lemma LookupCanonical(fields: Fields, key: string)
    requires Canonical(Obj(fields)) && Lookup(fields, key).Some?
    ensures key in Keys(fields) && Canonical(Lookup(fields, key).value)
  {
    LookupFinds(fields, key);
  }

  /** Assigning a canonical value to a key the object already has keeps the
      object canonical: the keys and their order do not change. */
  lemma AssignKeepsCanonical(fields: Fields, key: string, v: Value)
    requires Canonical(Obj(fields)) && key in Keys(fields) && Canonical(v)
    ensures Canonical(Obj(Assign(fields, key, v)))
  {
    AssignPlaces(fields, key, v);
    AssignKeys(fields, key, v);
    var k :| 0 <= k < |fields| && fields[k].0 == key && key !in Keys(fields[..k])
             && Assign(fields, key, v) == fields[k := (key, v)];
  }

  /** The library services the system calls, as given functions:
      `parse` is `JSON.parse` (its error message on failure), `stringify`
      is `JSON.stringify(v, null, 2)`, `checksum` is the MD5 hex digest of
      the key-order-stable serialisation, and `validate` is the room schema
      check that yields the validated room or a readable message. */
  datatype Runtime = Runtime(
    parse: string -> Result<Value, string>,
    stringify: Value -> string,
    checksum: Value -> string,
    validate: Value -> Result<Value, string>)

  /** JSON text written by `stringify` reads back as the same value, for
      every canonical value. */
  ghost predicate RoundTrips(rt: Runtime) {
    forall v :: Canonical(v) ==> rt.parse(rt.stringify(v)) == Success(v)
  }
}
