/** JSON values as the service receives them from its body parser and sends them back,
    together with the few JavaScript conversions the handlers apply to them:
    truthiness, own-property lookup and String() conversion. */
module Json {

  datatype Option<+T> = None | Some(value: T)

  /** A parsed JSON value. Numbers are integers; object key order is not kept. */
  datatype Json =
    | Null
    | Bool(b: bool)
    | Num(n: int)
    | Str(s: string)
    | Arr(items: seq<Json>)
    | Obj(fields: map<string, Json>)

  const EmptyObject: Json := Obj(map[])

  /** Own property `key` of `v`; only objects carry named own properties. */
  function Get(v: Json, key: string): Option<Json>
  {
    if v.Obj? && key in v.fields then Some(v.fields[key]) else None
  }

  /** JavaScript truthiness of a property read; an absent property reads as `undefined`. */
  predicate Truthy(v: Option<Json>)
  {
    match v
    case None => false
    case Some(Null) => false
    case Some(Bool(b)) => b
    case Some(Num(n)) => n != 0
    case Some(Str(s)) => s != ""
    case Some(Arr(_)) => true
    case Some(Obj(_)) => true
  }

  lemma FalsyValues(v: Option<Json>)
    ensures !Truthy(v) <==>
      v == None || v == Some(Null) || v == Some(Bool(false)) || v == Some(Num(0)) || v == Some(Str(""))
  {
  }

  predicate IsDigit(c: char) { '0' <= c <= '9' }

  /** Decimal notation of a natural number, most significant digit first. */
  function NatToDecimal(n: nat): (r: string)
    ensures |r| >= 1
    ensures forall i :: 0 <= i < |r| ==> IsDigit(r[i])
  {
    if n < 10 then ["0123456789"[n]]
    else NatToDecimal(n / 10) + ["0123456789"[n % 10]]
  }

  /** Decimal notation of an integer, as String() writes an integral number. */
  function IntToDecimal(n: int): string
  {
    if n < 0 then "-" + NatToDecimal(-n) else NatToDecimal(n)
  }

  /** String(v): what a property lookup `obj[v]` and a template literal `${v}` turn `v` into.
      An array is joined with "," (null elements become ""); an object is "[object Object]",
      unless it carries an own "toString" key: a parsed value is never callable, so the
      conversion throws a TypeError, written here as None. */
  function ToJsString(v: Json): Option<string>
    decreases v, 0
  {
    match v
    case Null => Some("null")
    case Bool(b) => Some(if b then "true" else "false")
    case Num(n) => Some(IntToDecimal(n))
    case Str(s) => Some(s)
    case Arr(items) => Join(items)
    case Obj(fields) => if "toString" in fields then None else Some("[object Object]")
  }

  /** One array element inside `Array.prototype.join`: null becomes the empty string. */
  function ElementString(e: Json): Option<string>
    decreases e, 1
  {
    if e.Null? then Some("") else ToJsString(e)
  }

  /** `items.join(",")`. */
  function Join(items: seq<Json>): Option<string>
    decreases items
  {
    if |items| == 0 then Some("")
    else if |items| == 1 then ElementString(items[0])
    else
      match ElementString(items[0])
      case None => None
      case Some(head) =>
        match Join(items[1..])
        case None => None
        case Some(tail) => Some(head + "," + tail)
  }

  /** Whether `v`, or an element of `v` at any depth of arrays, is an object with an own
      "toString" key: the values for which String() throws. */
  predicate HasOwnToString(v: Json)
    decreases v
  {
    match v
    case Obj(fields) => "toString" in fields
    case Arr(items) => exists i :: 0 <= i < |items| && HasOwnToString(items[i])
    case _ => false
  }

  /** String() throws exactly for values carrying an own "toString" key, at the top or
      inside arrays; every other parsed value converts. */
  lemma {:induction false} ToJsStringFailsExactly(v: Json)
    ensures ToJsString(v).None? <==> HasOwnToString(v)
    decreases v, 0
  {
    match v
    case Arr(items) => JoinFailsExactly(items);
    case _ =>
  }

  lemma {:induction false} ElementStringFailsExactly(e: Json)
    ensures ElementString(e).None? <==> HasOwnToString(e)
    decreases e, 1
  {
    if !e.Null? {
      ToJsStringFailsExactly(e);
    }
  }

  /** `join` throws exactly when one of the elements throws. */
  lemma {:induction false} JoinFailsExactly(items: seq<Json>)
    ensures Join(items).None? <==> exists i :: 0 <= i < |items| && HasOwnToString(items[i])
    decreases items
  {
    if |items| == 1 {
      ElementStringFailsExactly(items[0]);
    } else if |items| >= 2 {
      ElementStringFailsExactly(items[0]);
      JoinFailsExactly(items[1..]);
      if exists i :: 1 <= i < |items| && HasOwnToString(items[i]) {
        var i :| 1 <= i < |items| && HasOwnToString(items[i]);
        assert items[1..][i - 1] == items[i];
      }
      if exists j :: 0 <= j < |items| - 1 && HasOwnToString(items[1..][j]) {
        var j :| 0 <= j < |items| - 1 && HasOwnToString(items[1..][j]);
        assert items[1..][j] == items[j + 1];
      }
    }
  }

  /** A value whose String() is a word starting with neither a digit nor a sign is truthy. */
  lemma NamedValueIsTruthy(v: Json, k: string)
    requires ToJsString(v) == Some(k)
    requires k != "null" && k != "false" && 0 < |k| && !IsDigit(k[0]) && k[0] != '-'
    ensures Truthy(Some(v))
  {
  }

  /** Joining two or more elements always writes a comma. */
  lemma {:induction false} JoinOfSeveralHasComma(items: seq<Json>, r: string)
    requires |items| >= 2 && Join(items) == Some(r)
    ensures ',' in r
  {
    var head := ElementString(items[0]).value;
    var tail := Join(items[1..]).value;
    assert r == head + "," + tail;
    assert r[|head|] == ',';
  }

  /** The only values whose String() is a comma-free name made of at least one letter
      are that string itself and a one-element array around such a value. */
  lemma {:induction false} NameShapes(v: Json, k: string)
    requires ToJsString(v) == Some(k)
    requires ',' !in k && k != "null" && k != "true" && k != "false" && k != "[object Object]"
    requires exists i :: 0 <= i < |k| && !IsDigit(k[i]) && k[i] != '-'
    ensures v == Str(k) || (v.Arr? && |v.items| == 1 && v.items[0] != Null && ToJsString(v.items[0]) == Some(k))
  {
    match v
    case Arr(items) =>
      if |items| >= 2 {
        JoinOfSeveralHasComma(items, k);
      } else if |items| == 1 {
        assert ElementString(items[0]) == Some(k);
      }
    case _ =>
  }
}
