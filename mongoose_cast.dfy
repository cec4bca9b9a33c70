/**
 * Mongoose's casts of the values a request body supplies for schema paths of
 * type String, Number and Boolean, and for arrays of them. Casting keeps
 * `null` as `null`, turns an acceptable value into the path's type, and throws
 * a CastError for anything else.
 */
module MongooseCast {
  import opened Wrappers
  import opened Json
  import opened Text
  import UserModel

  /** A cast path: left undefined, null, or a value of the schema type; or a cast error. */
  datatype Cast<T> = Cast(path: Path<T>) | CastError

  /** The cast value, with undefined, null and a cast error all `None`. */
  function Present<T>(c: Cast<T>): Option<T> {
    if c.Cast? && c.path.Given? then Some(c.path.value) else None
  }

  /** An integer in decimal, as `String(n)` writes it. */
  function NumberString(n: int): (s: string)
    ensures |s| > 0
  {
    if n < 0 then "-" + UserModel.IdString(-n) else UserModel.IdString(n)
  }

  /**
   * castString: strings as they are, numbers and booleans written out, an
   * object by its non-empty string `_id`; arrays and other objects throw.
   */
  function CastString(v: Json): (r: Cast<string>)
    ensures r == Cast(Null) <==> v.JNull?
    ensures v.JStr? ==> r == Cast(Given(v.s))
    ensures v.JArr? ==> r.CastError?
    ensures r.Cast? && r.path == Given("") ==> v == JStr("")
  {
    match v
    case JNull => Cast(Null)
    case JStr(s) => Cast(Given(s))
    case JNum(n) => Cast(Given(NumberString(n)))
    case JBool(b) => Cast(Given(if b then "true" else "false"))
    case JArr(_) => CastError
    case JObj(fields) =>
      if "_id" in fields && fields["_id"].JStr? && fields["_id"].s != "" then Cast(Given(fields["_id"].s))
      else CastError
  }

  predicate IsDigit(c: char) {
    '0' <= c <= '9'
  }

  predicate AllDigits(s: string) {
    |s| > 0 && forall i :: 0 <= i < |s| ==> IsDigit(s[i])
  }

  /** The value of a string of decimal digits. */
  function Decimal(s: string): nat
    requires forall i :: 0 <= i < |s| ==> IsDigit(s[i])
  {
    if s == [] then 0
    else
      assert IsDigit(s[|s| - 1]);
      Decimal(s[..|s| - 1]) * 10 + ((s[|s| - 1] as int) - ('0' as int))
  }

  /**
   * `Number(s)` of a string that is not empty: surrounding whitespace is
   * ignored, a blank string is 0, and an optionally signed run of decimal
   * digits is its value. Anything else is NaN, which fails the cast.
   */
  function NumberOf(s: string): (r: Cast<int>)
    requires s != ""
    ensures r.Cast? ==> r.path.Given?
  {
    var t := Trim(s);
    if t == "" then Cast(Given(0))
    else if AllDigits(t) then Cast(Given(Decimal(t)))
    else if |t| > 1 && t[0] == '-' && AllDigits(t[1..]) then Cast(Given(-(Decimal(t[1..]) as int)))
    else if |t| > 1 && t[0] == '+' && AllDigits(t[1..]) then Cast(Given(Decimal(t[1..])))
    else CastError
  }

  /** castNumber: `null` and `""` are null, booleans are 1 and 0, strings go through `Number`. */
  function CastNumber(v: Json): (r: Cast<int>)
    ensures r == Cast(Null) <==> v.JNull? || v == JStr("")
    ensures v.JNum? ==> r == Cast(Given(v.n))
    ensures v.JArr? || v.JObj? ==> r.CastError?
  {
    match v
    case JNull => Cast(Null)
    case JNum(n) => Cast(Given(n))
    case JBool(b) => Cast(Given(if b then 1 else 0))
    case JStr(s) => if s == "" then Cast(Null) else NumberOf(s)
    case _ => CastError
  }

  /** castBoolean: the five spellings of true, the five of false, and `null`; anything else throws. */
  function CastBoolean(v: Json): (r: Cast<bool>)
    ensures r == Cast(Given(true)) <==> v in {JBool(true), JStr("true"), JNum(1), JStr("1"), JStr("yes")}
    ensures r == Cast(Given(false)) <==> v in {JBool(false), JStr("false"), JNum(0), JStr("0"), JStr("no")}
    ensures r == Cast(Null) <==> v.JNull?
    ensures r.Cast? ==> !r.path.Undefined?
  {
    match v
    case JNull => Cast(Null)
    case JBool(b) => Cast(Given(b))
    case JNum(n) => if n == 1 then Cast(Given(true)) else if n == 0 then Cast(Given(false)) else CastError
    case JStr(s) =>
      if s == "true" || s == "1" || s == "yes" then Cast(Given(true))
      else if s == "false" || s == "0" || s == "no" then Cast(Given(false))
      else CastError
    case _ => CastError
  }

  /** A scalar path: undefined stays undefined, anything else is cast. */
  function CastPath<T>(v: Option<Json>, cast: Json -> Cast<T>): Cast<T> {
    if v.None? then Cast(Undefined) else cast(v.value)
  }

  /** Casts every element of an array, a null element staying null; one failure fails the array. */
  function CastEach<T>(items: seq<Json>, cast: Json -> Cast<T>): (r: Option<seq<Option<T>>>)
    ensures r.Some? <==> forall i :: 0 <= i < |items| ==> !cast(items[i]).CastError?
    ensures r.Some? ==> |r.value| == |items| && forall i :: 0 <= i < |items| ==> r.value[i] == Present(cast(items[i]))
  {
    if items == [] then Some([])
    else match (cast(items[0]), CastEach(items[1..], cast))
      case (CastError, _) => None
      case (_, None) => None
      case (c, Some(xs)) => Some([Present(c)] + xs)
  }

  /**
   * An array path: undefined and null leave it unset, an array has each
   * element cast, and any other value is wrapped in a one-element array first.
   */
  function CastArray<T>(v: Option<Json>, cast: Json -> Cast<T>): (r: Cast<seq<Option<T>>>)
    ensures r == Cast(Undefined) <==> v.None? || v == Some(JNull)
    ensures r.Cast? ==> !r.path.Null?
    ensures r.Cast? && r.path.Given? && v.value.JArr? ==> |r.path.value| == |v.value.items|
    ensures r.Cast? && r.path.Given? && !v.value.JArr? ==> |r.path.value| == 1
  {
    match v
    case None => Cast(Undefined)
    case Some(JNull) => Cast(Undefined)
    case Some(JArr(items)) => (match CastEach(items, cast) case Some(xs) => Cast(Given(xs)) case None => CastError)
    case Some(x) => (match CastEach([x], cast) case Some(xs) => Cast(Given(xs)) case None => CastError)
  }

  /** A nullable string as JSON. */
  function StringOrNull(o: Option<string>): Json {
    if o.Some? then JStr(o.value) else JNull
  }

  /** A nullable number as JSON. */
  function NumberOrNull(o: Option<int>): Json {
    if o.Some? then JNum(o.value) else JNull
  }

  function Strings(xs: seq<Option<string>>): seq<Json> {
    seq(|xs|, i requires 0 <= i < |xs| => StringOrNull(xs[i]))
  }

  function Numbers(xs: seq<Option<int>>): seq<Json> {
    seq(|xs|, i requires 0 <= i < |xs| => NumberOrNull(xs[i]))
  }

  /** An array of strings and nulls casts back to exactly those strings and nulls. */
  lemma CastStrings(xs: seq<Option<string>>)
    ensures CastEach(Strings(xs), CastString) == Some(xs)
  {
    var r := CastEach(Strings(xs), CastString);
    assert r.Some?;
    assert r.value == xs;
  }

  /** An array of numbers and nulls casts back to exactly those numbers and nulls. */
  lemma CastNumbers(xs: seq<Option<int>>)
    ensures CastEach(Numbers(xs), CastNumber) == Some(xs)
  {
    var r := CastEach(Numbers(xs), CastNumber);
    assert r.Some?;
    assert r.value == xs;
  }

  /** A decimal id is all digits and reads back as the id. */
  lemma {:induction false} DecimalOfIdString(n: nat)
    ensures AllDigits(UserModel.IdString(n)) && Decimal(UserModel.IdString(n)) == n
    decreases n
  {
    var s := UserModel.IdString(n);
    if n >= 10 {
      DecimalOfIdString(n / 10);
      assert s[..|s| - 1] == UserModel.IdString(n / 10);
    }
  }

  /** A number written out by `String` casts back to the same number. */
  lemma NumberStringRoundTrip(n: int)
    ensures CastNumber(JStr(NumberString(n))) == Cast(Given(n))
  {
    var s := NumberString(n);
    var d := UserModel.IdString(if n < 0 then -n else n);
    DecimalOfIdString(if n < 0 then -n else n);
    assert IsTrimmed(s);
    TrimOfTrimmed(s);
    if n < 0 {
      assert s[1..] == d;
      assert !IsDigit(s[0]);
    }
  }
}
