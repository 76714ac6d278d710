/**
 * The `sort` query parameter of JSON:API 1.0 ("Fetching Data", "Sorting"):
 * an immutable, ordered collection of sort fields, built from a
 * comma-separated string, a list of values, a single field or nothing.
 *
 * A single sort field (its parsing, casting and formatting) lives in a class
 * that is not part of this model. It is a type parameter `F` here, and its
 * three operations are arbitrary total functions gathered in a `FieldCodec`;
 * `None` stands for "the field class threw".
 */
module Query {
  import opened Wrappers

  /** The separator of `explode` and `implode`. */
  const Delimiter: char := ','

  /** The operations of the single-field class that this core calls. */
  datatype FieldCodec<!V, !F> = FieldCodec(
    parse: string -> Option<F>,  // the field's fromString
    cast: V -> Option<F>,        // the field's cast, for one element of a list
    show: F -> string)           // the field's toString

  /** The exceptions raised here; a field's own exception is kept as the position it came from. */
  datatype CastError =
    | UnexpectedValue            // UnexpectedValueException from cast
    | NotAnArray                 // InvalidArgumentException from fromArray
    | FieldRejected(position: nat)
  {
    /** The message of this package's own exceptions; a field's message belongs to the field class. */
    function Message(): string
      requires !FieldRejected?
    {
      match this
      case UnexpectedValue => "Unexpected sort fields value."
      case NotAnArray => "Expecting an array or enumerable object."
    }
  }

  /** The shapes of value that `cast` tells apart. */
  datatype SortValue<V, F> =
    | FieldsValue(fields: SortFields<F>)  // already a collection
    | FieldValue(field: F)                // a single sort field
    | ListValue(items: seq<V>)            // a PHP list or an Enumerable
    | StringValue(text: string)
    | NullValue
    | OtherValue                          // anything else (int, bool, other objects)

  /** The collection; `stack` is assigned by the constructor and never again. */
  datatype SortFields<F> = SortFields(stack: seq<F>) {

    function Count(): (n: nat)
      ensures n == |Iterate()|
    {
      |stack|
    }

    /** The fields in the order `getIterator` yields them. */
    function Iterate(): (s: seq<F>)
      ensures |s| == |stack| && forall i :: 0 <= i < |s| ==> s[i] == stack[i]
    {
      stack
    }

    predicate IsEmpty()
      ensures IsEmpty() <==> Count() == 0
    {
      |stack| == 0
    }

    predicate IsNotEmpty()
      ensures IsNotEmpty() <==> !IsEmpty()
      ensures IsNotEmpty() <==> Count() > 0
    {
      !IsEmpty()
    }

    /** Each field's string form, in insertion order. */
    function ToArray(show: F -> string): (r: seq<string>)
      ensures |r| == Count()
      ensures forall i :: 0 <= i < |r| ==> r[i] == show(Iterate()[i])
    {
      seq(|stack|, i requires 0 <= i < |stack| => show(stack[i]))
    }

    /**
     * The string forms joined by the delimiter. When no string form contains
     * the delimiter, splitting the result gives them back one by one.
     */
    function ToString(show: F -> string): (r: string)
      ensures |stack| == 0 ==> r == ""
      ensures |stack| > 0 && (forall i :: 0 <= i < |stack| ==> Delimiter !in show(stack[i]))
        ==> Explode(r) == ToArray(show) && CountDelimiters(r) == Count() - 1
    {
      var parts := ToArray(show);
      if |stack| > 0 && (forall i :: 0 <= i < |stack| ==> Delimiter !in show(stack[i])) then
        ExplodeImplode(parts);
        Implode(parts)
      else
        Implode(parts)
    }
  }

  // ---------------------------------------------------------------------
  // explode / implode on the delimiter

  function CountDelimiters(s: string): nat {
    if |s| == 0 then 0
    else (if s[0] == Delimiter then 1 else 0) + CountDelimiters(s[1..])
  }

  /**
   * PHP `explode(',', s)`: the maximal delimiter-free segments of `s`,
   * empty ones included, so that "" gives one empty segment.
   */
  function Explode(s: string): (r: seq<string>)
    ensures |r| == CountDelimiters(s) + 1
    ensures forall i :: 0 <= i < |r| ==> Delimiter !in r[i]
  {
    if |s| == 0 then [""]
    else
      var rest := Explode(s[1..]);
      if s[0] == Delimiter then [""] + rest
      else [[s[0]] + rest[0]] + rest[1..]
  }

  /** The characters of all parts together. */
  function TotalLength(parts: seq<string>): nat {
    if |parts| == 0 then 0 else |parts[0]| + TotalLength(parts[1..])
  }

  /** The delimiters inside all parts together. */
  function TotalDelimiters(parts: seq<string>): nat {
    if |parts| == 0 then 0 else CountDelimiters(parts[0]) + TotalDelimiters(parts[1..])
  }

  /**
   * PHP `implode(',', parts)`: the parts in order, the first one leading,
   * with exactly one delimiter added between each neighbouring pair.
   */
  function Implode(parts: seq<string>): (r: string)
    ensures |parts| == 0 ==> r == ""
    ensures |parts| > 0 ==> |r| == TotalLength(parts) + |parts| - 1
    ensures |parts| > 0 ==> CountDelimiters(r) == TotalDelimiters(parts) + |parts| - 1
    ensures |parts| > 0 ==> parts[0] <= r
    ensures |parts| > 1 ==> r[|parts[0]|] == Delimiter
  {
    if |parts| == 0 then ""
    else if |parts| == 1 then parts[0]
    else
      var tail := Implode(parts[1..]);
      DelimitersOfConcat(parts[0], [Delimiter] + tail);
      assert ([Delimiter] + tail)[1..] == tail;
      assert parts[0] + [Delimiter] + tail == parts[0] + ([Delimiter] + tail);
      parts[0] + [Delimiter] + tail
  }

  /** Delimiters of a concatenation add up. */
  lemma {:induction false} DelimitersOfConcat(a: string, b: string)
    ensures CountDelimiters(a + b) == CountDelimiters(a) + CountDelimiters(b)
  {
    if |a| > 0 {
      DelimitersOfConcat(a[1..], b);
      assert (a + b)[1..] == a[1..] + b;
    } else {
      assert a + b == b;
    }
  }

  /** The segments of `explode` put back together give the input. */
  lemma {:induction false} ImplodeExplode(s: string)
    ensures Implode(Explode(s)) == s
  {
    if |s| > 0 {
      var rest := Explode(s[1..]);
      ImplodeExplode(s[1..]);
      if s[0] == Delimiter {
        assert Explode(s) == [""] + rest;
        assert ([""] + rest)[1..] == rest;
      } else if |rest| == 1 {
        assert Explode(s) == [[s[0]] + rest[0]];
      } else {
        var segs := [[s[0]] + rest[0]] + rest[1..];
        assert segs[1..] == rest[1..];
        assert Implode(rest) == rest[0] + [Delimiter] + Implode(rest[1..]);
      }
    }
  }

  /** A delimiter-free string is a single segment. */
  lemma {:induction false} ExplodeWhole(a: string)
    requires Delimiter !in a
    ensures Explode(a) == [a]
  {
    if |a| > 0 {
      ExplodeWhole(a[1..]);
      assert [a[0]] + a[1..] == a;
    }
  }

  /** A delimiter-free prefix followed by the delimiter is split off as the first segment. */
  lemma {:induction false} ExplodeAfterSegment(a: string, t: string)
    requires Delimiter !in a
    ensures Explode(a + [Delimiter] + t) == [a] + Explode(t)
  {
    var s := a + [Delimiter] + t;
    if |a| == 0 {
      assert s[0] == Delimiter && s[1..] == t;
    } else {
      assert s[1..] == a[1..] + [Delimiter] + t;
      ExplodeAfterSegment(a[1..], t);
      assert [a[0]] + a[1..] == a;
    }
  }

  /** `explode` undoes `implode` when no part contains the delimiter and there is at least one part. */
  lemma {:induction false} ExplodeImplode(parts: seq<string>)
    requires |parts| > 0
    requires forall i :: 0 <= i < |parts| ==> Delimiter !in parts[i]
    ensures Explode(Implode(parts)) == parts
  {
    if |parts| == 1 {
      ExplodeWhole(parts[0]);
    } else {
      ExplodeImplode(parts[1..]);
      ExplodeAfterSegment(parts[0], Implode(parts[1..]));
      assert [parts[0]] + parts[1..] == parts;
    }
  }

  // ---------------------------------------------------------------------
  // building a collection

  /**
   * `collect($xs)->map($f)` followed by spreading into the constructor:
   * every element is converted left to right, and the first element the
   * field class rejects ends the construction with its position.
   */
  function MapFields<X, F>(f: X -> Option<F>, xs: seq<X>): (r: Result<seq<F>, nat>)
    ensures r.Ok? <==> forall i :: 0 <= i < |xs| ==> f(xs[i]).Some?
    ensures r.Ok? ==> |r.value| == |xs| && forall i :: 0 <= i < |xs| ==> f(xs[i]) == Some(r.value[i])
    ensures r.Err? ==> r.error < |xs| && f(xs[r.error]).None?
    ensures r.Err? ==> forall j :: 0 <= j < r.error ==> f(xs[j]).Some?
  {
    if |xs| == 0 then Ok([])
    else match f(xs[0])
      case None => Err(0)
      case Some(y) =>
        match MapFields(f, xs[1..])
        case Err(k) => Err(k + 1)
        case Ok(ys) => Ok([y] + ys)
  }

  /** `fromString`: one field per comma-separated segment, empty segments included. */
  function FromString<V, F>(codec: FieldCodec<V, F>, text: string): (r: Result<SortFields<F>, CastError>)
    ensures r.Ok? ==> forall i :: 0 <= i < |Explode(text)| ==> codec.parse(Explode(text)[i]).Some?
    ensures (forall i :: 0 <= i < |Explode(text)| ==> codec.parse(Explode(text)[i]).Some?) ==> r.Ok?
    ensures r.Ok? ==> r.value.Count() == CountDelimiters(text) + 1
    ensures r.Ok? ==> forall i :: 0 <= i < r.value.Count() ==> codec.parse(Explode(text)[i]) == Some(r.value.stack[i])
    ensures r.Err? ==> r.error.FieldRejected? && r.error.position <= CountDelimiters(text)
    ensures r.Err? ==> codec.parse(Explode(text)[r.error.position]).None?
    ensures r.Err? ==> forall j :: 0 <= j < r.error.position ==> codec.parse(Explode(text)[j]).Some?
  {
    var segments := Explode(text);
    var mapped := MapFields(codec.parse, segments);
    if mapped.Ok? then Ok(SortFields(mapped.value))
    else Err(FieldRejected(mapped.error))
  }

  /** `fromArray`: only a list (or Enumerable) is accepted; each element goes through the field's cast, in order. */
  function FromArray<V, F>(codec: FieldCodec<V, F>, value: SortValue<V, F>): (r: Result<SortFields<F>, CastError>)
    ensures !value.ListValue? <==> r == Err(NotAnArray)
    ensures value.ListValue? ==> (r.Ok? <==> forall i :: 0 <= i < |value.items| ==> codec.cast(value.items[i]).Some?)
    ensures r.Ok? ==> r.value.Count() == |value.items|
    ensures r.Ok? ==> forall i :: 0 <= i < |value.items| ==> codec.cast(value.items[i]) == Some(r.value.stack[i])
    ensures value.ListValue? && r.Err? ==> r.error.FieldRejected? && r.error.position < |value.items|
    ensures value.ListValue? && r.Err? ==> codec.cast(value.items[r.error.position]).None?
    ensures value.ListValue? && r.Err? ==> forall j :: 0 <= j < r.error.position ==> codec.cast(value.items[j]).Some?
    ensures !value.ListValue? ==> r.error.Message() == "Expecting an array or enumerable object."
  {
    if !value.ListValue? then Err(NotAnArray)
    else
      var mapped := MapFields(codec.cast, value.items);
      if mapped.Ok? then Ok(SortFields(mapped.value)) else Err(FieldRejected(mapped.error))
  }

  /** `cast`: dispatch on the shape of the value. */
  function Cast<V, F>(codec: FieldCodec<V, F>, value: SortValue<V, F>): (r: Result<SortFields<F>, CastError>)
    ensures value.FieldsValue? ==> r == Ok(value.fields)
    ensures value.FieldValue? ==> r.Ok? && r.value.Count() == 1 && r.value.stack[0] == value.field
    ensures value.NullValue? ==> r.Ok? && r.value.Count() == 0 && r.value.IsEmpty() && !r.value.IsNotEmpty()
    ensures r == Err(UnexpectedValue) <==> value.OtherValue?
    ensures value.OtherValue? ==> r.error.Message() == "Unexpected sort fields value."
    ensures r.Err? ==> r.error != NotAnArray
    ensures value.ListValue? ==> r == FromArray(codec, value)
    ensures value.StringValue? ==> r == FromString(codec, value.text)
  {
    match value
    case FieldsValue(fields) => Ok(fields)
    case FieldValue(field) => Ok(SortFields([field]))
    case ListValue(_) => FromArray(codec, value)
    case StringValue(text) => FromString(codec, text)
    case NullValue => Ok(SortFields([]))
    case OtherValue => Err(UnexpectedValue)
  }

  /** `nullable`: null stays null; anything else is cast. */
  function Nullable<V, F>(codec: FieldCodec<V, F>, value: SortValue<V, F>): (r: Result<Option<SortFields<F>>, CastError>)
    ensures value.NullValue? <==> r == Ok(None)
    ensures !value.NullValue? ==> match Cast(codec, value)
      case Ok(x) => r == Ok(Some(x))
      case Err(e) => r == Err(e)
  {
    if value.NullValue? then Ok(None)
    else match Cast(codec, value)
      case Ok(x) => Ok(Some(x))
      case Err(e) => Err(e)
  }

  // ---------------------------------------------------------------------
  // serialising and parsing back

  /** The round-trip law assumed of the field class for the fields of `x`. */
  ghost predicate FieldsRoundTrip<V, F>(codec: FieldCodec<V, F>, x: SortFields<F>) {
    forall i :: 0 <= i < |x.stack| ==>
      Delimiter !in codec.show(x.stack[i]) && codec.parse(codec.show(x.stack[i])) == Some(x.stack[i])
  }

  /** A non-empty collection survives `toString` then `fromString` unchanged. */
  lemma {:induction false} RoundTrip<V, F>(codec: FieldCodec<V, F>, x: SortFields<F>)
    requires x.IsNotEmpty()
    requires FieldsRoundTrip(codec, x)
    ensures FromString(codec, x.ToString(codec.show)) == Ok(x)
  {
    var parts := x.ToArray(codec.show);
    var text := x.ToString(codec.show);
    assert Explode(text) == parts;
    var r := FromString(codec, text);
    assert r.Ok?;
    assert |r.value.stack| == |x.stack|;
    assert forall i :: 0 <= i < |x.stack| ==> r.value.stack[i] == x.stack[i] by {
      forall i | 0 <= i < |x.stack| ensures r.value.stack[i] == x.stack[i] {
        assert codec.parse(parts[i]) == Some(r.value.stack[i]);
      }
    }
    assert r.value.stack == x.stack;
  }

  /**
   * The empty collection does not survive the round trip: its string is "",
   * which `fromString` splits into one empty segment.
   */
  lemma EmptyRoundTrip<V, F>(codec: FieldCodec<V, F>)
    ensures var empty: SortFields<F> := SortFields([]);
      var r := FromString(codec, empty.ToString(codec.show));
      r != Ok(empty) && (r.Ok? ==> r.value.Count() == 1)
  {
  }
}
