/**
 * The genre label encoder.  Fitting keeps the distinct values in sorted
 * order, which is how scikit-learn's LabelEncoder builds `classes_`; a
 * value's code is its index in that list, and decoding indexes the list.
 */
module Encoder {
  import opened Wrappers
  import opened StringOrder

  datatype EncodeError = UnknownCategory(value: string) | UnknownCode(code: int)

  datatype LabelEncoder = LabelEncoder(classes: seq<string>)

  /** A fitted encoder: its class list is strictly sorted, so it has no repeats. */
  ghost predicate Valid(e: LabelEncoder)
  {
    StrictlySorted(e.classes)
  }

  /** Adds one value to a strictly sorted list, keeping it strictly sorted. */
  function Insert(s: seq<string>, x: string): (r: seq<string>)
    requires StrictlySorted(s)
    ensures StrictlySorted(r)
    ensures forall y :: y in r <==> y in s || y == x
  {
    if |s| == 0 then [x]
    else if x == s[0] then s
    else if Less(x, s[0]) then
      assert forall j :: 0 <= j < |s| ==> Less(x, s[j]) by {
        forall j | 0 <= j < |s|
          ensures Less(x, s[j])
        {
          if j > 0 {
            LessTransitive(x, s[0], s[j]);
          }
        }
      }
      [x] + s
    else
      LessTrichotomous(x, s[0]);
      var tail := Insert(s[1..], x);
      assert forall y :: y in tail ==> Less(s[0], y) by {
        forall y | y in tail
          ensures Less(s[0], y)
        {
          if y != x {
            var k :| 0 <= k < |s[1..]| && s[1..][k] == y;
            assert s[k + 1] == y;
          }
        }
      }
      assert s == [s[0]] + s[1..];
      [s[0]] + tail
  }

  /** The sorted distinct values of a column. */
  function Classes(values: seq<string>): (r: seq<string>)
    ensures StrictlySorted(r)
    ensures forall y :: y in r <==> y in values
  {
    if |values| == 0 then []
    else
      var init := values[..|values| - 1];
      assert values == init + [values[|values| - 1]];
      Insert(Classes(init), values[|values| - 1])
  }

  /** LabelEncoder.fit: a valid encoder whose classes are exactly the values seen. */
  function Fit(values: seq<string>): (e: LabelEncoder)
    ensures Valid(e)
    ensures forall y :: y in e.classes <==> y in values
  {
    LabelEncoder(Classes(values))
  }

  /** The fitted classes depend only on which values occur, not on their order or repetition. */
  lemma FitIgnoresOrder(values1: seq<string>, values2: seq<string>)
    requires forall y :: y in values1 <==> y in values2
    ensures Fit(values1) == Fit(values2)
  {
    SortedUnique(Fit(values1).classes, Fit(values2).classes);
  }

  /** Position of the first occurrence of `x` in `s`, if any. */
  function IndexOf(s: seq<string>, x: string): (r: Option<nat>)
    ensures r.None? <==> x !in s
    ensures r.Some? ==> r.value < |s| && s[r.value] == x
    ensures r.Some? ==> forall k :: 0 <= k < r.value ==> s[k] != x
  {
    if |s| == 0 then None
    else if s[0] == x then Some(0)
    else
      match IndexOf(s[1..], x)
      case None => None
      case Some(k) => Some(k + 1)
  }

  /** LabelEncoder.transform of one value: its code, or an error for an unseen value. */
  function Transform(e: LabelEncoder, value: string): (r: Result<nat, EncodeError>)
    ensures r.Failure? <==> value !in e.classes
    ensures r.Failure? ==> r.error == UnknownCategory(value)
    ensures r.Success? ==> r.value < |e.classes| && e.classes[r.value] == value
  {
    match IndexOf(e.classes, value)
    case None => Failure(UnknownCategory(value))
    case Some(k) => Success(k)
  }

  /**
   * The class a code indexes in `classes_`.  The `UnknownCode` branch is the
   * library's rejection of an out-of-range code; the program never reaches it.
   */
  function InverseTransform(e: LabelEncoder, code: int): (r: Result<string, EncodeError>)
    ensures r.Success? <==> 0 <= code < |e.classes|
    ensures r.Success? ==> r.value in e.classes
    ensures r.Failure? ==> r.error == UnknownCode(code)
  {
    if 0 <= code < |e.classes| then Success(e.classes[code]) else Failure(UnknownCode(code))
  }

  /** Decoding the code of a known value gives the value back. */
  lemma DecodeEncode(e: LabelEncoder, value: string)
    requires value in e.classes
    ensures Transform(e, value).Success?
    ensures InverseTransform(e, Transform(e, value).value) == Success(value)
  {
  }

  /** Every code 0..n-1 of a fitted encoder is the code of the class it indexes. */
  lemma EncodeDecode(e: LabelEncoder, code: nat)
    requires Valid(e)
    requires code < |e.classes|
    ensures InverseTransform(e, code).Success?
    ensures Transform(e, InverseTransform(e, code).value) == Success(code)
  {
    var r := Transform(e, e.classes[code]);
    if r.value != code {
      SortedDistinct(e.classes, r.value, code);
    }
  }

  /** Distinct values get distinct codes. */
  lemma TransformInjective(e: LabelEncoder, a: string, b: string)
    requires Transform(e, a).Success? && Transform(e, b).Success?
    requires Transform(e, a) == Transform(e, b)
    ensures a == b
  {
  }

  /** A fitted encoder maps its classes one-to-one onto the codes 0..n-1. */
  lemma TransformOnto(e: LabelEncoder, code: nat)
    requires Valid(e)
    requires code < |e.classes|
    ensures exists value :: value in e.classes && Transform(e, value) == Success(code)
  {
    EncodeDecode(e, code);
    assert e.classes[code] in e.classes;
  }

  /** An encoder fitted on Action and Comedy rejects Noir and codes Comedy as 1. */
  lemma TransformExamples()
    ensures Transform(Fit(["Comedy", "Action", "Comedy"]), "Noir") == Failure(UnknownCategory("Noir"))
    ensures Fit(["Comedy", "Action", "Comedy"]).classes == ["Action", "Comedy"]
    ensures Transform(Fit(["Comedy", "Action", "Comedy"]), "Comedy") == Success(1)
  {
    var e := Fit(["Comedy", "Action", "Comedy"]);
    assert Less("Action", "Comedy");
    SortedUnique(e.classes, ["Action", "Comedy"]);
    EncodeDecode(e, 1);
  }
}
