/**
 * The failure-tolerant tag accessors of the RT parser.
 *
 * A parsed DICOM dataset is modelled as a map from tag key (`x0020000e`) to
 * an element: the element's value bytes decoded as text, whether the
 * parsing library can read the element at all (when it cannot, every
 * library call on it throws), and the items of a sequence element (each a
 * nested dataset; empty for other elements). `parseFloat` and `parseInt`
 * are parameters: they return `None` where JavaScript gives `NaN`, and the
 * accessors that return a single number return a `Number`, which keeps
 * `NaN` as a value of its own.
 */
module DicomTags {
  import opened Wrappers
  import opened Strings

  datatype DataSet = DataSet(elements: map<string, Element>)
  datatype Element = Element(text: string, readable: bool, items: seq<DataSet>)

  /** `parseFloat`; `None` stands for `NaN`. */
  type FloatParser = string -> Option<real>
  /** `parseInt`; `None` stands for `NaN`. */
  type IntParser = string -> Option<int>

  /** What a call into the parsing library does: return a value (`None` is `undefined`) or throw. */
  datatype Access<T> = Returned(value: Option<T>) | Threw

  /** A JavaScript number as the decoders meet it: a value, or `NaN`. */
  datatype Number = Number(value: real) | NaN

  /** `parseFloat(s)` as a JavaScript number. */
  function ParseFloat(pf: FloatParser, s: string): (r: Number)
    ensures r.NaN? <==> pf(s).None?
    ensures r.Number? ==> pf(s) == Some(r.value)
  {
    match pf(s)
    case Some(v) => Number(v)
    case None => NaN
  }

  /** `parseInt(s)` as a JavaScript number. */
  function ParseInt(pi: IntParser, s: string): (r: Number)
    ensures r.NaN? <==> pi(s).None?
    ensures r.Number? ==> pi(s) == Some(r.value.Floor) && r.value == r.value.Floor as real
  {
    match pi(s)
    case Some(i) => Number(i as real)
    case None => NaN
  }

  /** `a === b` on numbers: `NaN` equals nothing, itself included. */
  function StrictEquals(a: Number, b: Number): (r: bool)
    ensures r <==> a.Number? && b.Number? && a.value == b.value
    ensures a.NaN? || b.NaN? ==> !r
  {
    match (a, b)
    case (Number(x), Number(y)) => x == y
    case _ => false
  }

  const Backslash: char := '\\'

  // ---- The parsing library's element readers (behaviour of the library, not of this repository) ----

  /** `dataSet.string(tag)`: the trimmed text; `undefined` for an absent or empty element. */
  function LibString(ds: DataSet, tag: string): Access<string>
  {
    if tag !in ds.elements || ds.elements[tag].text == "" then Returned(None)
    else if !ds.elements[tag].readable then Threw
    else Returned(Some(Trim(ds.elements[tag].text)))
  }

  /** The first backslash-separated value of an element, trimmed (`dataSet.string(tag, 0)`). */
  function FirstValue(text: string): string
  {
    Trim(Split(text, Backslash)[0])
  }

  /** `dataSet.floatString(tag)`: `parseFloat` of the first value; `undefined` for an absent or empty element. */
  function LibFloatString(ds: DataSet, tag: string, pf: FloatParser): Access<Number>
  {
    if tag !in ds.elements || ds.elements[tag].text == "" then Returned(None)
    else if !ds.elements[tag].readable then Threw
    else Returned(Some(ParseFloat(pf, FirstValue(ds.elements[tag].text))))
  }

  /** `dataSet.intString(tag)`: `parseInt` of the first value; `undefined` for an absent or empty element. */
  function LibIntString(ds: DataSet, tag: string, pi: IntParser): Access<Number>
  {
    if tag !in ds.elements || ds.elements[tag].text == "" then Returned(None)
    else if !ds.elements[tag].readable then Threw
    else Returned(Some(ParseInt(pi, FirstValue(ds.elements[tag].text))))
  }

  /** `dataSet.elements[tag]?.items ?? []`. */
  function Items(ds: DataSet, tag: string): seq<DataSet>
  {
    if tag in ds.elements then ds.elements[tag].items else []
  }

  /** The element is present, has value bytes, and the library can read them. */
  predicate Readable(ds: DataSet, tag: string)
  {
    tag in ds.elements && ds.elements[tag].text != "" && ds.elements[tag].readable
  }

  // ---- The repository's accessors ----

  /** `getString`: never throws; a missing, empty or unreadable element gives the default. */
  function GetString(ds: DataSet, tag: string, default: string := ""): (r: string)
    ensures !Readable(ds, tag) ==> r == default
    ensures Readable(ds, tag) ==> r == Trim(ds.elements[tag].text)
  {
    match LibString(ds, tag)
    case Threw => default
    case Returned(v) => v.GetOr(default)
  }

  /** `getOptionalString`: never throws; a missing, empty or unreadable element gives `undefined`. */
  function GetOptionalString(ds: DataSet, tag: string): (r: Option<string>)
    ensures r.None? <==> !Readable(ds, tag)
    ensures r.Some? ==> r.value == GetString(ds, tag)
  {
    match LibString(ds, tag)
    case Threw => None
    case Returned(v) => v
  }

  /**
   * `getNumber`: the float reading, else the integer reading, else the
   * default. On a readable element the float reading returns a number —
   * `NaN` when the first value does not parse — so the integer reading is
   * reached only when the float reading gave `undefined` or threw, and then
   * it gives `undefined` or throws too.
   */
  function GetNumber(ds: DataSet, tag: string, pf: FloatParser, pi: IntParser, default: real := 0.0): (r: Number)
    ensures !Readable(ds, tag) ==> r == Number(default)
    ensures Readable(ds, tag) ==> r == ParseFloat(pf, FirstValue(ds.elements[tag].text))
    ensures r.NaN? <==> Readable(ds, tag) && pf(FirstValue(ds.elements[tag].text)).None?
  {
    match LibFloatString(ds, tag, pf)
    case Returned(Some(v)) => v
    case _ =>
      // `undefined` in the try block, or the catch block after a throw: the
      // integer reading follows either way (a throw from it in the try block
      // reaches the catch block, which reads it again)
      match LibIntString(ds, tag, pi)
      case Returned(Some(i)) => i
      case _ => Number(default)
  }

  /** `getOptionalNumber`: the float reading, else the integer reading; `undefined` on a throw. */
  function GetOptionalNumber(ds: DataSet, tag: string, pf: FloatParser, pi: IntParser): (r: Option<Number>)
    ensures r.None? <==> !Readable(ds, tag)
    ensures r.Some? ==> r.value == GetNumber(ds, tag, pf, pi) && r.value == ParseFloat(pf, FirstValue(ds.elements[tag].text))
  {
    match LibFloatString(ds, tag, pf)
    case Returned(Some(v)) => Some(v)
    case Returned(None) =>
      (match LibIntString(ds, tag, pi)
       case Returned(v) => v
       case Threw => None)
    case Threw => None
  }

  /** The element is present and has value bytes, but the library cannot read them: every library call on it throws. */
  predicate Unreadable(ds: DataSet, tag: string)
  {
    tag in ds.elements && ds.elements[tag].text != "" && !ds.elements[tag].readable
  }

  // ---- Backslash-delimited number arrays ----

  /**
   * The backslash-separated values of an element, or `None` when the
   * accessors return their fallback before splitting: the element is
   * absent, has no bytes, cannot be read, or holds only white space.
   */
  function ValueTokens(ds: DataSet, tag: string): (r: Option<seq<string>>)
    ensures r.Some? ==> |r.value| >= 1
  {
    if !Readable(ds, tag) then None
    else
      var full := Trim(ds.elements[tag].text);
      if full == "" then None else Some(Split(full, Backslash))
  }

  /** The number one value denotes: `None` when it is blank after trimming or does not parse. */
  function ParsedToken(t: string, pf: FloatParser): Option<real>
  {
    var tt := Trim(t);
    if |tt| > 0 then pf(tt) else None
  }

  /** The reading of every value, in order. */
  function ParsedTokens(tokens: seq<string>, pf: FloatParser): (r: seq<Option<real>>)
    ensures |r| == |tokens|
  {
    seq(|tokens|, i requires 0 <= i < |tokens| => ParsedToken(tokens[i], pf))
  }

  /** The lenient decoding: the numbers that were read, in order, skipping the values that were not. */
  function LenientNumbers(vals: seq<Option<real>>): seq<real>
  {
    if |vals| == 0 then []
    else
      var head := LenientNumbers(vals[..|vals| - 1]);
      var last := vals[|vals| - 1];
      if last.Some? then head + [last.value] else head
  }

  /** The strict decoding: one number per value, or `None` when one value was not read. */
  function StrictNumbers(vals: seq<Option<real>>): Option<seq<real>>
  {
    if |vals| == 0 then Some([])
    else
      match StrictNumbers(vals[..|vals| - 1])
      case None => None
      case Some(head) =>
        var last := vals[|vals| - 1];
        if last.Some? then Some(head + [last.value]) else None
  }

  /** What `getNumberArray` returns. */
  function NumberArrayOf(ds: DataSet, tag: string, pf: FloatParser, default: seq<real> := []): seq<real>
  {
    match ValueTokens(ds, tag)
    case None => default
    case Some(tokens) =>
      var arr := LenientNumbers(ParsedTokens(tokens, pf));
      if |arr| > 0 then arr else default
  }

  /** What `getOptionalNumberArray` returns. */
  function OptionalNumberArrayOf(ds: DataSet, tag: string, pf: FloatParser): Option<seq<real>>
  {
    match ValueTokens(ds, tag)
    case None => None
    case Some(tokens) =>
      match StrictNumbers(ParsedTokens(tokens, pf))
      case None => None
      case Some(arr) => if |arr| > 0 then Some(arr) else None
  }

  /** `getNumberArray`: the lenient loop over the values. */
  method GetNumberArray(ds: DataSet, tag: string, pf: FloatParser, default: seq<real>) returns (arr: seq<real>)
    ensures arr == NumberArrayOf(ds, tag, pf, default)
  {
    var tokens := ValueTokens(ds, tag);
    if tokens.None? {
      return default;
    }
    var stringValues := tokens.value;
    ghost var vals := ParsedTokens(stringValues, pf);
    var acc: seq<real> := [];
    for i := 0 to |stringValues|
      invariant acc == LenientNumbers(vals[..i])
    {
      assert vals[..i + 1][..i] == vals[..i];
      var trimmed := Trim(stringValues[i]);
      if |trimmed| > 0 {
        var num := pf(trimmed);
        if num.Some? {
          acc := acc + [num.value];
        }
      }
    }
    assert vals[..|stringValues|] == vals;
    arr := if |acc| > 0 then acc else default;
  }

  /** `getOptionalNumberArray`: the strict loop, which gives up on the first bad value. */
  method GetOptionalNumberArray(ds: DataSet, tag: string, pf: FloatParser) returns (arr: Option<seq<real>>)
    ensures arr == OptionalNumberArrayOf(ds, tag, pf)
  {
    var tokens := ValueTokens(ds, tag);
    if tokens.None? {
      return None;
    }
    var stringValues := tokens.value;
    ghost var vals := ParsedTokens(stringValues, pf);
    var acc: seq<real> := [];
    for i := 0 to |stringValues|
      invariant StrictNumbers(vals[..i]) == Some(acc)
    {
      assert vals[..i + 1][..i] == vals[..i];
      var trimmed := Trim(stringValues[i]);
      if |trimmed| > 0 {
        var num := pf(trimmed);
        if num.Some? {
          acc := acc + [num.value];
        } else {
          StrictNoneExtends(vals, i + 1);
          return None;
        }
      } else {
        StrictNoneExtends(vals, i + 1);
        return None;
      }
    }
    assert vals[..|stringValues|] == vals;
    arr := if |acc| > 0 then Some(acc) else None;
  }

  /** Once a prefix fails the strict decoding, the whole list fails. */
  lemma {:induction false} StrictNoneExtends(vals: seq<Option<real>>, k: nat)
    requires k <= |vals|
    requires StrictNumbers(vals[..k]).None?
    ensures StrictNumbers(vals).None?
    decreases |vals| - k
  {
    if k < |vals| {
      assert vals[..k + 1][..k] == vals[..k];
      StrictNoneExtends(vals, k + 1);
    } else {
      assert vals[..k] == vals;
    }
  }

  predicate AllPresent(vals: seq<Option<real>>)
  {
    forall i :: 0 <= i < |vals| ==> vals[i].Some?
  }

  /**
   * The strict decoding succeeds exactly when every value was read, and
   * then it holds exactly one number per value, in order.
   */
  lemma {:induction false} StrictNumbersSpec(vals: seq<Option<real>>)
    ensures StrictNumbers(vals).Some? <==> AllPresent(vals)
    ensures StrictNumbers(vals).Some? ==>
      var a := StrictNumbers(vals).value;
      |a| == |vals| && forall i :: 0 <= i < |vals| ==> a[i] == vals[i].value
  {
    if |vals| > 0 {
      var n := |vals| - 1;
      var init := vals[..n];
      StrictNumbersSpec(init);
      assert forall i :: 0 <= i < n ==> init[i] == vals[i];
    }
  }

  /**
   * The lenient decoding keeps exactly the numbers that were read, in
   * order: `idx` lists their positions, increasing.
   */
  lemma {:induction false} LenientNumbersSpec(vals: seq<Option<real>>) returns (idx: seq<nat>)
    ensures var a := LenientNumbers(vals);
      && |idx| == |a|
      && (forall k :: 0 <= k < |idx| ==> idx[k] < |vals| && vals[idx[k]] == Some(a[k]))
      && (forall k, l :: 0 <= k < l < |idx| ==> idx[k] < idx[l])
      && (forall j :: 0 <= j < |vals| ==> (vals[j].Some? <==> j in idx))
  {
    if |vals| == 0 {
      idx := [];
    } else {
      var n := |vals| - 1;
      var init := vals[..n];
      var head := LenientNumbersSpec(init);
      assert forall i :: 0 <= i < n ==> init[i] == vals[i];
      if vals[n].Some? {
        idx := head + [n];
      } else {
        idx := head;
      }
    }
  }

  /** Whenever the strict decoding succeeds, the lenient one gives the same numbers. */
  lemma {:induction false} StrictAgreesWithLenient(vals: seq<Option<real>>)
    requires StrictNumbers(vals).Some?
    ensures LenientNumbers(vals) == StrictNumbers(vals).value
  {
    if |vals| > 0 {
      StrictAgreesWithLenient(vals[..|vals| - 1]);
    }
  }

  /** Where `getOptionalNumberArray` finds numbers, `getNumberArray` finds the same ones, whatever its default. */
  lemma OptionalArrayAgreesWithArray(ds: DataSet, tag: string, pf: FloatParser, default: seq<real>)
    requires OptionalNumberArrayOf(ds, tag, pf).Some?
    ensures NumberArrayOf(ds, tag, pf, default) == OptionalNumberArrayOf(ds, tag, pf).value
  {
    StrictAgreesWithLenient(ParsedTokens(ValueTokens(ds, tag).value, pf));
  }

  /**
   * `getOptionalNumberArray` gives `undefined` exactly when there are no
   * values or one of them is blank or does not parse; otherwise one number
   * per value.
   */
  lemma OptionalArraySpec(ds: DataSet, tag: string, pf: FloatParser)
    ensures OptionalNumberArrayOf(ds, tag, pf).None? <==>
      (ValueTokens(ds, tag).None? || exists i :: 0 <= i < |ValueTokens(ds, tag).value| && ParsedToken(ValueTokens(ds, tag).value[i], pf).None?)
    ensures OptionalNumberArrayOf(ds, tag, pf).Some? ==>
      var tokens := ValueTokens(ds, tag).value; var a := OptionalNumberArrayOf(ds, tag, pf).value;
      |a| == |tokens| && forall i :: 0 <= i < |tokens| ==> a[i] == ParsedToken(tokens[i], pf).value
  {
    if ValueTokens(ds, tag).Some? {
      var tokens := ValueTokens(ds, tag).value;
      var vals := ParsedTokens(tokens, pf);
      StrictNumbersSpec(vals);
      if AllPresent(vals) {
        assert forall i :: 0 <= i < |tokens| ==> ParsedToken(tokens[i], pf) == vals[i];
      } else {
        var i :| 0 <= i < |vals| && vals[i].None?;
        assert ParsedToken(tokens[i], pf).None?;
        assert OptionalNumberArrayOf(ds, tag, pf).None?;
      }
    }
  }

  /**
   * `getNumberArray` gives its default when none of the values parses;
   * otherwise the numbers of the values that parse, in order: `idx` lists
   * their positions, increasing.
   */
  lemma NumberArraySpec(ds: DataSet, tag: string, pf: FloatParser, default: seq<real>) returns (idx: seq<nat>)
    requires ValueTokens(ds, tag).Some?
    ensures var tokens := ValueTokens(ds, tag).value;
      (forall j :: 0 <= j < |tokens| ==> ParsedToken(tokens[j], pf).None?) ==> NumberArrayOf(ds, tag, pf, default) == default
    ensures var tokens := ValueTokens(ds, tag).value; var arr := NumberArrayOf(ds, tag, pf, default);
      (exists j :: 0 <= j < |tokens| && ParsedToken(tokens[j], pf).Some?) ==>
        && |idx| == |arr|
        && (forall k :: 0 <= k < |idx| ==> idx[k] < |tokens| && ParsedToken(tokens[idx[k]], pf) == Some(arr[k]))
        && (forall k, l :: 0 <= k < l < |idx| ==> idx[k] < idx[l])
        && (forall j :: 0 <= j < |tokens| ==> (ParsedToken(tokens[j], pf).Some? <==> j in idx))
  {
    var tokens := ValueTokens(ds, tag).value;
    var vals := ParsedTokens(tokens, pf);
    idx := LenientNumbersSpec(vals);
    assert forall j :: 0 <= j < |tokens| ==> ParsedToken(tokens[j], pf) == vals[j];
    assert |idx| > 0 ==> vals[idx[0]].Some?;
  }
}
