/** The argument helpers of MainActivity: they turn the loosely typed
    argument bundle of a method call into the strict values the face
    engine takes, defaulting what is missing or null. */
module ArgumentCodec {
  import opened Values

  /** The arguments of one method call, keyed by field name. */
  type Bundle = map<string, Value>

  /** `call.argument(key)`: an absent key reads as null. */
  function Arg(args: Bundle, key: string): Value {
    if key in args then args[key] else Null
  }

  /** `getBooleanArg`: null or absent gives false. */
  function BooleanArg(args: Bundle, key: string): (r: Result<bool>)
    ensures key !in args || args[key] == Null ==> r == Ok(false)
    ensures key in args && args[key].Bool? ==> r == Ok(args[key].b)
    ensures r.Fail? <==> key in args && args[key] != Null && !args[key].Bool?
    ensures r.Fail? ==> r.fault == ClassCast
  {
    match Arg(args, key)
    case Null => Ok(false)
    case Bool(b) => Ok(b)
    case _ => Fail(ClassCast)
  }

  /** `getIntArg`: null or absent gives 0; a Long does not pass the Integer cast. */
  function IntArg(args: Bundle, key: string): (r: Result<int32>)
    ensures key !in args || args[key] == Null ==> r == Ok(0)
    ensures key in args && args[key].Int? ==> r == Ok(args[key].i)
    ensures r.Fail? <==> key in args && args[key] != Null && !args[key].Int?
    ensures r.Fail? ==> r.fault == ClassCast
  {
    match Arg(args, key)
    case Null => Ok(0)
    case Int(i) => Ok(i)
    case _ => Fail(ClassCast)
  }

  /** `getDoubleArg`: null or absent gives 0.0. */
  function DoubleArg(args: Bundle, key: string): (r: Result<real>)
    ensures key !in args || args[key] == Null ==> r == Ok(0.0)
    ensures key in args && args[key].Double? ==> r == Ok(args[key].d)
    ensures r.Fail? <==> key in args && args[key] != Null && !args[key].Double?
    ensures r.Fail? ==> r.fault == ClassCast
  {
    match Arg(args, key)
    case Null => Ok(0.0)
    case Double(d) => Ok(d)
    case _ => Fail(ClassCast)
  }

  /** `getStringArg`: null or absent gives the empty string. */
  function StringArg(args: Bundle, key: string): (r: Result<string>)
    ensures key !in args || args[key] == Null ==> r == Ok("")
    ensures key in args && args[key].Str? ==> r == Ok(args[key].s)
    ensures r.Fail? <==> key in args && args[key] != Null && !args[key].Str?
    ensures r.Fail? ==> r.fault == ClassCast
  {
    match Arg(args, key)
    case Null => Ok("")
    case Str(s) => Ok(s)
    case _ => Fail(ClassCast)
  }

  /** A `(List)` cast: null stays null (None), anything but a list fails. */
  function ListValue(v: Value): (r: Result<Option<seq<Value>>>)
    ensures r == Ok(None) <==> v == Null
    ensures v.List? ==> r == Ok(Some(v.elems))
    ensures r.Fail? <==> !v.List? && v != Null
    ensures r.Fail? ==> r.fault == ClassCast
  {
    match v
    case Null => Ok(None)
    case List(xs) => Ok(Some(xs))
    case _ => Fail(ClassCast)
  }

  /** The list argument stored under a key, cast to a list. */
  function ListArg(args: Bundle, key: string): Result<Option<seq<Value>>> {
    ListValue(Arg(args, key))
  }

  /** Writing a value under a key and reading it back with the matching helper gives it back;
      removing the key gives the helper's default. */
  lemma ScalarArgsRoundTrip(args: Bundle, key: string, b: bool, i: int32, d: real, s: string)
    ensures BooleanArg(args[key := Bool(b)], key) == Ok(b) && BooleanArg(args - {key}, key) == Ok(false)
    ensures IntArg(args[key := Int(i)], key) == Ok(i) && IntArg(args - {key}, key) == Ok(0)
    ensures DoubleArg(args[key := Double(d)], key) == Ok(d) && DoubleArg(args - {key}, key) == Ok(0.0)
    ensures StringArg(args[key := Str(s)], key) == Ok(s) && StringArg(args - {key}, key) == Ok("")
  {
  }

  // ---------------------------------------------------------------------------
  // Element conversions of the list helpers

  /** One face id of `listToIntArray`, also the `(int)` unboxing of the engine's id: an
      Integer gives its value; a null element throws NullPointerException when it is
      unboxed, before the helper's null test can see it; any other object fails the cast. */
  function IntElement(v: Value): (r: Result<int32>)
    ensures r.Ok? <==> v.Int?
    ensures r.Ok? ==> r.value == v.i
    ensures v == Null ==> r == Fail(NullPointer)
    ensures r.Fail? && v != Null ==> r.fault == ClassCast
  {
    match v
    case Int(i) => Ok(i)
    case Null => Fail(NullPointer)
    case _ => Fail(ClassCast)
  }

  /** One pixel of `listLongToIntArray`: the element is cast to Long and narrowed to its
      low 32 bits; a null element throws NullPointerException and any other object fails
      the cast. */
  function LongElement(v: Value): (r: Result<int32>)
    ensures r.Ok? <==> v.Long?
    ensures r.Ok? ==> r.value as int % 0x1_0000_0000 == v.l as int % 0x1_0000_0000
    ensures r.Ok? && -0x8000_0000 <= v.l as int < 0x8000_0000 ==> r.value as int == v.l as int
    ensures v == Null ==> r == Fail(NullPointer)
    ensures r.Fail? && v != Null ==> r.fault == ClassCast
  {
    match v
    case Long(l) => Ok(Low32(l))
    case Null => Fail(NullPointer)
    case _ => Fail(ClassCast)
  }

  /** A cell of a face vector: null is 0, a Double is its float conversion, and any other
      object fails the Double cast. */
  function Cell(toFloat: real -> real, v: Value): (r: Result<real>)
    ensures r.Ok? <==> v.Null? || v.Double?
    ensures v.Null? ==> r == Ok(0.0)
    ensures v.Double? ==> r == Ok(toFloat(v.d))
    ensures r.Fail? ==> r.fault == ClassCast
  {
    match v
    case Null => Ok(0.0)
    case Double(d) => Ok(toFloat(d))
    case _ => Fail(ClassCast)
  }

  function CellConv(toFloat: real -> real): Value -> Result<real> {
    v => Cell(toFloat, v)
  }

  /** One row of `listListDoubleToFloat2D`: a null inner list is an empty row, a list is
      converted cell by cell into a row of its length, and any other object fails the cast. */
  function Row(toFloat: real -> real, v: Value): (r: Result<seq<real>>)
    ensures v.Null? ==> r == Ok([])
    ensures v.List? && r.Ok? ==> |r.value| == |v.elems|
    ensures v.List? && r.Ok? ==> forall j :: 0 <= j < |v.elems| ==> Cell(toFloat, v.elems[j]) == Ok(r.value[j])
    ensures !v.Null? && !v.List? ==> r == Fail(ClassCast)
  {
    match v
    case Null => Ok([])
    case List(cells) => Convert(cells, CellConv(toFloat))
    case _ => Fail(ClassCast)
  }

  function RowConv(toFloat: real -> real): Value -> Result<seq<real>> {
    v => Row(toFloat, v)
  }

  /** Converting a list element by element, from index 0 upwards, stopping at
      the first element that throws. */
  function Convert<T>(xs: seq<Value>, conv: Value -> Result<T>): (r: Result<seq<T>>)
    ensures r.Ok? ==> |r.value| == |xs|
    ensures r.Ok? ==> forall i :: 0 <= i < |xs| ==> conv(xs[i]) == Ok(r.value[i])
    decreases |xs|
  {
    if |xs| == 0 then Ok([])
    else
      var n := |xs| - 1;
      match Convert(xs[..n], conv)
      case Fail(f) => Fail(f)
      case Ok(ys) =>
        match conv(xs[n])
        case Fail(f) => Fail(f)
        case Ok(y) =>
          assert forall i :: 0 <= i < n ==> xs[..n][i] == xs[i];
          Ok(ys + [y])
  }

  /** When every element converts, the list converts to exactly those values. */
  lemma {:induction false} ConvertOfAll<T>(xs: seq<Value>, conv: Value -> Result<T>, ys: seq<T>)
    requires |ys| == |xs|
    requires forall i :: 0 <= i < |xs| ==> conv(xs[i]) == Ok(ys[i])
    ensures Convert(xs, conv) == Ok(ys)
  {
    if |xs| > 0 {
      var n := |xs| - 1;
      assert forall i :: 0 <= i < n ==> xs[..n][i] == xs[i];
      ConvertOfAll(xs[..n], conv, ys[..n]);
      assert ys[..n] + [ys[n]] == ys;
    }
  }

  /** A list converts exactly when each of its elements does. */
  lemma {:induction false} ConvertOkIff<T>(xs: seq<Value>, conv: Value -> Result<T>)
    ensures Convert(xs, conv).Ok? <==> forall i :: 0 <= i < |xs| ==> conv(xs[i]).Ok?
  {
    if forall i :: 0 <= i < |xs| ==> conv(xs[i]).Ok? {
      ConvertOfAll(xs, conv, seq(|xs|, i requires 0 <= i < |xs| => conv(xs[i]).value));
    }
  }

  /** The first element that throws decides the failure of the whole list. */
  lemma {:induction false} ConvertFirstFailure<T>(xs: seq<Value>, conv: Value -> Result<T>, k: nat)
    requires k < |xs| && conv(xs[k]).Fail?
    requires forall j :: 0 <= j < k ==> conv(xs[j]).Ok?
    ensures Convert(xs, conv) == Fail(conv(xs[k]).fault)
  {
    var n := |xs| - 1;
    assert forall i :: 0 <= i < n ==> xs[..n][i] == xs[i];
    if k == n {
      ConvertOfAll(xs[..n], conv, seq(n, j requires 0 <= j < n => conv(xs[j]).value));
    } else {
      ConvertFirstFailure(xs[..n], conv, k);
    }
  }

  /** A failing conversion failed at some element, with that element's fault,
      and every element before it converted. */
  lemma {:induction false} ConvertFailureCause<T>(xs: seq<Value>, conv: Value -> Result<T>)
    requires Convert(xs, conv).Fail?
    ensures exists k :: 0 <= k < |xs| && conv(xs[k]) == Fail(Convert(xs, conv).fault)
                        && forall j :: 0 <= j < k ==> conv(xs[j]).Ok?
  {
    var n := |xs| - 1;
    assert forall i :: 0 <= i < n ==> xs[..n][i] == xs[i];
    match Convert(xs[..n], conv)
    case Fail(f) =>
      ConvertFailureCause(xs[..n], conv);
      var k :| 0 <= k < n && conv(xs[..n][k]) == Fail(f) && forall j :: 0 <= j < k ==> conv(xs[..n][j]).Ok?;
      assert conv(xs[k]) == Fail(f);
    case Ok(ys) =>
      assert conv(xs[n]) == Fail(Convert(xs, conv).fault);
  }

  // ---------------------------------------------------------------------------
  // What the three list helpers compute

  /** `listToIntArray` as a value. */
  function IntsOf(list: Option<seq<Value>>): Result<seq<int32>> {
    match list
    case None => Ok([])
    case Some(xs) => Convert(xs, IntElement)
  }

  /** `listLongToIntArray` as a value. */
  function PixelsOf(list: Option<seq<Value>>): Result<seq<int32>> {
    match list
    case None => Ok([])
    case Some(xs) => Convert(xs, LongElement)
  }

  /** `listListDoubleToFloat2D` as a value. */
  function MatrixOf(list: Option<seq<Value>>, toFloat: real -> real): Result<seq<seq<real>>> {
    match list
    case None => Ok([])
    case Some(rows) => Convert(rows, RowConv(toFloat))
  }

  /** `listToIntArray`: a null list gives no elements; otherwise it succeeds exactly when every
      element is an Integer, and then keeps length and values. */
  lemma IntsOfMeaning(xs: seq<Value>)
    ensures IntsOf(None) == Ok([])
    ensures IntsOf(Some(xs)).Ok? <==> forall i :: 0 <= i < |xs| ==> xs[i].Int?
    ensures IntsOf(Some(xs)).Ok? ==>
              |IntsOf(Some(xs)).value| == |xs|
              && forall i :: 0 <= i < |xs| ==> IntsOf(Some(xs)).value[i] == xs[i].i
  {
    ConvertOkIff(xs, IntElement);
  }

  /** `listToIntArray` never defaults a null element to 0: the first non-Integer element
      decides the failure, and a null one throws NullPointerException. */
  lemma IntsOfNullElementFails(xs: seq<Value>, k: nat)
    requires k < |xs| && xs[k] == Null
    requires forall j :: 0 <= j < k ==> xs[j].Int?
    ensures IntsOf(Some(xs)) == Fail(NullPointer)
  {
    ConvertFirstFailure(xs, IntElement, k);
  }

  /** `listLongToIntArray`: a null list gives no pixels; otherwise it succeeds exactly when every
      element is a Long, and then pixel i is the low 32 bits of element i. */
  lemma PixelsOfMeaning(xs: seq<Value>)
    ensures PixelsOf(None) == Ok([])
    ensures PixelsOf(Some(xs)).Ok? <==> forall i :: 0 <= i < |xs| ==> xs[i].Long?
    ensures PixelsOf(Some(xs)).Ok? ==>
              |PixelsOf(Some(xs)).value| == |xs|
              && forall i :: 0 <= i < |xs| ==> PixelsOf(Some(xs)).value[i] == Low32(xs[i].l)
  {
    ConvertOkIff(xs, LongElement);
  }

  /** The first element of the pixel list that is not a Long decides the failure:
      null throws NullPointerException, any other type ClassCastException. */
  lemma PixelsOfFirstBadElement(xs: seq<Value>, k: nat)
    requires k < |xs| && !xs[k].Long?
    requires forall j :: 0 <= j < k ==> xs[j].Long?
    ensures PixelsOf(Some(xs)) == Fail(if xs[k] == Null then NullPointer else ClassCast)
  {
    ConvertFirstFailure(xs, LongElement, k);
  }

  /** A row is acceptable when it is null, or a list whose cells are all null or Double. */
  ghost predicate WellFormedRow(v: Value) {
    v == Null || (v.List? && forall j :: 0 <= j < |v.elems| ==> v.elems[j] == Null || v.elems[j].Double?)
  }

  lemma RowMeaning(toFloat: real -> real, v: Value)
    ensures Row(toFloat, v).Ok? <==> WellFormedRow(v)
    ensures v == Null ==> Row(toFloat, v) == Ok([])
    ensures v.List? && Row(toFloat, v).Ok? ==>
              |Row(toFloat, v).value| == |v.elems|
              && forall j :: 0 <= j < |v.elems| ==>
                   Row(toFloat, v).value[j] == (if v.elems[j] == Null then 0.0 else toFloat(v.elems[j].d))
  {
    if v.List? {
      ConvertOkIff(v.elems, CellConv(toFloat));
    }
  }

  /** `listListDoubleToFloat2D`: a null outer list gives no rows; otherwise the row count is the
      outer size, a null inner list is an empty row, row i is as long as inner list i, a null
      cell is 0 and any other cell is the float conversion of its Double. */
  lemma MatrixOfMeaning(rows: seq<Value>, toFloat: real -> real)
    ensures MatrixOf(None, toFloat) == Ok([])
    ensures MatrixOf(Some(rows), toFloat).Ok? <==> forall i :: 0 <= i < |rows| ==> WellFormedRow(rows[i])
    ensures MatrixOf(Some(rows), toFloat).Ok? ==>
              var m := MatrixOf(Some(rows), toFloat).value;
              |m| == |rows|
              && (forall i :: 0 <= i < |rows| && rows[i] == Null ==> m[i] == [])
              && (forall i :: 0 <= i < |rows| && rows[i].List? ==> |m[i]| == |rows[i].elems|)
              && (forall i, j :: 0 <= i < |rows| && rows[i].List? && 0 <= j < |rows[i].elems| ==>
                    m[i][j] == (if rows[i].elems[j] == Null then 0.0 else toFloat(rows[i].elems[j].d)))
  {
    ConvertOkIff(rows, RowConv(toFloat));
    forall i | 0 <= i < |rows| {
      RowMeaning(toFloat, rows[i]);
    }
  }

  // ---------------------------------------------------------------------------
  // The list helpers as the source writes them: fill a fresh array in an index loop

  /** `listToIntArray`. */
  method ListToIntArray(list: Option<seq<Value>>) returns (r: Result<array<int32>>)
    ensures r.Ok? ==> IntsOf(list) == Ok(r.value[..])
    ensures r.Ok? ==> fresh(r.value)
    ensures r.Fail? ==> IntsOf(list) == Fail(r.fault)
  {
    if list.None? {
      var empty := new int32[0];
      assert empty[..] == [];
      return Ok(empty);
    }
    var xs := list.value;
    var arr := new int32[|xs|];
    for i := 0 to |xs|
      invariant forall j :: 0 <= j < i ==> IntElement(xs[j]) == Ok(arr[j])
    {
      // intValue() throws on a null element, so the null test that follows it never sees one
      var val := IntElement(xs[i]);
      if val.Fail? {
        ConvertFirstFailure(xs, IntElement, i);
        return Fail(val.fault);
      }
      arr[i] := val.value;
    }
    ConvertOfAll(xs, IntElement, arr[..]);
    return Ok(arr);
  }

  /** `listLongToIntArray`. */
  method ListLongToIntArray(list: Option<seq<Value>>) returns (r: Result<array<int32>>)
    ensures r.Ok? ==> PixelsOf(list) == Ok(r.value[..])
    ensures r.Ok? ==> fresh(r.value)
    ensures r.Fail? ==> PixelsOf(list) == Fail(r.fault)
  {
    if list.None? {
      var empty := new int32[0];
      assert empty[..] == [];
      return Ok(empty);
    }
    var xs := list.value;
    var arr := new int32[|xs|];
    for i := 0 to |xs|
      invariant forall j :: 0 <= j < i ==> LongElement(xs[j]) == Ok(arr[j])
    {
      var val := LongElement(xs[i]);
      if val.Fail? {
        ConvertFirstFailure(xs, LongElement, i);
        return Fail(val.fault);
      }
      arr[i] := val.value;
    }
    ConvertOfAll(xs, LongElement, arr[..]);
    return Ok(arr);
  }

  /** `listListDoubleToFloat2D`; the rows of the Java `float[][]` start out null. */
  method ListListDoubleToFloat2D(list: Option<seq<Value>>, toFloat: real -> real)
    returns (r: Result<array<array?<real>>>)
    ensures r.Ok? ==> MatrixOf(list, toFloat).Ok?
                      && r.value.Length == |MatrixOf(list, toFloat).value|
                      && forall i :: 0 <= i < r.value.Length ==>
                           r.value[i] != null && r.value[i][..] == MatrixOf(list, toFloat).value[i]
    ensures r.Ok? ==> fresh(r.value) && forall i :: 0 <= i < r.value.Length ==> fresh(r.value[i])
    ensures r.Fail? ==> MatrixOf(list, toFloat) == Fail(r.fault)
  {
    if list.None? {
      var empty := new array?<real>[0];
      return Ok(empty);
    }
    var rows := list.value;
    var outer := |rows|;
    var result := new array?<real>[outer];
    ghost var done: seq<seq<real>> := [];
    for i := 0 to outer
      invariant |done| == i
      invariant forall k :: 0 <= k < i ==> RowConv(toFloat)(rows[k]) == Ok(done[k])
      invariant forall k :: 0 <= k < i ==> result[k] != null && result[k][..] == done[k]
      invariant forall k :: 0 <= k < i ==> fresh(result[k])
    {
      var innerList := ListValue(rows[i]);
      if innerList.Fail? {
        ConvertFirstFailure(rows, RowConv(toFloat), i);
        return Fail(innerList.fault);
      }
      if innerList.value.None? {
        result[i] := new real[0];
        done := done + [[]];
        continue;
      }
      var cells := innerList.value.value;
      var inner := |cells|;
      var row := new real[inner];
      for j := 0 to inner
        modifies row
        invariant forall m :: 0 <= m < j ==> CellConv(toFloat)(cells[m]) == Ok(row[m])
      {
        var v := Cell(toFloat, cells[j]);
        if v.Fail? {
          ConvertFirstFailure(cells, CellConv(toFloat), j);
          ConvertFirstFailure(rows, RowConv(toFloat), i);
          return Fail(v.fault);
        }
        row[j] := v.value;
      }
      ConvertOfAll(cells, CellConv(toFloat), row[..]);
      result[i] := row;
      done := done + [row[..]];
    }
    ConvertOfAll(rows, RowConv(toFloat), done);
    return Ok(result);
  }
}
