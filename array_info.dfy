/** ArrayInfo: an array accessor `name[idx]` and its resolution against the
    live array stored under `name` in a container. */
module ArrayInfos {
  import opened Errs
  import opened Json
  import Decimal

  /** The index part of an accessor: `[]` appends, `[n]` addresses position n,
      where -1 stands for the last element. */
  datatype Index = Append | At(n: int)

  datatype ArrayInfo = ArrayInfo(property: string, index: Index)

  function NonNumericError(): Error {
    NewDataError("Only numerical values are accepted for array index.", NonNumericIndex, None)
  }

  function AppendReadError(): Error {
    NewDataError("Can't get data when appending.", ReadWhileAppending, None)
  }

  /** What the runtime throws when `data[property]` is not an array (a missing
      property reads as `undefined`, whose `length`, `push` and indices fail). */
  function NotArrayFailure(property: string): Error {
    Native("TypeError", "data[" + property + "] is not an array")
  }

  /** `new ArrayInfo(property, idx)`: the empty token appends, an integer token
      addresses that position, anything else fails with DataError 200. */
  function NewArrayInfo(property: string, idx: string): (r: Result<ArrayInfo>)
    ensures r.Ok? ==> r.value.property == property
    ensures (r.Ok? && r.value.index == Append) <==> idx == ""
    ensures (r.Ok? && r.value.index.At?) <==> Decimal.IsIntToken(idx)
    ensures r.Ok? && r.value.index.At? ==> r.value.index.n == Decimal.ParseInt(idx)
    ensures r.Err? <==> idx != "" && !Decimal.IsIntToken(idx)
    ensures r.Err? ==> r.error == NonNumericError() && Is(r.error, DataError, NonNumericIndex)
  {
    if Decimal.IsIntToken(idx) then Ok(ArrayInfo(property, At(Decimal.ParseInt(idx))))
    else if idx == "" then Ok(ArrayInfo(property, Append))
    else Err(NonNumericError())
  }

  /** In the model any integer written in decimal is accepted as the index it
      spells (JavaScript's number coercion is not modelled). */
  lemma NewArrayInfoOfDecimal(property: string, n: int)
    ensures NewArrayInfo(property, Decimal.ShowInt(n)) == Ok(ArrayInfo(property, At(n)))
  {
    Decimal.ParseShowInt(n);
  }

  /** The resolution `getIndex` applies to a stored integer against an array of
      the given length: -1 is the last position, or 0 when the array is empty;
      every other integer stands for itself. */
  function Resolve(n: int, length: nat): (i: int)
    ensures n != -1 ==> i == n
    ensures n == -1 ==> 0 <= i && (length > 0 ==> i == length - 1) && (length == 0 ==> i == 0)
  {
    if n == -1 then (if length == 0 then 0 else length - 1) else n
  }

  /** The elements of `data[property]`, or the failure of treating a
      non-array as one. */
  function Items(info: ArrayInfo, data: map<string, Value>): (r: Result<seq<Value>>)
    ensures r.Ok? <==> Get(data, info.property).Arr?
    ensures r.Ok? ==> r.value == Get(data, info.property).items
  {
    match Get(data, info.property)
    case Arr(items) => Ok(items)
    case _ => Err(NotArrayFailure(info.property))
  }

  /** `getIndex(data)`: the append token passes through unchanged, an integer
      other than -1 is returned without looking at the array, and -1 is
      resolved against the current length of `data[property]`. */
  function GetIndex(info: ArrayInfo, data: map<string, Value>): (r: Result<Index>)
    ensures info.index == Append ==> r == Ok(Append)
    ensures info.index.At? && info.index.n != -1 ==> r == Ok(info.index)
    ensures info.index == At(-1) && Items(info, data).Ok? ==>
      r == Ok(At(Resolve(-1, |Items(info, data).value|)))
    ensures info.index == At(-1) && Items(info, data).Err? ==> r.Err?
  {
    match info.index
    case Append => Ok(Append)
    case At(n) =>
      if n != -1 then Ok(At(n))
      else match Items(info, data)
        case Ok(items) => Ok(At(Resolve(n, |items|)))
        case Err(e) => Err(e)
  }

  /** The index is recomputed from the current length on every call, so two
      states whose arrays have the same length resolve it alike. */
  lemma GetIndexDependsOnlyOnLength(info: ArrayInfo, d1: map<string, Value>, d2: map<string, Value>)
    requires Items(info, d1).Ok? && Items(info, d2).Ok?
    requires |Items(info, d1).value| == |Items(info, d2).value|
    ensures GetIndex(info, d1) == GetIndex(info, d2)
  {
  }

  /** `getData(data)`: reading in append mode fails with DataError 100 whatever
      the data; otherwise the element at the resolved index, `undefined` when
      there is none. */
  function GetData(info: ArrayInfo, data: map<string, Value>): (r: Result<Value>)
    ensures info.index == Append ==> r == Err(AppendReadError())
    ensures info.index.At? ==> (r.Ok? <==> Items(info, data).Ok?)
    ensures info.index.At? && r.Ok? ==>
      var items := Items(info, data).value;
      var i := Resolve(info.index.n, |items|);
      (0 <= i < |items| ==> r.value == items[i]) && (!(0 <= i < |items|) ==> r.value == Undefined)
  {
    if info.index == Append then Err(AppendReadError())
    else match Items(info, data)
      case Err(e) => Err(e)
      case Ok(items) =>
        var i := Resolve(info.index.n, |items|);
        Ok(if 0 <= i < |items| then items[i] else Undefined)
  }

  /** `isValid(data)`: whether the resolved index is an own element of
      `data[property]`; the append token names no element. */
  function IsValid(info: ArrayInfo, data: map<string, Value>): (r: Result<bool>)
    ensures r.Ok? <==> Items(info, data).Ok?
    ensures r.Ok? ==>
      (r.value <==> info.index.At? && 0 <= Resolve(info.index.n, |Items(info, data).value|) < |Items(info, data).value|)
  {
    match Items(info, data)
    case Err(e) => Err(e)
    case Ok(items) =>
      match info.index
      case Append => Ok(false)
      case At(n) => var i := Resolve(n, |items|); Ok(0 <= i < |items|)
  }

  /** The elements after `setData`: a push in append mode, otherwise an
      assignment at the resolved index. Assigning past the end grows the array,
      leaving holes (read back as `undefined`); a negative index other than -1
      names a property that is not an element, so the elements stay as they
      are. Such a property is not kept here, although in JavaScript later
      reads, validity checks and deletes at the same index see it. */
  function SetItems(items: seq<Value>, index: Index, val: Value): (r: seq<Value>)
    ensures index == Append ==> |r| == |items| + 1 && r[|items|] == val && r[..|items|] == items
    ensures index.At? ==>
      var i := Resolve(index.n, |items|);
      && (0 <= i < |items| ==>
            |r| == |items| && r[i] == val && forall j :: 0 <= j < |items| && j != i ==> r[j] == items[j])
      && (i >= |items| ==>
            |r| == i + 1 && r[i] == val && r[..|items|] == items && forall j :: |items| <= j < i ==> r[j] == Undefined)
      && (i < 0 ==> r == items)
  {
    match index
    case Append => items + [val]
    case At(n) =>
      var i := Resolve(n, |items|);
      if i < 0 then items
      else if i < |items| then items[i := val]
      else items + seq(i - |items|, _ => Undefined) + [val]
  }

  /** `setData(data, val)`: push or assign into `data[property]` in place;
      nothing else in the container changes. */
  method SetData(info: ArrayInfo, data: Container, val: Value) returns (r: Result<()>)
    modifies data
    ensures r == if Items(info, old(data.fields)).Ok? then Ok(()) else Err(NotArrayFailure(info.property))
    ensures r.Ok? ==>
      data.fields == old(data.fields)[info.property := Arr(SetItems(Items(info, old(data.fields)).value, info.index, val))]
    ensures r.Err? ==> data.fields == old(data.fields)
  {
    var items := Items(info, data.fields);
    if items.Err? {
      return Err(items.error);
    }
    data.fields := data.fields[info.property := Arr(SetItems(items.value, info.index, val))];
    r := Ok(());
  }

  /** `Array.prototype.splice(start, 1)`: a negative start counts from the end,
      a start past the end removes nothing, and an empty array stays empty
      whatever the start. */
  function SpliceOne(items: seq<Value>, start: int): (r: seq<Value>)
    ensures 0 <= start < |items| ==> r == items[..start] + items[start + 1..]
    ensures start >= |items| ==> r == items
    ensures -|items| <= start < 0 ==> r == items[..|items| + start] + items[|items| + start + 1..]
    ensures start < -|items| && |items| > 0 ==> r == items[1..]
    ensures |items| == 0 ==> r == []
  {
    var s := if start < 0 then (if |items| + start < 0 then 0 else |items| + start)
             else (if start < |items| then start else |items|);
    if s < |items| then items[..s] + items[s + 1..] else items
  }

  /** The elements after `delete`: `splice(getIndex(data), 1)`; the append
      token converts to position 0. */
  function DeleteItems(items: seq<Value>, index: Index): (r: seq<Value>)
    ensures index.At? && 0 <= Resolve(index.n, |items|) < |items| ==>
      var i := Resolve(index.n, |items|); |r| == |items| - 1 && r == items[..i] + items[i + 1..]
    ensures index.At? && Resolve(index.n, |items|) >= |items| ==> r == items
  {
    match index
    case Append => SpliceOne(items, 0)
    case At(n) => SpliceOne(items, Resolve(n, |items|))
  }

  /** `delete(data)`: remove one element of `data[property]` in place. */
  method Delete(info: ArrayInfo, data: Container) returns (r: Result<()>)
    modifies data
    ensures r == if Items(info, old(data.fields)).Ok? then Ok(()) else Err(NotArrayFailure(info.property))
    ensures r.Ok? ==>
      data.fields == old(data.fields)[info.property := Arr(DeleteItems(Items(info, old(data.fields)).value, info.index))]
    ensures r.Err? ==> data.fields == old(data.fields)
  {
    var items := Items(info, data.fields);
    if items.Err? {
      return Err(items.error);
    }
    data.fields := data.fields[info.property := Arr(DeleteItems(items.value, info.index))];
    r := Ok(());
  }

  /** Deleting at the last index removes exactly the last element. */
  lemma DeleteLast(items: seq<Value>)
    requires |items| > 0
    ensures DeleteItems(items, At(-1)) == items[..|items| - 1]
  {
  }
}
