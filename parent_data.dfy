/** ParentData: the handle on the last step of a data path, holding the last
    token (`parent`), the container it lives in, the store and the path
    itself. Reads go through `getData`; `setData` and `delete` change either
    the container in place or the store's state. */
module ParentDatas {
  import opened Errs
  import opened Json
  import opened ArrayInfos
  import Utils
  import Decimal
  import Db

  /** The token as the string functions see it: the root's `undefined`
      becomes the text "undefined". */
  function Token(parent: Option<string>): string {
    if parent.Some? then parent.value else "undefined"
  }

  /** How an ArrayInfo prints its `idx`: empty in append mode, the integer
      otherwise. */
  function IdxText(index: Index): string {
    match index
    case Append => ""
    case At(n) => Decimal.ShowInt(n)
  }

  function IndexNotFoundError(dataPath: string, info: ArrayInfo): (e: Error)
    ensures Is(e, DataError, IndexNotFound)
  {
    NewDataError("DataPath: /" + dataPath + ". Can't find index " + IdxText(info.index) +
                 " in array " + info.property, IndexNotFound, None)
  }

  function NotAnArrayError(dataPath: string, property: string): (e: Error)
    ensures Is(e, DataError, NotAnArray)
  {
    NewDataError("DataPath: /" + dataPath + ". " + property + " is not an Array", NotAnArray, None)
  }

  /** Whether `__checkArray(del)` checks the index: always for a deletion,
      otherwise unless appending. */
  predicate ChecksIndex(info: ArrayInfo, del: bool) {
    info.index != Append || del
  }

  class ParentData {
    const parent: Option<string>
    const data: Container
    const db: Db.DBDotJSON
    const dataPath: string

    constructor (parent: Option<string>, data: Container, db: Db.DBDotJSON, dataPath: string)
      ensures this.parent == parent && this.data == data && this.db == db && this.dataPath == dataPath
    {
      this.parent := parent;
      this.data := data;
      this.db := db;
      this.dataPath := dataPath;
    }

    /** `__checkArray(del)`: the token's ArrayInfo, or none for a plain
        token; an index that is checked and names no element fails with
        DataError 10, and one that names an element is accepted. */
    function CheckArray(del: bool): (r: Result<Option<ArrayInfo>>)
      reads data
      ensures Utils.ProcessArray(Token(parent)).Err? ==> r == Err(Utils.ProcessArray(Token(parent)).error)
      ensures Utils.ProcessArray(Token(parent)) == Ok(None) <==> r == Ok(None)
      ensures r.Ok? && r.value.Some? ==>
        && Utils.ProcessArray(Token(parent)) == Ok(r.value)
        && (ChecksIndex(r.value.value, del) ==> IsValid(r.value.value, data.fields) == Ok(true))
      ensures Utils.ProcessArray(Token(parent)).Ok? && Utils.ProcessArray(Token(parent)).value.Some? ==>
        var info := Utils.ProcessArray(Token(parent)).value.value;
        && (ChecksIndex(info, del) && IsValid(info, data.fields) == Ok(false) ==>
              r == Err(IndexNotFoundError(dataPath, info)))
        && (ChecksIndex(info, del) && IsValid(info, data.fields).Err? ==> r.Err?)
        && (ChecksIndex(info, del) && IsValid(info, data.fields) == Ok(true) ==> r == Ok(Some(info)))
        && (!ChecksIndex(info, del) ==> r == Ok(Some(info)))
    {
      match Utils.ProcessArray(Token(parent))
      case Err(e) => Err(e)
      case Ok(None) => Ok(None)
      case Ok(Some(info)) =>
        if !ChecksIndex(info, del) then Ok(Some(info))
        else match IsValid(info, data.fields)
          case Err(e) => Err(e)
          case Ok(valid) => if valid then Ok(Some(info)) else Err(IndexNotFoundError(dataPath, info))
    }

    /** `getData()`: the whole container at the root; a plain token's
        property (`undefined` when absent); through the ArrayInfo for an array
        token, where append mode fails with DataError 100 and an index that
        names no element fails with DataError 10. Nothing changes. */
    function GetData(): (r: Result<Value>)
      reads data
      ensures parent.None? ==> r == Ok(Obj(data.fields))
      ensures parent.Some? && Utils.ProcessArray(parent.value) == Ok(None) ==>
        r == Ok(Get(data.fields, parent.value))
      ensures parent.Some? && Utils.ProcessArray(parent.value).Err? ==>
        r == Err(Utils.ProcessArray(parent.value).error)
      ensures parent.Some? && Utils.ProcessArray(parent.value).Ok? && Utils.ProcessArray(parent.value).value.Some? ==>
        var info := Utils.ProcessArray(parent.value).value.value;
        && (info.index == Append ==> r == Err(AppendReadError()))
        && (info.index.At? && IsValid(info, data.fields) == Ok(false) ==>
              r == Err(IndexNotFoundError(dataPath, info)))
        && (info.index.At? && IsValid(info, data.fields) == Ok(true) ==>
              var items := Items(info, data.fields).value;
              r == Ok(items[Resolve(info.index.n, |items|)]))
    {
      if parent.None? then Ok(Obj(data.fields))
      else match CheckArray(false)
        case Err(e) => Err(e)
        case Ok(None) => Ok(Get(data.fields, parent.value))
        case Ok(Some(info)) => ArrayInfos.GetData(info, data.fields)
    }

    /** `setData(value)`: at the root the store's state goes back to its
        initial value and `value` is ignored; an array token pushes or assigns
        into the array it names, failing with DataError 11 on a property that
        is not an array; a plain token changes nothing. */
    method SetData(value: Value) returns (r: Result<()>)
      modifies db, data
      ensures db.loaded == old(db.loaded) && db.dirname == old(db.dirname)
      ensures parent.Some? ==> db.state == old(db.state)
      ensures parent.None? ==> r == Ok(()) && db.state == db.config.init && data.fields == old(data.fields)
      ensures parent.Some? && Utils.ProcessArray(parent.value).Err? ==>
        r == Err(Utils.ProcessArray(parent.value).error) && data.fields == old(data.fields)
      ensures parent.Some? && Utils.ProcessArray(parent.value) == Ok(None) ==>
        r == Ok(()) && data.fields == old(data.fields)
      ensures parent.Some? && Utils.ProcessArray(parent.value).Ok? && Utils.ProcessArray(parent.value).value.Some? ==>
        var info := Utils.ProcessArray(parent.value).value.value;
        && (info.property in old(data.fields) && !old(data.fields)[info.property].Arr? ==>
              r == Err(NotAnArrayError(dataPath, info.property)) && data.fields == old(data.fields))
        && (info.property !in old(data.fields) ==>
              r == Err(NotArrayFailure(info.property)) && data.fields == old(data.fields))
        && (info.property in old(data.fields) && old(data.fields)[info.property].Arr? ==>
              r == Ok(()) &&
              data.fields == old(data.fields)[info.property :=
                Arr(SetItems(old(data.fields)[info.property].items, info.index, value))])
    {
      if parent.None? {
        db.state := db.config.init;
        return Ok(());
      }
      var arrayInfo := Utils.ProcessArray(parent.value);
      if arrayInfo.Err? {
        return Err(arrayInfo.error);
      }
      if arrayInfo.value.None? {
        return Ok(());
      }
      var info := arrayInfo.value.value;
      if info.property in data.fields && !data.fields[info.property].Arr? {
        return Err(NotAnArrayError(dataPath, info.property));
      }
      r := ArrayInfos.SetData(info, data, value);
    }

    /** `delete()`: at the root the store's state becomes `{}` and, the method
        going on, the container loses its "undefined" property; a plain token's
        property is removed; an array token removes the element its index
        names, after `__checkArray(true)` has made sure there is one. */
    method Delete() returns (r: Result<()>)
      modifies db, data
      ensures db.loaded == old(db.loaded) && db.dirname == old(db.dirname)
      ensures parent.None? ==> db.state == Obj(map[])
      ensures parent.Some? ==> db.state == old(db.state)
      ensures parent.None? ==> r == Ok(()) && data.fields == old(data.fields) - {"undefined"}
      ensures parent.Some? && old(CheckArray(true)).Err? ==>
        r == Err(old(CheckArray(true)).error) && data.fields == old(data.fields)
      ensures parent.Some? && old(CheckArray(true)) == Ok(None) ==>
        r == Ok(()) && data.fields == old(data.fields) - {parent.value}
      ensures parent.Some? && old(CheckArray(true)).Ok? && old(CheckArray(true)).value.Some? ==>
        var info := old(CheckArray(true)).value.value;
        && IsValid(info, old(data.fields)) == Ok(true)
        && r == Ok(())
        && data.fields == old(data.fields)[info.property :=
             Arr(DeleteItems(old(data.fields)[info.property].items, info.index))]
    {
      if parent.None? {
        db.state := Obj(map[]);
        assert Token(parent) == "undefined";
        Utils.ProcessArrayUndefined();
      }
      var arrayInfo := CheckArray(true);
      if arrayInfo.Err? {
        return Err(arrayInfo.error);
      }
      if arrayInfo.value.None? {
        data.fields := data.fields - {Token(parent)};
        return Ok(());
      }
      r := ArrayInfos.Delete(arrayInfo.value.value, data);
    }
  }

  /** What `delete` does once `__checkArray(true)` has accepted the index:
      the array loses exactly the element at the resolved index, and keeps
      the others in order. */
  lemma DeleteRemovesCheckedElement(info: ArrayInfo, fields: map<string, Value>)
    requires IsValid(info, fields) == Ok(true)
    ensures info.index.At? && info.property in fields && fields[info.property].Arr?
    ensures var items := fields[info.property].items;
      var i := Resolve(info.index.n, |items|);
      && 0 <= i < |items|
      && DeleteItems(items, info.index) == items[..i] + items[i + 1..]
      && |DeleteItems(items, info.index)| == |items| - 1
  {
  }

  // ---------------------------------------------------------------------------
  // The code as written

  /** `__checkArray` as written: its first statement logs an object built
      from `parent`, `data` and `dataPath`, names that are bound nowhere, so
      evaluating the argument throws a ReferenceError before anything else
      runs. */
  function CheckArrayAsWritten(parent: Option<string>, fields: map<string, Value>, dataPath: string, del: bool): (r: Result<Option<ArrayInfo>>)
    ensures r == Err(Native("ReferenceError", "parent is not defined"))
  {
    Err(Native("ReferenceError", "parent is not defined"))
  }

  /** `__checkArray` as written without its logging line: the index check
      reads `this.data`, which is never assigned, so `isValid` reads a
      property of `undefined` and throws a TypeError whenever the index is
      checked. */
  function CheckArrayUndefinedDataAsWritten(parent: Option<string>, del: bool): (r: Result<Option<ArrayInfo>>)
    ensures Utils.ProcessArray(Token(parent)).Ok? && Utils.ProcessArray(Token(parent)).value.Some? ==>
      (ChecksIndex(Utils.ProcessArray(Token(parent)).value.value, del) <==> r.Err? && r.error.Native?)
  {
    match Utils.ProcessArray(Token(parent))
    case Err(e) => Err(e)
    case Ok(None) => Ok(None)
    case Ok(Some(info)) =>
      if !ChecksIndex(info, del) then Ok(Some(info))
      else Err(Native("TypeError", "Cannot read properties of undefined (reading '" + info.property + "')"))
  }

  /** `setData` on an array token as written: when the property exists the
      array check reads `this.data`, which is `undefined`, and throws; when it
      is absent the bare read is followed by a push or an assignment on
      `undefined`, which throws too. The container never changes. */
  function SetArrayAsWritten(info: ArrayInfo, fields: map<string, Value>, value: Value): (r: Result<map<string, Value>>)
    ensures r.Err? && r.error.Native?
  {
    if info.property in fields then
      Err(Native("TypeError", "Cannot read properties of undefined (reading '" + info.property + "')"))
    else Err(NotArrayFailure(info.property))
  }

  /** The logging line makes every non-root read fail, where the intended
      `getData` returns the property. */
  lemma CheckArrayAsWrittenBreaksGetData(pd: ParentData)
    requires pd.parent == Some("a") && pd.data.fields == map["a" := Num(1)]
    ensures CheckArrayAsWritten(pd.parent, pd.data.fields, pd.dataPath, false).Err?
    ensures pd.GetData() == Ok(Num(1))
  {
    Utils.ProcessArrayPlainA();
  }

  /** Reading `this.data` makes a valid index fail, where the intended check
      accepts it. */
  lemma CheckArrayUndefinedDataRejectsValidIndex(pd: ParentData)
    requires pd.parent == Some("list[0]") && pd.data.fields == map["list" := Arr([Num(7)])]
    ensures CheckArrayUndefinedDataAsWritten(pd.parent, false).Err?
    ensures pd.CheckArray(false) == Ok(Some(ArrayInfo("list", At(0))))
    ensures pd.GetData() == Ok(Num(7))
  {
    Utils.ProcessArrayListZero();
  }

  /** Reading `this.data` makes a push onto an existing array fail, where the
      intended `setData` appends the value. */
  lemma SetArrayAsWrittenRejectsPush()
    ensures SetArrayAsWritten(ArrayInfo("list", Append), map["list" := Arr([])], Num(3)).Err?
    ensures SetItems([], Append, Num(3)) == [Num(3)]
  {
  }
}
