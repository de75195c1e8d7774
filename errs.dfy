/** The error values of the store: the three nested error classes, each with a
    message, a numeric id and an optional inner cause, and the errors the
    JavaScript runtime or an adapter raises on its own. */
module Errs {

  datatype Option<+T> = None | Some(value: T)

  /** The outcome of an operation that may throw. */
  datatype Result<+T> = Ok(value: T) | Err(error: Error)

  /** The three classes of lib/errs.js; they differ only in their name. */
  datatype Kind = NestedError | DatabaseError | DataError

  datatype Error =
    /** An instance of one of the classes of lib/errs.js. */
    | Raised(kind: Kind, message: string, id: int, inner: Option<Error>)
    /** An error the runtime or an adapter throws (TypeError, ReferenceError,
        SyntaxError, an I/O failure), known by its name and message. */
    | Native(name: string, message: string)

  // Error ids of the database layer.
  const LoadFailed := 1
  const SaveFailed := 2
  const NotLoaded := 7

  // Error ids of the data layer.
  const IndexNotFound := 10
  const NotAnArray := 11
  const ReadWhileAppending := 100
  const NonNumericIndex := 200

  function Name(k: Kind): string {
    match k
    case NestedError => "NestedError"
    case DatabaseError => "DatabaseError"
    case DataError => "DataError"
  }

  /** `new DataError(msg, id, nested)`. */
  function NewDataError(msg: string, id: int, nested: Option<Error>): (e: Error)
    ensures e.Raised? && Name(e.kind) == "DataError"
    ensures e.message == msg && e.id == id && e.inner == nested
  {
    Raised(DataError, msg, id, nested)
  }

  /** `new DatabaseError(msg, id, nested)`. */
  function NewDatabaseError(msg: string, id: int, nested: Option<Error>): (e: Error)
    ensures e.Raised? && Name(e.kind) == "DatabaseError"
    ensures e.message == msg && e.id == id && e.inner == nested
  {
    Raised(DatabaseError, msg, id, nested)
  }

  /** True of an error of the given class and id. */
  predicate Is(e: Error, k: Kind, id: int) {
    e.Raised? && e.kind == k && e.id == id
  }

  /** `String(e)`: for the nested classes, the name, the message and, when there
      is an inner cause, a colon, a line break and the cause's own text; for a
      runtime error, the behaviour of `Error.prototype.toString`. */
  function ToString(e: Error): (s: string)
    ensures e.Raised? ==> Name(e.kind) + ": " + e.message <= s
    ensures e.Raised? ==> (e.inner.None? <==> |s| == |Name(e.kind) + ": " + e.message|)
    ensures e.Native? && e.name == "" ==> s == e.message
    ensures e.Native? && e.message == "" ==> s == e.name
  {
    match e
    case Raised(k, msg, _, inner) =>
      Name(k) + ": " + msg + (if inner.Some? then ":\n" + ToString(inner.value) else "")
    case Native(name, msg) =>
      if msg == "" then name else if name == "" then msg else name + ": " + msg
  }

  /** The innermost cause of a chain of nested errors. */
  function RootCause(e: Error): (c: Error)
    ensures c.Raised? ==> c.inner.None?
  {
    if e.Raised? && e.inner.Some? then RootCause(e.inner.value) else e
  }

  /** Without an inner cause the text is exactly `name: message`. */
  lemma ToStringWithoutCause(e: Error)
    requires e.Raised? && e.inner.None?
    ensures ToString(e) == Name(e.kind) + ": " + e.message
  {
  }

  /** With an inner cause the text is the outer header, `:\n`, then the cause's
      own text. */
  lemma ToStringWithCause(e: Error)
    requires e.Raised? && e.inner.Some?
    ensures ToString(e) == Name(e.kind) + ": " + e.message + ":\n" + ToString(e.inner.value)
  {
  }

  /** However deeply errors are wrapped, the text ends with the text of the
      root cause. */
  lemma {:induction false} ToStringEndsWithRootCause(e: Error)
    ensures |ToString(RootCause(e))| <= |ToString(e)|
    ensures ToString(e)[|ToString(e)| - |ToString(RootCause(e))|..] == ToString(RootCause(e))
  {
    if e.Raised? && e.inner.Some? {
      var head := Name(e.kind) + ": " + e.message + ":\n";
      assert ToString(e) == head + ToString(e.inner.value);
      ToStringEndsWithRootCause(e.inner.value);
    }
  }

  /** The three classes differ only in the name at the head of the text: the
      same message, id and cause under another class give the same text after
      the name. */
  lemma KindChangesOnlyName(e: Error, k: Kind)
    requires e.Raised?
    ensures var e' := e.(kind := k);
      && e'.message == e.message && e'.id == e.id && e'.inner == e.inner
      && ToString(e') == Name(k) + ToString(e)[|Name(e.kind)|..]
  {
    var tail := Tail(e);
    var t, t' := ToString(e), ToString(e.(kind := k));
    assert t == Name(e.kind) + tail;
    assert t' == Name(k) + tail;
    assert t[|Name(e.kind)|..] == tail;
  }

  /** The text of a nested error after its name. */
  function Tail(e: Error): string
    requires e.Raised?
  {
    ": " + e.message + (if e.inner.Some? then ":\n" + ToString(e.inner.value) else "")
  }
}
