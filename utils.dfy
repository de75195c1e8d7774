/** Path-token helpers of lib/utils.js: recognising an array accessor inside a
    token, and trimming the edge slashes of a data path. */
module Utils {
  import opened Errs
  import opened Json
  import opened ArrayInfos
  import Merges

  /** The last position before `end` holding `c`, if any. */
  function LastIndexBefore(s: string, c: char, end: nat): (r: Option<nat>)
    requires end <= |s|
    ensures r.Some? ==> r.value < end && s[r.value] == c && forall j :: r.value < j < end ==> s[j] != c
    ensures r.None? ==> forall j :: 0 <= j < end ==> s[j] != c
    decreases end
  {
    if end == 0 then None
    else if s[end - 1] == c then Some(end - 1)
    else LastIndexBefore(s, c, end - 1)
  }

  /** The capture groups of `/(.*)\[(.+|)\]/` on a token without line breaks.
      The greedy `(.*)` stops at the last `[` that still has a `]` after it, and
      the greedy `(.+|)` runs up to the last `]`; the match need not reach the
      end of the token. */
  function SplitArrayToken(prop: string): (r: Option<(string, string)>)
    ensures r.None? <==> !exists i, j :: 0 <= i < j < |prop| && prop[i] == '[' && prop[j] == ']'
    ensures r.Some? ==>
      var (name, idx) := r.value;
      && |name| + |idx| + 2 <= |prop|
      && prop == name + "[" + idx + "]" + prop[|name| + |idx| + 2..]
      && (forall k :: 0 <= k < |idx| ==> idx[k] != '[')
      && (forall k :: |name| + |idx| + 2 <= k < |prop| ==> prop[k] != ']')
  {
    match LastIndexBefore(prop, ']', |prop|)
    case None => None
    case Some(close) =>
      match LastIndexBefore(prop, '[', close)
      case None => None
      case Some(open) =>
        var name, idx := prop[..open], prop[open + 1..close];
        assert prop == name + "[" + idx + "]" + prop[close + 1..];
        Some((name, idx))
  }

  /** The split is the only one with no `[` inside the brackets and no `]`
      after them, so the groups are determined by the token alone. */
  lemma SplitArrayTokenIsUnique(prop: string, name: string, idx: string, rest: string)
    requires prop == name + "[" + idx + "]" + rest
    requires forall k :: 0 <= k < |idx| ==> idx[k] != '['
    requires forall k :: 0 <= k < |rest| ==> rest[k] != ']'
    ensures SplitArrayToken(prop) == Some((name, idx))
  {
    var close := |name| + |idx| + 1;
    assert prop[close] == ']';
    assert forall j :: close < j < |prop| ==> prop[j] == rest[j - close - 1];
    var c := LastIndexBefore(prop, ']', |prop|);
    assert c == Some(close);
    assert prop[|name|] == '[';
    assert forall j :: |name| < j < close ==> prop[j] == idx[j - |name| - 1];
    var o := LastIndexBefore(prop, '[', close);
    assert o == Some(|name|);
    assert prop[..|name|] == name;
    assert prop[|name| + 1..close] == idx;
  }

  /** `processArray(prop)`: no accessor in the token gives `null` (a plain
      property); otherwise the ArrayInfo built from the two groups, whose
      construction may fail with DataError 200. */
  function ProcessArray(prop: string): (r: Result<Option<ArrayInfo>>)
    ensures r == Ok(None) <==> SplitArrayToken(prop).None?
    ensures SplitArrayToken(prop).Some? ==>
      var (name, idx) := SplitArrayToken(prop).value;
      match NewArrayInfo(name, idx)
      case Ok(info) => r == Ok(Some(info))
      case Err(e) => r == Err(e)
  {
    match SplitArrayToken(prop)
    case None => Ok(None)
    case Some((name, idx)) =>
      match NewArrayInfo(name, idx)
      case Ok(info) => Ok(Some(info))
      case Err(e) => Err(e)
  }

  lemma ProcessArrayAppend()
    ensures ProcessArray("list[]") == Ok(Some(ArrayInfo("list", Append)))
  {
    SplitArrayTokenIsUnique("list[]", "list", "", "");
  }

  lemma ProcessArrayLast()
    ensures ProcessArray("items[-1]") == Ok(Some(ArrayInfo("items", At(-1))))
  {
    SplitArrayTokenIsUnique("items[-1]", "items", "-1", "");
    assert "-1"[1..] == "1";
  }

  lemma ProcessArrayNonNumeric()
    ensures ProcessArray("a[x]").Err?
    ensures Is(ProcessArray("a[x]").error, DataError, NonNumericIndex)
  {
    SplitArrayTokenIsUnique("a[x]", "a", "x", "");
  }

  lemma ProcessArrayPlain()
    ensures ProcessArray("items") == Ok(None)
  {
  }

  lemma ProcessArrayPlainA()
    ensures ProcessArray("a") == Ok(None)
  {
  }

  /** The root's token, `undefined` read as text, is a plain property. */
  lemma ProcessArrayUndefined()
    ensures ProcessArray("undefined") == Ok(None)
  {
  }

  lemma ProcessArrayListZero()
    ensures ProcessArray("list[0]") == Ok(Some(ArrayInfo("list", At(0))))
  {
    SplitArrayTokenIsUnique("list[0]", "list", "0", "");
  }

  /** `merge(...srcs)`: the sources folded, left to right, into a fresh `{}`;
      an accumulated `null` is the value that gets replaced. The result has
      exactly the keys of the sources. */
  method Merge(srcs: seq<Value>) returns (dest: map<string, Value>)
    ensures dest == Merges.MergeAll(Merges.ReplaceNull, srcs)
    ensures forall k :: k in dest <==> exists i :: 0 <= i < |srcs| && k in Merges.KeysOf(srcs[i])
  {
    dest := Merges.MergeWith(Merges.ReplaceNull, srcs);
    forall k | true
      ensures k in dest <==> exists i :: 0 <= i < |srcs| && k in Merges.KeysOf(srcs[i])
    {
      Merges.MergeAllKeys(Merges.ReplaceNull, srcs, k);
    }
  }

  predicate StartsWithSlash(s: string) { |s| > 0 && s[0] == '/' }
  predicate EndsWithSlash(s: string) { |s| > 0 && s[|s| - 1] == '/' }

  /** `removeEdgeSlashes(dataPath)`: the global replace of `^\/|\/$` removes a
      leading slash and a trailing slash, each at most once; a lone `/` is both
      and goes once. Paths are taken to hold no line breaks. */
  function RemoveEdgeSlashes(path: string): (r: string)
    ensures StartsWithSlash(path) ==> path == "/" + r || path == "/" + r + "/"
    ensures !StartsWithSlash(path) ==> path == r || path == r + "/"
    ensures EndsWithSlash(path) && |path| > 1 ==> path == r + "/" || path == "/" + r + "/"
    ensures !EndsWithSlash(path) ==> path == r || path == "/" + r
    ensures StartsWithSlash(path) && EndsWithSlash(path) && |path| > 1 ==> path == "/" + r + "/"
  {
    var t := if StartsWithSlash(path) then path[1..] else path;
    if EndsWithSlash(t) then t[..|t| - 1] else t
  }

  lemma RemoveEdgeSlashesExamples()
    ensures RemoveEdgeSlashes("/") == ""
    ensures RemoveEdgeSlashes("//") == ""
    ensures RemoveEdgeSlashes("///") == "/"
    ensures RemoveEdgeSlashes("//a//") == "/a/"
    ensures RemoveEdgeSlashes("/a/b/") == "a/b"
    ensures RemoveEdgeSlashes("a/b") == "a/b"
  {
  }
}
