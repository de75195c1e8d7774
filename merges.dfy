/** The two key-wise recursive merges: `merge` of lib/utils.js and `deepMerge`
    of db.js. Both fold their sources, left to right, into a fresh object; for
    each key `for...in` yields, the accumulated value decides: the "empty"
    marker is replaced, an array is concatenated with the incoming value, an
    object is merged with it recursively, and anything else is overwritten.
    The two differ only in the empty marker: `null` for `merge`, `undefined`
    for `deepMerge`. */
module Merges {
  import opened Json
  import Decimal

  datatype Policy = ReplaceNull | ReplaceUndefined

  /** The first condition of the loop body: `dest[prop] === null` in lib/utils.js,
      `dest[prop] === undefined` in db.js. */
  predicate Replaces(p: Policy, v: Value) {
    match p
    case ReplaceNull => v == Null
    case ReplaceUndefined => v == Undefined
  }

  /** The keys `for...in` yields for a value: an object's own keys, the index
      keys of an array or a string, none for anything else. */
  function KeysOf(v: Value): set<string> {
    match v
    case Obj(f) => f.Keys
    case Arr(items) => Decimal.IndexKeys(|items|)
    case Str(s) => Decimal.IndexKeys(|s|)
    case _ => {}
  }

  /** `v[k]` for a key that `for...in` yields. */
  function Entry(v: Value, k: string): Value
    requires k in KeysOf(v)
  {
    match v
    case Obj(f) => f[k]
    case Arr(items) => items[Decimal.KeyIndex(k, |items|)]
    case Str(s) => Str([s[Decimal.KeyIndex(k, |s|)]])
  }

  /** The own entries of an object-typed accumulated value, which a nested
      merge copies into its fresh result first (`null` has none). */
  function Entries(v: Value): map<string, Value>
    requires v.Obj? || v.Null?
  {
    if v.Obj? then v.fields else map[]
  }

  /** What `concat` appends: the elements of an array, any other value whole. */
  function Spread(v: Value): seq<Value> {
    if v.Arr? then v.items else [v]
  }

  /** The loop body for key `k`: the new value of `dest[k]` when `v` arrives. */
  function Combine(p: Policy, dest: map<string, Value>, k: string, v: Value): Value
    decreases v, 2
  {
    if k in dest && Replaces(p, dest[k]) then v
    else if k in dest && dest[k].Arr? then Arr(dest[k].items + Spread(v))
    else if k in dest && IsObjectTyped(dest[k]) then Obj(MergeInto(p, Entries(dest[k]), v))
    else v
  }

  /** The loop body for a key of a string source, whose entries are
      one-character strings; a nested merge into an object meets the same
      character again under key "0". */
  function CombineChar(p: Policy, dest: map<string, Value>, k: string, c: char): Value
    decreases Obj(dest)
  {
    if k in dest && Replaces(p, dest[k]) then Str([c])
    else if k in dest && dest[k].Arr? then Arr(dest[k].items + [Str([c])])
    else if k in dest && dest[k].Obj? then Obj(dest[k].fields["0" := CombineChar(p, dest[k].fields, "0", c)])
    else if k in dest && dest[k].Null? then Obj(map["0" := Str([c])])
    else Str([c])
  }

  /** One pass of `for (var prop in src)` over the accumulated object `dest`.
      Keys of one source are distinct, so each reads the value `dest` had
      before the pass. */
  function MergeInto(p: Policy, dest: map<string, Value>, src: Value): (r: map<string, Value>)
    decreases src, 1
  {
    match src
    case Obj(f) => ObjectPass(p, dest, f, f.Keys)
    case Arr(items) => ArrayPass(p, dest, items, |items|)
    case Str(s) => StringPass(p, dest, s, |s|)
    case _ => dest
  }

  /** `dest` after the keys in `done` of an object source were visited. */
  function ObjectPass(p: Policy, dest: map<string, Value>, f: map<string, Value>, done: set<string>): map<string, Value>
    requires done <= f.Keys
    decreases Obj(f), 0
  {
    map k | k in dest.Keys + done :: if k in done then Combine(p, dest, k, f[k]) else dest[k]
  }

  /** `dest` after the first `n` positions of an array source were visited. */
  function ArrayPass(p: Policy, dest: map<string, Value>, items: seq<Value>, n: nat): map<string, Value>
    requires n <= |items|
    decreases Arr(items), 0
  {
    map k | k in dest.Keys + Decimal.IndexKeys(n) ::
      if k in Decimal.IndexKeys(n) then Combine(p, dest, k, items[Decimal.KeyIndex(k, n)]) else dest[k]
  }

  /** `dest` after the first `n` characters of a string source were visited. */
  function StringPass(p: Policy, dest: map<string, Value>, s: string, n: nat): map<string, Value>
    requires n <= |s|
  {
    map k | k in dest.Keys + Decimal.IndexKeys(n) ::
      if k in Decimal.IndexKeys(n) then CombineChar(p, dest, k, s[Decimal.KeyIndex(k, n)]) else dest[k]
  }

  /** The loop body reads only `dest[k]`. */
  lemma CombineReadsOnlyKey(p: Policy, d1: map<string, Value>, d2: map<string, Value>, k: string, v: Value)
    requires k in d1 <==> k in d2
    requires k in d1 ==> d1[k] == d2[k]
    ensures Combine(p, d1, k, v) == Combine(p, d2, k, v)
  {
  }

  lemma CombineCharReadsOnlyKey(p: Policy, d1: map<string, Value>, d2: map<string, Value>, k: string, c: char)
    requires k in d1 <==> k in d2
    requires k in d1 ==> d1[k] == d2[k]
    ensures CombineChar(p, d1, k, c) == CombineChar(p, d2, k, c)
  {
  }

  lemma ObjectPassStep(p: Policy, dest: map<string, Value>, f: map<string, Value>, done: set<string>, k: string)
    requires done <= f.Keys && k in f.Keys - done
    ensures var before := ObjectPass(p, dest, f, done);
      && (k in before <==> k in dest) && (k in dest ==> before[k] == dest[k])
      && ObjectPass(p, dest, f, done + {k}) == before[k := Combine(p, dest, k, f[k])]
  {
  }

  lemma ArrayPassStep(p: Policy, dest: map<string, Value>, items: seq<Value>, n: nat)
    requires n < |items|
    ensures var before := ArrayPass(p, dest, items, n);
      var k := Decimal.ShowNat(n);
      && (k in before <==> k in dest) && (k in dest ==> before[k] == dest[k])
      && ArrayPass(p, dest, items, n + 1) == before[k := Combine(p, dest, k, items[n])]
  {
    var k := Decimal.ShowNat(n);
    var before := ArrayPass(p, dest, items, n);
    var after := ArrayPass(p, dest, items, n + 1);
    ArrayPassKeys(p, dest, items, n);
    forall j | j in after.Keys
      ensures after[j] == before[k := Combine(p, dest, k, items[n])][j]
    {
      ArrayPassValue(p, dest, items, n, j);
    }
  }

  lemma ArrayPassKeys(p: Policy, dest: map<string, Value>, items: seq<Value>, n: nat)
    requires n < |items|
    ensures var k := Decimal.ShowNat(n);
      && ArrayPass(p, dest, items, n + 1).Keys == ArrayPass(p, dest, items, n).Keys + {k}
      && (k in ArrayPass(p, dest, items, n) <==> k in dest)
      && (k in dest ==> ArrayPass(p, dest, items, n)[k] == dest[k])
  {
    Decimal.IndexKeysStep(n);
  }

  lemma ArrayPassValue(p: Policy, dest: map<string, Value>, items: seq<Value>, n: nat, j: string)
    requires n < |items|
    requires j in ArrayPass(p, dest, items, n + 1)
    ensures var k := Decimal.ShowNat(n);
      var before := ArrayPass(p, dest, items, n);
      && (j != k ==> j in before && ArrayPass(p, dest, items, n + 1)[j] == before[j])
      && (j == k ==> ArrayPass(p, dest, items, n + 1)[j] == Combine(p, dest, k, items[n]))
  {
    Decimal.IndexKeysStep(n);
    Decimal.ParseShowNat(n);
    if j in Decimal.IndexKeys(n) {
      Decimal.IndexKeyParses(j, n);
    }
  }

  lemma StringPassStep(p: Policy, dest: map<string, Value>, s: string, n: nat)
    requires n < |s|
    ensures var before := StringPass(p, dest, s, n);
      var k := Decimal.ShowNat(n);
      && (k in before <==> k in dest) && (k in dest ==> before[k] == dest[k])
      && StringPass(p, dest, s, n + 1) == before[k := CombineChar(p, dest, k, s[n])]
  {
    Decimal.IndexKeysStep(n);
    Decimal.ParseShowNat(n);
    var k := Decimal.ShowNat(n);
    var before := StringPass(p, dest, s, n);
    var after := StringPass(p, dest, s, n + 1);
    forall j | j in after.Keys
      ensures j in before[k := CombineChar(p, dest, k, s[n])] && after[j] == before[k := CombineChar(p, dest, k, s[n])][j]
    {
      if j in Decimal.IndexKeys(n) {
        Decimal.IndexKeyParses(j, n);
      }
    }
  }

  /** The merge of all sources, left to right, into a fresh object. */
  function MergeAll(p: Policy, srcs: seq<Value>): map<string, Value> {
    if srcs == [] then map[] else MergeInto(p, MergeAll(p, srcs[..|srcs| - 1]), srcs[|srcs| - 1])
  }

  // ---------------------------------------------------------------------------
  // What the merge does, key by key.

  /** Visiting a character is visiting the one-character string it is. */
  lemma CombineCharIsCombine(p: Policy, dest: map<string, Value>, k: string, c: char)
    ensures CombineChar(p, dest, k, c) == Combine(p, dest, k, Str([c]))
  {
    if k in dest && !Replaces(p, dest[k]) && !dest[k].Arr? && IsObjectTyped(dest[k]) {
      var e := Entries(dest[k]);
      assert Decimal.ShowNat(0) == "0";
      Decimal.ParseShowNat(0);
      assert Decimal.IndexKeys(1) == {"0"};
      assert MergeInto(p, e, Str([c])) == e["0" := CombineChar(p, e, "0", c)];
    }
  }

  /** One pass: the keys become those of `dest` and of the source; each key the
      source yields gets the loop body's value, every other key keeps its
      value. */
  lemma MergeIntoAt(p: Policy, dest: map<string, Value>, src: Value, k: string)
    ensures MergeInto(p, dest, src).Keys == dest.Keys + KeysOf(src)
    ensures k in KeysOf(src) ==> MergeInto(p, dest, src)[k] == Combine(p, dest, k, Entry(src, k))
    ensures k !in KeysOf(src) && k in dest ==> MergeInto(p, dest, src)[k] == dest[k]
  {
    if src.Str? && k in KeysOf(src) {
      CombineCharIsCombine(p, dest, k, src.s[Decimal.KeyIndex(k, |src.s|)]);
    }
  }

  /** The keys of the merge are exactly the keys of all the sources. */
  lemma {:induction false} MergeAllKeys(p: Policy, srcs: seq<Value>, k: string)
    ensures k in MergeAll(p, srcs) <==> exists i :: 0 <= i < |srcs| && k in KeysOf(srcs[i])
  {
    if srcs != [] {
      var last := |srcs| - 1;
      MergeAllKeys(p, srcs[..last], k);
      MergeIntoAt(p, MergeAll(p, srcs[..last]), srcs[last], k);
      if k in KeysOf(srcs[last]) {
        assert 0 <= last < |srcs| && k in KeysOf(srcs[last]);
      } else if k in MergeAll(p, srcs[..last]) {
        var i :| 0 <= i < last && k in KeysOf(srcs[..last][i]);
        assert k in KeysOf(srcs[i]);
      } else {
        forall i | 0 <= i < |srcs|
          ensures k !in KeysOf(srcs[i])
        {
          if i < last {
            assert srcs[i] == srcs[..last][i];
          }
        }
      }
    }
  }

  /** A key that only one source yields keeps that source's value. */
  lemma {:induction false} MergeAllSingleSource(p: Policy, srcs: seq<Value>, i: nat, k: string)
    requires i < |srcs| && k in KeysOf(srcs[i])
    requires forall j :: 0 <= j < |srcs| && j != i ==> k !in KeysOf(srcs[j])
    ensures k in MergeAll(p, srcs) && MergeAll(p, srcs)[k] == Entry(srcs[i], k)
  {
    var last := |srcs| - 1;
    var prefix := srcs[..last];
    MergeIntoAt(p, MergeAll(p, prefix), srcs[last], k);
    if i == last {
      forall j | 0 <= j < |prefix|
        ensures k !in KeysOf(prefix[j])
      {
        assert prefix[j] == srcs[j];
      }
      MergeAllKeys(p, prefix, k);
    } else {
      forall j | 0 <= j < |prefix| && j != i
        ensures k !in KeysOf(prefix[j])
      {
        assert prefix[j] == srcs[j];
      }
      MergeAllSingleSource(p, prefix, i, k);
    }
  }

  /** The step that visits source `i` at key `k`: the loop body applied to the
      value accumulated from the sources before it. */
  lemma MergeAllStep(p: Policy, srcs: seq<Value>, i: nat, k: string)
    requires i < |srcs| && k in KeysOf(srcs[i])
    ensures k in MergeAll(p, srcs[..i + 1])
    ensures MergeAll(p, srcs[..i + 1])[k] == Combine(p, MergeAll(p, srcs[..i]), k, Entry(srcs[i], k))
  {
    assert srcs[..i + 1][..i] == srcs[..i];
    MergeIntoAt(p, MergeAll(p, srcs[..i]), srcs[i], k);
  }

  /** Accumulated array: the incoming value is concatenated after the existing
      elements (spread when it is itself an array). */
  lemma MergeConcatenatesArrays(p: Policy, srcs: seq<Value>, i: nat, k: string)
    requires i < |srcs| && k in KeysOf(srcs[i])
    requires var acc := MergeAll(p, srcs[..i]); k in acc && acc[k].Arr?
    ensures k in MergeAll(p, srcs[..i + 1])
    ensures var acc := MergeAll(p, srcs[..i]); var v := Entry(srcs[i], k);
      && MergeAll(p, srcs[..i + 1])[k] == Arr(acc[k].items + Spread(v))
      && (v.Arr? ==> |MergeAll(p, srcs[..i + 1])[k].items| == |acc[k].items| + |v.items|)
  {
    MergeAllStep(p, srcs, i, k);
  }

  /** Accumulated empty marker (`null` for `merge`, `undefined` for
      `deepMerge`): the incoming value replaces it. */
  lemma MergeReplacesEmptyMarker(p: Policy, srcs: seq<Value>, i: nat, k: string)
    requires i < |srcs| && k in KeysOf(srcs[i])
    requires var acc := MergeAll(p, srcs[..i]); k in acc && Replaces(p, acc[k])
    ensures k in MergeAll(p, srcs[..i + 1])
    ensures MergeAll(p, srcs[..i + 1])[k] == Entry(srcs[i], k)
  {
    MergeAllStep(p, srcs, i, k);
  }

  /** Merging an object-typed value with another is copying its entries into
      a fresh object and merging the other one in. */
  lemma MergePairIsCopyThenMerge(p: Policy, a: Value, b: Value)
    requires a.Obj? || a.Null?
    ensures MergeAll(p, [a, b]) == MergeInto(p, Entries(a), b)
  {
    assert [a, b][..1] == [a];
    assert [a][..0] == [];
    assert MergeAll(p, [a]) == MergeInto(p, map[], a);
    assert MergeAll(p, [a, b]) == MergeInto(p, MergeAll(p, [a]), b);
    if a.Obj? {
      forall k | k in a.fields
        ensures Combine(p, map[], k, a.fields[k]) == a.fields[k]
      {
      }
      assert MergeInto(p, map[], a) == a.fields;
    }
  }

  /** Accumulated object (or, for `deepMerge`, `null`): the result is the
      recursive `merge(dest[prop], src[prop])`. */
  lemma MergeRecursesIntoObjects(p: Policy, srcs: seq<Value>, i: nat, k: string)
    requires i < |srcs| && k in KeysOf(srcs[i])
    requires var acc := MergeAll(p, srcs[..i]);
      k in acc && !Replaces(p, acc[k]) && (acc[k].Obj? || acc[k].Null?)
    ensures k in MergeAll(p, srcs[..i + 1])
    ensures var acc := MergeAll(p, srcs[..i]);
      MergeAll(p, srcs[..i + 1])[k] == Obj(MergeAll(p, [acc[k], Entry(srcs[i], k)]))
  {
    MergeAllStep(p, srcs, i, k);
    MergePairIsCopyThenMerge(p, MergeAll(p, srcs[..i])[k], Entry(srcs[i], k));
  }

  /** Nothing accumulated at the key, or a scalar: the later source wins. */
  lemma MergeLaterScalarWins(p: Policy, srcs: seq<Value>, i: nat, k: string)
    requires i < |srcs| && k in KeysOf(srcs[i])
    requires var acc := MergeAll(p, srcs[..i]);
      k !in acc || (!IsObjectTyped(acc[k]) && !Replaces(p, acc[k]))
    ensures k in MergeAll(p, srcs[..i + 1])
    ensures MergeAll(p, srcs[..i + 1])[k] == Entry(srcs[i], k)
  {
    MergeAllStep(p, srcs, i, k);
  }

  /** Two objects with disjoint keys merge into their union. */
  lemma MergeDisjointObjects(p: Policy, a: map<string, Value>, b: map<string, Value>)
    requires a.Keys !! b.Keys
    ensures MergeAll(p, [Obj(a), Obj(b)]) == a + b
  {
    MergePairIsCopyThenMerge(p, Obj(a), Obj(b));
    forall k | k in b
      ensures Combine(p, a, k, b[k]) == b[k]
    {
    }
    assert ObjectPass(p, a, b, b.Keys) == a + b;
  }

  /** `deepMerge` treats an accumulated `null` as an object and `merge`
      replaces it, so the two part ways exactly there. */
  lemma NullSeparatesThePolicies()
    ensures MergeAll(ReplaceNull, [Obj(map["a" := Null]), Obj(map["a" := Num(5)])]) == map["a" := Num(5)]
    ensures MergeAll(ReplaceUndefined, [Obj(map["a" := Null]), Obj(map["a" := Num(5)])]) == map["a" := Obj(map[])]
  {
    MergePairIsCopyThenMerge(ReplaceNull, Obj(map["a" := Null]), Obj(map["a" := Num(5)]));
    MergePairIsCopyThenMerge(ReplaceUndefined, Obj(map["a" := Null]), Obj(map["a" := Num(5)]));
    assert MergeInto(ReplaceUndefined, map[], Num(5)) == map[];
  }

  // ---------------------------------------------------------------------------
  // Without `null` and `undefined` the two policies coincide.

  /** No `null` and no `undefined` anywhere inside. */
  predicate Definite(v: Value) {
    match v
    case Undefined => false
    case Null => false
    case Arr(items) => forall i :: 0 <= i < |items| ==> Definite(items[i])
    case Obj(f) => forall k :: k in f ==> Definite(f[k])
    case _ => true
  }

  predicate AllDefinite(m: map<string, Value>) {
    forall k :: k in m ==> Definite(m[k])
  }

  lemma SpreadDefinite(items: seq<Value>, v: Value)
    requires forall i :: 0 <= i < |items| ==> Definite(items[i])
    requires Definite(v)
    ensures Definite(Arr(items + Spread(v)))
  {
    var r := items + Spread(v);
    forall i | 0 <= i < |r|
      ensures Definite(r[i])
    {
      if i >= |items| && v.Arr? {
        assert r[i] == v.items[i - |items|];
      }
    }
  }

  lemma {:induction false} CombineCharAgrees(dest: map<string, Value>, k: string, c: char)
    requires AllDefinite(dest)
    ensures CombineChar(ReplaceNull, dest, k, c) == CombineChar(ReplaceUndefined, dest, k, c)
    ensures Definite(CombineChar(ReplaceNull, dest, k, c))
    decreases Obj(dest)
  {
    if k in dest && dest[k].Obj? {
      CombineCharAgrees(dest[k].fields, "0", c);
    } else if k in dest && dest[k].Arr? {
      SpreadDefinite(dest[k].items, Str([c]));
    }
  }

  lemma {:induction false} CombineAgrees(dest: map<string, Value>, k: string, v: Value)
    requires AllDefinite(dest) && Definite(v)
    ensures Combine(ReplaceNull, dest, k, v) == Combine(ReplaceUndefined, dest, k, v)
    ensures Definite(Combine(ReplaceNull, dest, k, v))
    decreases v, 2
  {
    if k in dest && dest[k].Arr? {
      SpreadDefinite(dest[k].items, v);
    } else if k in dest && dest[k].Obj? {
      MergeIntoAgrees(dest[k].fields, v);
    }
  }

  lemma {:induction false} MergeIntoAgrees(dest: map<string, Value>, src: Value)
    requires AllDefinite(dest) && Definite(src)
    ensures MergeInto(ReplaceNull, dest, src) == MergeInto(ReplaceUndefined, dest, src)
    ensures AllDefinite(MergeInto(ReplaceNull, dest, src))
    decreases src, 1
  {
    match src
    case Obj(f) => ObjectPassAgrees(dest, f);
    case Arr(items) => ArrayPassAgrees(dest, items);
    case Str(s) =>
      forall k | k in Decimal.IndexKeys(|s|) {
        CombineCharAgrees(dest, k, s[Decimal.KeyIndex(k, |s|)]);
      }
    case _ =>
  }

  lemma {:induction false} ObjectPassAgrees(dest: map<string, Value>, f: map<string, Value>)
    requires AllDefinite(dest) && Definite(Obj(f))
    ensures ObjectPass(ReplaceNull, dest, f, f.Keys) == ObjectPass(ReplaceUndefined, dest, f, f.Keys)
    ensures AllDefinite(ObjectPass(ReplaceNull, dest, f, f.Keys))
    decreases Obj(f), 0
  {
    forall k | k in f {
      CombineAgrees(dest, k, f[k]);
    }
  }

  lemma {:induction false} ArrayPassAgrees(dest: map<string, Value>, items: seq<Value>)
    requires AllDefinite(dest) && Definite(Arr(items))
    ensures ArrayPass(ReplaceNull, dest, items, |items|) == ArrayPass(ReplaceUndefined, dest, items, |items|)
    ensures AllDefinite(ArrayPass(ReplaceNull, dest, items, |items|))
    decreases Arr(items), 0
  {
    forall k | k in Decimal.IndexKeys(|items|) {
      CombineAgrees(dest, k, items[Decimal.KeyIndex(k, |items|)]);
    }
  }

  /** `merge` and `deepMerge` give the same result on sources that hold no
      `null` and no `undefined`: their replace conditions are the only difference. */
  lemma {:induction false} PoliciesAgreeOnDefiniteSources(srcs: seq<Value>)
    requires forall i :: 0 <= i < |srcs| ==> Definite(srcs[i])
    ensures MergeAll(ReplaceNull, srcs) == MergeAll(ReplaceUndefined, srcs)
    ensures AllDefinite(MergeAll(ReplaceNull, srcs))
  {
    if srcs != [] {
      var last := |srcs| - 1;
      PoliciesAgreeOnDefiniteSources(srcs[..last]);
      MergeIntoAgrees(MergeAll(ReplaceNull, srcs[..last]), srcs[last]);
    }
  }

  // ---------------------------------------------------------------------------
  // The loops of the source, proved against the functions above.

  /** `merge(...srcs)` (`p` = ReplaceNull) and `deepMerge(...srcs)`
      (`p` = ReplaceUndefined): the outer loop over the sources. */
  method MergeWith(p: Policy, srcs: seq<Value>) returns (dest: map<string, Value>)
    ensures dest == MergeAll(p, srcs)
  {
    dest := map[];
    var i := 0;
    while i < |srcs|
      invariant 0 <= i <= |srcs|
      invariant dest == MergeAll(p, srcs[..i])
    {
      assert srcs[..i + 1][..i] == srcs[..i];
      dest := MergeSource(p, dest, srcs[i]);
      i := i + 1;
    }
    assert srcs[..|srcs|] == srcs;
  }

  /** The inner `for...in` loop over one source, assigning `dest[prop]` key by
      key. */
  method MergeSource(p: Policy, dest: map<string, Value>, src: Value) returns (r: map<string, Value>)
    ensures r == MergeInto(p, dest, src)
    decreases src, 1
  {
    match src
    case Obj(f) => r := MergeObject(p, dest, f);
    case Arr(items) => r := MergeArray(p, dest, items);
    case Str(s) => r := MergeString(p, dest, s);
    case _ => r := dest;
  }

  method MergeObject(p: Policy, dest: map<string, Value>, f: map<string, Value>) returns (r: map<string, Value>)
    ensures r == ObjectPass(p, dest, f, f.Keys)
    decreases Obj(f), 0
  {
    r := dest;
    var todo := f.Keys;
    while todo != {}
      invariant todo <= f.Keys
      invariant r == ObjectPass(p, dest, f, f.Keys - todo)
      decreases todo
    {
      var k :| k in todo;
      ObjectPassStep(p, dest, f, f.Keys - todo, k);
      CombineReadsOnlyKey(p, r, dest, k, f[k]);
      var v := CombineStep(p, r, k, f[k]);
      r := r[k := v];
      assert f.Keys - (todo - {k}) == (f.Keys - todo) + {k};
      todo := todo - {k};
    }
  }

  method MergeArray(p: Policy, dest: map<string, Value>, items: seq<Value>) returns (r: map<string, Value>)
    ensures r == ArrayPass(p, dest, items, |items|)
    decreases Arr(items), 0
  {
    r := dest;
    var i := 0;
    while i < |items|
      invariant 0 <= i <= |items|
      invariant r == ArrayPass(p, dest, items, i)
    {
      var k := Decimal.ShowNat(i);
      ArrayPassStep(p, dest, items, i);
      CombineReadsOnlyKey(p, r, dest, k, items[i]);
      var v := CombineStep(p, r, k, items[i]);
      r := r[k := v];
      i := i + 1;
    }
  }

  method MergeString(p: Policy, dest: map<string, Value>, s: string) returns (r: map<string, Value>)
    ensures r == StringPass(p, dest, s, |s|)
  {
    r := dest;
    var i := 0;
    while i < |s|
      invariant 0 <= i <= |s|
      invariant r == StringPass(p, dest, s, i)
    {
      var k := Decimal.ShowNat(i);
      StringPassStep(p, dest, s, i);
      CombineCharReadsOnlyKey(p, r, dest, k, s[i]);
      r := r[k := CombineChar(p, r, k, s[i])];
      i := i + 1;
    }
  }

  /** One assignment of the loop body, recursing for an object. */
  method CombineStep(p: Policy, dest: map<string, Value>, k: string, v: Value) returns (w: Value)
    ensures w == Combine(p, dest, k, v)
    decreases v, 2
  {
    if k in dest && Replaces(p, dest[k]) {
      w := v;
    } else if k in dest && dest[k].Arr? {
      w := Arr(dest[k].items + Spread(v));
    } else if k in dest && IsObjectTyped(dest[k]) {
      var nested := MergeSource(p, Entries(dest[k]), v);
      w := Obj(nested);
    } else {
      w := v;
    }
  }
}
