/**
 * JSON values as Python holds them after `json.loads`, and the operations the
 * client performs on Python dicts: `d.get(k)`, `d[k] = v` and `d.update(e)`.
 * A dict is a sequence of key/value pairs in insertion order, because Python
 * dicts keep that order and `json.dumps` writes keys in it.
 */
module Json {
  import opened Wrappers
  import opened Strings

  datatype Json =
    | JNull
    | JBool(b: bool)
    | JInt(n: int)
    | JStr(s: string)
    | JArray(items: seq<Json>)
    | JObject(fields: seq<(string, Json)>)

  type Dict = seq<(string, Json)>

  /** What every Python dict satisfies: no key twice. */
  predicate DistinctKeys(d: Dict)
  {
    forall i, j :: 0 <= i < j < |d| ==> d[i].0 != d[j].0
  }

  /** `d.get(k)`. */
  function Get(d: Dict, k: string): (r: Option<Json>)
    ensures r.None? <==> k !in Keys(d)
    ensures r.Some? ==> (k, r.value) in d
  {
    if |d| == 0 then None else if d[0].0 == k then Some(d[0].1) else Get(d[1..], k)
  }

  /** `d[k] = v`: an existing key keeps its place, a new key goes last. */
  function Put(d: Dict, k: string, v: Json): (r: Dict)
  {
    if |d| == 0 then [(k, v)]
    else if d[0].0 == k then [(k, v)] + d[1..]
    else [d[0]] + Put(d[1..], k, v)
  }

  /** `d.update(e)`: the pairs of `e` put into `d` one after another. */
  function Update(d: Dict, e: Dict): Dict
    decreases |e|
  {
    if |e| == 0 then d else Update(Put(d, e[0].0, e[0].1), e[1..])
  }

  lemma {:induction false} GetPut(d: Dict, k: string, v: Json, k': string)
    ensures Get(Put(d, k, v), k') == if k' == k then Some(v) else Get(d, k')
  {
    if |d| > 0 && d[0].0 != k {
      GetPut(d[1..], k, v, k');
    }
  }

  lemma {:induction false} KeysPut(d: Dict, k: string, v: Json)
    ensures Keys(Put(d, k, v)) == if k in Keys(d) then Keys(d) else Keys(d) + [k]
  {
    if |d| > 0 && d[0].0 != k {
      KeysPut(d[1..], k, v);
      assert Keys(d) == [d[0].0] + Keys(d[1..]);
    }
  }

  /** After `d.update(e)` a key reads as in `e` when `e` has it, and as in `d` otherwise. */
  lemma {:induction false} GetUpdate(d: Dict, e: Dict, k: string)
    requires DistinctKeys(e)
    ensures Get(Update(d, e), k) == if k in Keys(e) then Get(e, k) else Get(d, k)
    decreases |e|
  {
    if |e| > 0 {
      assert DistinctKeys(e[1..]);
      GetUpdate(Put(d, e[0].0, e[0].1), e[1..], k);
      GetPut(d, e[0].0, e[0].1, k);
      assert Keys(e) == [e[0].0] + Keys(e[1..]);
      if k == e[0].0 {
        assert k !in Keys(e[1..]);
      }
    }
  }

  /** Updating with pairs whose keys are new and distinct appends them in order. */
  lemma {:induction false} UpdateFresh(d: Dict, e: Dict)
    requires DistinctKeys(e)
    requires forall i :: 0 <= i < |e| ==> e[i].0 !in Keys(d)
    ensures Update(d, e) == d + e
    decreases |e|
  {
    if |e| > 0 {
      var d' := d + [e[0]];
      assert Update(d, e) == Update(d', e[1..]) by {
        PutNew(d, e[0].0, e[0].1);
      }
      FreshTail(d, e);
      UpdateFresh(d', e[1..]);
      MoveFirst(d, e);
    }
  }

  lemma MoveFirst(d: Dict, e: Dict)
    requires |e| > 0
    ensures (d + [e[0]]) + e[1..] == d + e
  {
    assert e == [e[0]] + e[1..];
  }

  /** The step of `UpdateFresh`: once `e[0]` is appended, the rest of `e` is still fresh. */
  lemma FreshTail(d: Dict, e: Dict)
    requires |e| > 0 && DistinctKeys(e)
    requires forall i :: 0 <= i < |e| ==> e[i].0 !in Keys(d)
    ensures DistinctKeys(e[1..])
    ensures forall i :: 0 <= i < |e[1..]| ==> e[1..][i].0 !in Keys(d + [e[0]])
  {
    PutNew(d, e[0].0, e[0].1);
    KeysPut(d, e[0].0, e[0].1);
    assert Keys(d + [e[0]]) == Keys(d) + [e[0].0];
    forall i | 0 <= i < |e[1..]|
      ensures e[1..][i].0 !in Keys(d + [e[0]])
    {
      assert e[1..][i] == e[i + 1];
      assert e[i + 1].0 != e[0].0;
    }
  }

  lemma {:induction false} PutNew(d: Dict, k: string, v: Json)
    requires k !in Keys(d)
    ensures Put(d, k, v) == d + [(k, v)]
  {
    if |d| > 0 {
      assert Keys(d) == [d[0].0] + Keys(d[1..]);
      PutNew(d[1..], k, v);
    }
  }

  /** `type(j).__name__`. */
  function TypeName(j: Json): string
  {
    match j
    case JNull => "NoneType"
    case JBool(_) => "bool"
    case JInt(_) => "int"
    case JStr(_) => "str"
    case JArray(_) => "list"
    case JObject(_) => "dict"
  }
}
