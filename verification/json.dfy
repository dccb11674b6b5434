/**
 * The JSON-like values the server handles: product records from the
 * product database, nested image maps, nutrient lists.  A Python dict is an
 * ordered sequence of key/value pairs (insertion order); lookup finds the
 * first pair with the key, as a dict with unique keys would.
 */
module Json {
  import opened Wrappers

  datatype Value =
    | Null
    | Bool(b: bool)
    | Num(n: real)          // Python int and float alike
    | Str(s: string)
    | List(items: seq<Value>)
    | Dict(fields: seq<(string, Value)>)

  type Fields = seq<(string, Value)>

  /** The Python exceptions the modelled code raises on badly shaped data. */
  datatype PyError = TypeError | AttributeError

  /** Position of the first pair whose key is `k`. */
  function Find(fs: Fields, k: string): (r: Option<nat>)
    ensures r.Some? ==> r.value < |fs| && fs[r.value].0 == k
    ensures r.Some? ==> forall j :: 0 <= j < r.value ==> fs[j].0 != k
    ensures r.None? ==> forall j :: 0 <= j < |fs| ==> fs[j].0 != k
  {
    if |fs| == 0 then None
    else if fs[0].0 == k then Some(0)
    else
      match Find(fs[1..], k)
      case None => None
      case Some(i) => Some(i + 1)
  }

  /** `k in d` */
  predicate HasKey(fs: Fields, k: string) {
    Find(fs, k).Some?
  }

  /** `d.get(k, default)` */
  function GetOr(fs: Fields, k: string, default: Value): Value {
    match Find(fs, k)
    case Some(i) => fs[i].1
    case None => default
  }

  function Keys(fs: Fields): seq<string> {
    seq(|fs|, i requires 0 <= i < |fs| => fs[i].0)
  }

  /**
   * `d[k] = v`: an existing key keeps its position and takes the new value,
   * a new key is appended at the end.
   */
  function SetField(fs: Fields, k: string, v: Value): (r: Fields)
    ensures HasKey(r, k) && GetOr(r, k, Null) == v
    ensures forall k', d :: k' != k ==> GetOr(r, k', d) == GetOr(fs, k', d)
    ensures forall k' :: HasKey(r, k') <==> HasKey(fs, k') || k' == k
    ensures HasKey(fs, k) ==> |r| == |fs|
    ensures !HasKey(fs, k) ==> |r| == |fs| + 1 && r[|fs|] == (k, v)
    ensures forall i :: 0 <= i < |fs| ==> r[i].0 == fs[i].0
  {
    match Find(fs, k)
    case Some(i) =>
      var r := fs[i := (k, v)];
      assert forall k' :: Find(r, k') == Find(fs, k') by {
        forall k' ensures Find(r, k') == Find(fs, k') {
          FindSameKeys(fs, r, k');
        }
      }
      r
    case None =>
      var r := fs + [(k, v)];
      assert forall k' :: k' != k ==> Find(r, k') == Find(fs, k') by {
        forall k' | k' != k ensures Find(r, k') == Find(fs, k') {
          FindAppend(fs, k', (k, v));
        }
      }
      FindAppendNew(fs, k, v);
      r
  }

  /** Lookup only depends on the keys' positions. */
  lemma {:induction false} FindSameKeys(fs: Fields, gs: Fields, k: string)
    requires |fs| == |gs|
    requires forall i :: 0 <= i < |fs| ==> fs[i].0 == gs[i].0
    ensures Find(fs, k) == Find(gs, k)
  {
    if |fs| > 0 && fs[0].0 != k {
      FindSameKeys(fs[1..], gs[1..], k);
    }
  }

  lemma {:induction false} FindAppend(fs: Fields, k: string, p: (string, Value))
    requires p.0 != k
    ensures Find(fs + [p], k) == Find(fs, k)
  {
    if |fs| > 0 && fs[0].0 != k {
      assert (fs + [p])[1..] == fs[1..] + [p];
      FindAppend(fs[1..], k, p);
    }
  }

  lemma {:induction false} FindAppendNew(fs: Fields, k: string, v: Value)
    requires Find(fs, k).None?
    ensures Find(fs + [(k, v)], k) == Some(|fs|)
  {
    if |fs| > 0 {
      assert (fs + [(k, v)])[1..] == fs[1..] + [(k, v)];
      FindAppendNew(fs[1..], k, v);
    }
  }

  /** Python truthiness: `bool(v)`. */
  predicate Truthy(v: Value) {
    match v
    case Null => false
    case Bool(b) => b
    case Num(n) => n != 0.0
    case Str(s) => s != ""
    case List(xs) => xs != []
    case Dict(fs) => fs != []
  }

  /**
   * The elements a Python `for` loop visits: a list's items, a dict's keys,
   * a string's characters; `None` for values that are not iterable.
   */
  function Iterate(v: Value): (r: Option<seq<Value>>)
    ensures r.Some? ==> (|r.value| == 0 <==> !Truthy(v))
    ensures r.None? <==> v.Null? || v.Bool? || v.Num?
  {
    match v
    case List(xs) => Some(xs)
    case Dict(fs) => Some(seq(|fs|, i requires 0 <= i < |fs| => Str(fs[i].0)))
    case Str(s) => Some(seq(|s|, i requires 0 <= i < |s| => Str([s[i]])))
    case _ => None
  }
}
