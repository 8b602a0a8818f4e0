/** Decoded JSON (and `literal_eval`) values as the organizer sees them,
    Python truthiness, dictionaries, and the files its loaders read. */
module Json {
  import opened Wrappers

  /** A decoded value. Objects keep their pairs in iteration order. */
  datatype Value =
    | Null
    | Bool(b: bool)
    | Int(i: int)
    | Str(s: string)
    | Obj(fields: seq<(string, Value)>)
    | List(items: seq<Value>)

  /** A Python dict with string keys, as the sequence of its (key, value)
      pairs in iteration order. A dict built by successive assignments is
      the sequence of those assignments: a later pair for the same key
      overrides an earlier one. */
  type Dict = seq<(string, Value)>

  /** Python's `bool(v)`. */
  predicate Truthy(v: Value) {
    match v
    case Null => false
    case Bool(b) => b
    case Int(i) => i != 0
    case Str(s) => s != ""
    case Obj(f) => f != []
    case List(xs) => xs != []
  }

  /** Python's `bool(s)` for an optional string argument: given and non-empty. */
  predicate Given(s: Option<string>) {
    s.Some? && s.value != ""
  }

  function KeysOf(d: Dict): set<string> {
    set i | 0 <= i < |d| :: d[i].0
  }

  /** The mapping a dict denotes: every key it holds, with the value of the
      last pair for that key. */
  function ToMap(d: Dict): (m: map<string, Value>)
    ensures m.Keys == KeysOf(d)
    ensures d != [] ==> d[|d| - 1].0 in m && m[d[|d| - 1].0] == d[|d| - 1].1
  {
    if d == [] then map[]
    else
      var init := d[..|d| - 1];
      var m := ToMap(init)[d[|d| - 1].0 := d[|d| - 1].1];
      assert KeysOf(d) == KeysOf(init) + {d[|d| - 1].0} by {
        forall k | k in KeysOf(d) ensures k in KeysOf(init) + {d[|d| - 1].0} {
          var i :| 0 <= i < |d| && d[i].0 == k;
          if i < |d| - 1 {
            assert init[i] == d[i];
          }
        }
      }
      m
  }

  /** `m.update(d)`: every key of `d` now maps to its last value in `d`;
      the other entries of `m` stay as they were. */
  function Update(m: map<string, Value>, d: Dict): (r: map<string, Value>)
    ensures r.Keys == m.Keys + KeysOf(d)
    ensures forall k :: k in KeysOf(d) ==> r[k] == ToMap(d)[k]
    ensures forall k :: k in m && k !in KeysOf(d) ==> r[k] == m[k]
  {
    m + ToMap(d)
  }

  /** Every key of a dict maps, in the mapping it denotes, to the value of
      one of its pairs. */
  lemma {:induction false} ToMapValue(d: Dict, k: string)
    requires k in KeysOf(d)
    ensures exists j :: 0 <= j < |d| && d[j].0 == k && ToMap(d)[k] == d[j].1
    decreases |d|
  {
    var last := |d| - 1;
    if d[last].0 != k {
      var init := d[..last];
      assert k in KeysOf(init) by {
        var i :| 0 <= i < |d| && d[i].0 == k;
        assert init[i] == d[i];
      }
      ToMapValue(init, k);
      var j :| 0 <= j < |init| && init[j].0 == k && ToMap(init)[k] == init[j].1;
      assert d[j] == init[j];
    }
  }

  /** A last pair with another key leaves a key's entry as the pairs
      before it decided. */
  lemma ToMapInit(d: Dict, k: string)
    requires d != [] && d[|d| - 1].0 != k
    ensures k in ToMap(d) <==> k in ToMap(d[..|d| - 1])
    ensures k in ToMap(d) ==> ToMap(d)[k] == ToMap(d[..|d| - 1])[k]
  {
  }

  /** Two dicts with the same key at every index take each key's value
      from the same index. */
  lemma {:induction false} ToMapSameIndex(d: Dict, e: Dict, k: string)
    requires |e| == |d| && forall i :: 0 <= i < |d| ==> e[i].0 == d[i].0
    requires k in KeysOf(d)
    ensures k in KeysOf(e)
    ensures exists j :: 0 <= j < |d| && d[j].0 == k && ToMap(d)[k] == d[j].1 && ToMap(e)[k] == e[j].1
    decreases |d|
  {
    var last := |d| - 1;
    var j :| 0 <= j < |d| && d[j].0 == k;
    assert e[j].0 == k;
    if d[last].0 != k {
      var di := d[..last];
      var ei := e[..last];
      assert forall i :: 0 <= i < |di| ==> ei[i].0 == di[i].0 by {
        forall i | 0 <= i < |di| ensures ei[i].0 == di[i].0 {
          assert di[i] == d[i] && ei[i] == e[i];
        }
      }
      assert k in KeysOf(di) by {
        assert di[j] == d[j];
      }
      ToMapSameIndex(di, ei, k);
      var j' :| 0 <= j' < |di| && di[j'].0 == k && ToMap(di)[k] == di[j'].1 && ToMap(ei)[k] == ei[j'].1;
      ToMapInit(d, k);
      ToMapInit(e, k);
      assert di[j'] == d[j'] && ei[j'] == e[j'];
    }
  }

  /** Updating with no pairs changes nothing. */
  lemma UpdateEmpty(m: map<string, Value>)
    ensures Update(m, []) == m
  {
    assert ToMap([]) == map[];
  }

  /** Two updates in a row: the later dict wins, then the earlier one,
      then the original entries. */
  lemma UpdateTwice(m: map<string, Value>, f: Dict, e: Dict)
    ensures var t := Update(Update(m, f), e);
      && t.Keys == m.Keys + KeysOf(f) + KeysOf(e)
      && (forall k :: k in KeysOf(e) ==> t[k] == ToMap(e)[k])
      && (forall k :: k in KeysOf(f) && k !in KeysOf(e) ==> t[k] == ToMap(f)[k])
      && (forall k :: k in m && k !in KeysOf(f) && k !in KeysOf(e) ==> t[k] == m[k])
  {
  }

  /** `d.get(k, default)`. */
  function Get(d: Dict, k: string, default: Value): Value {
    var m := ToMap(d);
    if k in m then m[k] else default
  }

  /** `d.get(k, default)` answers with the value of the last pair whose
      key is `k`, and with `default` only when no pair has that key. */
  lemma {:induction false} GetValue(d: Dict, k: string, default: Value)
    ensures k !in KeysOf(d) ==> Get(d, k, default) == default
    ensures k in KeysOf(d) ==>
      exists j :: 0 <= j < |d| && d[j].0 == k && Get(d, k, default) == d[j].1
        && forall i :: j < i < |d| ==> d[i].0 != k
    decreases |d|
  {
    if k in KeysOf(d) {
      var last := |d| - 1;
      if d[last].0 != k {
        var init := d[..last];
        assert k in KeysOf(init) by {
          var i :| 0 <= i < |d| && d[i].0 == k;
          assert init[i] == d[i];
        }
        GetValue(init, k, default);
        ToMapInit(d, k);
        var j :| 0 <= j < |init| && init[j].0 == k && Get(init, k, default) == init[j].1
          && forall i :: j < i < |init| ==> init[i].0 != k;
        assert d[j] == init[j];
        forall i | j < i < |d| ensures d[i].0 != k {
          if i < last {
            assert d[i] == init[i];
          }
        }
      }
    }
  }

  /** What reading one file as UTF-8 text yields: a decoded value; a
      failure the loaders catch (invalid JSON, or an `OSError` while
      reading); or bytes that are not UTF-8, whose `UnicodeDecodeError` no
      loader catches. */
  datatype Content = Parsed(value: Value) | Unparsable | Undecodable

  /** The files the loaders can see, by resolved path. A path that is not a
      key does not exist; opening it raises an `IOError`. */
  type Disk = map<string, Content>
}
