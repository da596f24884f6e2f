/**
 * A model of the parameter-sweep generator `default_with_one_parameter_changed`
 * from the test utilities (testing/overwrite.py).
 *
 * Given a default configuration and, for each parameter name, an ordered list
 * of candidate values, the generator produces, for every name and every value
 * in order, a fresh copy of the default in which that one key is set to that
 * value. Keyword arguments become an ordered list of (name, values) pairs and
 * the generator's output becomes the whole sequence it would yield.
 */
module Overwrite {

  /** What the caller passes as `default`: nothing, a dictionary, or any
      other object, known here only by the printed form of its type. */
  datatype Default<K, V> =
    | Missing
    | Dict(entries: map<K, V>)
    | NotADict(typeName: string)

  /** The generator's only error: the assertion raised for a non-dict default. */
  datatype Error = AssertionError(message: string)

  datatype Result<T> = Ok(value: T) | Err(error: Error)

  /** The fixed text that opens the assertion message. */
  const NotADictPrefix: string := "default should be a dict not a "

  /** The message of the assertion raised for a default of the given type:
      the fixed text, then the printed type. */
  function NotADictMessage(typeName: string): (msg: string)
    ensures |msg| == |NotADictPrefix| + |typeName|
    ensures msg[..|NotADictPrefix|] == NotADictPrefix
    ensures msg[|NotADictPrefix|..] == typeName
  {
    NotADictPrefix + typeName
  }

  /** One configuration: a copy of `d` with key `p` set to `v`. It holds `p`
      whatever `d` held, and agrees with `d` on every other key. */
  function WithOneChanged<K, V>(d: map<K, V>, p: K, v: V): (r: map<K, V>)
    ensures r.Keys == d.Keys + {p}
    ensures p in r && r[p] == v
    ensures forall k :: k in d && k != p ==> r[k] == d[k]
  {
    d[p := v]
  }

  /** The configurations for one parameter, one per value, in the order of
      its values: the `j`-th has `p` set to the `j`-th value and every other
      key of the default untouched. */
  function Group<K, V>(d: map<K, V>, p: K, values: seq<V>): (r: seq<map<K, V>>)
    ensures |r| == |values|
    ensures forall j :: 0 <= j < |values| ==> r[j].Keys == d.Keys + {p}
    ensures forall j :: 0 <= j < |values| ==> p in r[j] && r[j][p] == values[j]
    ensures forall j, k :: 0 <= j < |values| && k in d && k != p ==> r[j][k] == d[k]
  {
    seq(|values|, j requires 0 <= j < |values| => WithOneChanged(d, p, values[j]))
  }

  /** The configurations for all parameters, group after group, in the order
      the parameters were given. */
  function Sweep<K, V>(d: map<K, V>, params: seq<(K, seq<V>)>): (r: seq<map<K, V>>)
    ensures |r| == TotalValues(params)
  {
    if params == [] then []
    else Group(d, params[0].0, params[0].1) + Sweep(d, params[1..])
  }

  /** The whole generator: resolve the default, reject a non-dict, sweep. */
  function Generate<K, V>(default: Default<K, V>, params: seq<(K, seq<V>)>): (r: Result<seq<map<K, V>>>)
    ensures r.Err? <==> default.NotADict?
    ensures default.NotADict? ==> r == Err(AssertionError(NotADictMessage(default.typeName)))
    ensures r.Ok? ==> |r.value| == TotalValues(params)
  {
    match default
    case Missing => SweepLength(map[], params); Ok(Sweep(map[], params))
    case Dict(m) => SweepLength(m, params); Ok(Sweep(m, params))
    case NotADict(t) => Err(AssertionError(NotADictMessage(t)))
  }

  // ---------------------------------------------------------------------
  // Reference definitions: the flattened (parameter, value) pairs

  /** The number of candidate values over all parameters. */
  function TotalValues<K, V>(params: seq<(K, seq<V>)>): nat
  {
    if params == [] then 0 else |params[0].1| + TotalValues(params[1..])
  }

  /** Every (parameter, value) pair, parameter by parameter, value by value. */
  function Pairs<K, V>(params: seq<(K, seq<V>)>): seq<(K, V)>
  {
    if params == [] then []
    else seq(|params[0].1|, j requires 0 <= j < |params[0].1| => (params[0].0, params[0].1[j]))
         + Pairs(params[1..])
  }

  /** Where the group of parameter `i` starts in the output. */
  function Offset<K, V>(params: seq<(K, seq<V>)>, i: nat): nat
    requires i <= |params|
  {
    TotalValues(params[..i])
  }

  // ---------------------------------------------------------------------
  // The generator as the source writes it: two nested loops that copy the
  // default, set one key and append the copy to the output.

  method DefaultWithOneParameterChanged<K, V>(default: Default<K, V>, params: seq<(K, seq<V>)>)
    returns (r: Result<seq<map<K, V>>>)
    ensures r == Generate(default, params)
  {
    var d: map<K, V>;
    match default {
      case Missing => d := map[];
      case Dict(m) => d := m;
      case NotADict(t) => return Err(AssertionError(NotADictMessage(t)));
    }
    var out: seq<map<K, V>> := [];
    var i := 0;
    while i < |params|
      invariant 0 <= i <= |params|
      invariant out == Sweep(d, params[..i])
    {
      var (name, values) := params[i];
      var j := 0;
      while j < |values|
        invariant 0 <= j <= |values|
        invariant out == Sweep(d, params[..i]) + Group(d, name, values[..j])
      {
        var paramSet := d;
        paramSet := paramSet[name := values[j]];
        assert values[..j + 1] == values[..j] + [values[j]];
        GroupAppend(d, name, values[..j], [values[j]]);
        out := out + [paramSet];
        j := j + 1;
      }
      assert values[..j] == values;
      SweepAppend(d, params[..i], [params[i]]);
      assert params[..i] + [params[i]] == params[..i + 1];
      i := i + 1;
    }
    assert params[..i] == params;
    r := Ok(out);
  }

  // ---------------------------------------------------------------------
  // Properties

  /** The configurations for two value lists one after the other are the
      configurations for their concatenation. */
  lemma GroupAppend<K, V>(d: map<K, V>, p: K, a: seq<V>, b: seq<V>)
    ensures Group(d, p, a + b) == Group(d, p, a) + Group(d, p, b)
  {
  }

  /** Sweeping two parameter lists one after the other is sweeping their
      concatenation. */
  lemma {:induction false} SweepAppend<K, V>(d: map<K, V>, a: seq<(K, seq<V>)>, b: seq<(K, seq<V>)>)
    ensures Sweep(d, a + b) == Sweep(d, a) + Sweep(d, b)
  {
    if a == [] {
      assert a + b == b;
    } else {
      assert (a + b)[1..] == a[1..] + b;
      SweepAppend(d, a[1..], b);
    }
  }

  lemma {:induction false} TotalValuesAppend<K, V>(a: seq<(K, seq<V>)>, b: seq<(K, seq<V>)>)
    ensures TotalValues(a + b) == TotalValues(a) + TotalValues(b)
  {
    if a == [] {
      assert a + b == b;
    } else {
      assert (a + b)[1..] == a[1..] + b;
      TotalValuesAppend(a[1..], b);
    }
  }

  /** One configuration per candidate value: the output length is the sum,
      over all parameters, of the number of their values. */
  lemma {:induction false} SweepLength<K, V>(d: map<K, V>, params: seq<(K, seq<V>)>)
    ensures |Sweep(d, params)| == TotalValues(params) == |Pairs(params)|
  {
    if params != [] {
      SweepLength(d, params[1..]);
    }
  }

  /** The configuration at flattened index `k` is the default with the `k`-th
      (parameter, value) pair applied. */
  lemma {:induction false} SweepAt<K, V>(d: map<K, V>, params: seq<(K, seq<V>)>, k: nat)
    requires k < TotalValues(params)
    ensures k < |Sweep(d, params)| && k < |Pairs(params)|
    ensures Sweep(d, params)[k] == WithOneChanged(d, Pairs(params)[k].0, Pairs(params)[k].1)
  {
    SweepLength(d, params);
    var n := |params[0].1|;
    if k >= n {
      SweepLength(d, params[1..]);
      SweepAt(d, params[1..], k - n);
    }
  }

  /** What each configuration contains: its parameter maps to its value, its
      keys are the default's keys plus the parameter, and every other key maps
      to exactly its default value. */
  lemma OutputContents<K, V>(d: map<K, V>, params: seq<(K, seq<V>)>, k: nat)
    requires k < TotalValues(params)
    ensures k < |Sweep(d, params)| && k < |Pairs(params)|
    ensures var (p, v) := Pairs(params)[k];
      var c := Sweep(d, params)[k];
      && c.Keys == d.Keys + {p}
      && c[p] == v
      && forall key :: key in d && key != p ==> c[key] == d[key]
  {
    SweepAt(d, params, k);
  }

  /** Grouping and order: the group of parameter `i` occupies the indices from
      Offset(params, i) to Offset(params, i + 1), and within it the value at
      position `j` of that parameter appears at Offset(params, i) + j. */
  lemma SweepGrouped<K, V>(d: map<K, V>, params: seq<(K, seq<V>)>, i: nat, j: nat)
    requires i < |params| && j < |params[i].1|
    ensures Offset(params, i + 1) == Offset(params, i) + |params[i].1|
    ensures Offset(params, i) + j < |Sweep(d, params)|
    ensures Sweep(d, params)[Offset(params, i) + j] == WithOneChanged(d, params[i].0, params[i].1[j])
  {
    var before, here, after := params[..i], [params[i]], params[i + 1..];
    assert params == before + here + after;
    assert params[..i + 1] == before + here;
    TotalValuesAppend(before, here);
    assert TotalValues(here) == |params[i].1| by {
      assert here[1..] == [];
    }
    SweepAppend(d, before + here, after);
    SweepAppend(d, before, here);
    var g := Group(d, params[i].0, params[i].1);
    assert Sweep(d, here) == g by {
      assert here[1..] == [];
    }
    var n := Offset(params, i);
    assert Sweep(d, params) == Sweep(d, before) + g + Sweep(d, after);
    assert Sweep(d, params)[n + j] == g[j];
    assert g[j] == WithOneChanged(d, params[i].0, params[i].1[j]);
  }

  /** A parameter with no candidate values contributes nothing. */
  lemma EmptyParameterContributesNothing<K, V>(d: map<K, V>, a: seq<(K, seq<V>)>, p: K, b: seq<(K, seq<V>)>)
    ensures Sweep(d, a + [(p, [])] + b) == Sweep(d, a + b)
  {
    SweepAppend(d, a + [(p, [])], b);
    SweepAppend(d, a, [(p, [])]);
    SweepAppend(d, a, b);
  }

  /** No parameters means no configurations, whatever the default is. */
  lemma NoParametersNoOutput<K, V>(default: Default<K, V>)
    ensures !default.NotADict? ==> Generate(default, []) == Ok([])
  {
  }

  /** A missing default behaves exactly like an empty dictionary. */
  lemma MissingIsEmptyDict<K, V>(params: seq<(K, seq<V>)>)
    ensures Generate(Missing, params) == Generate(Dict(map[]), params)
  {
  }

  /** Each configuration is built from the default alone: it depends on its own
      (parameter, value) pair and on nothing produced before it, so two
      configurations for the same pair are equal wherever they appear. */
  lemma ConfigurationsIndependent<K, V>(d: map<K, V>, params: seq<(K, seq<V>)>, k1: nat, k2: nat)
    requires k1 < |Pairs(params)| && k2 < |Pairs(params)|
    requires Pairs(params)[k1] == Pairs(params)[k2]
    ensures k1 < |Sweep(d, params)| && k2 < |Sweep(d, params)|
    ensures Sweep(d, params)[k1] == Sweep(d, params)[k2]
  {
    SweepLength(d, params);
    SweepAt(d, params, k1);
    SweepAt(d, params, k2);
  }
}
