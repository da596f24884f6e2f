# One-parameter-changed sweep generator

This project models `default_with_one_parameter_changed`, the table-driven test
generator in `testing/overwrite.py`. It takes a default configuration (a
dictionary, or nothing) and, for every named parameter, an ordered list of
candidate values. For each parameter in the order given, and each of its values
in order, it yields a fresh copy of the default in which that one key is set to
that value. A default that is not a dictionary raises an `AssertionError`.

The model (`overwrite.dfy`, module `Overwrite`) encodes:

- the keyword parameters as an ordered list `seq<(K, seq<V>)>` of
  (name, candidate values) pairs, which keeps keyword order;
- the `default` argument as `Default<K, V>`: `Missing` (Python `None`),
  `Dict(entries)` (a dictionary, as a `map<K, V>`), or `NotADict(typeName)`
  (any other object, known only by the printed form of its type);
- the generator's output as the whole sequence of yielded configurations, or
  `Err(AssertionError(message))` for the rejected default;
- `deepcopy` followed by `param_set[name] = v` as Dafny map update on values.
  Maps are immutable, so each configuration is a fresh, independent value and
  the default can never be changed by building one.

`DefaultWithOneParameterChanged` follows the source's control flow. It turns a
missing default into the empty map, rejects a non-dict, and runs two nested
loops that copy the default, set one key and append the copy. Its result is
proved equal to the specification function `Generate`. `Generate` is built from
`Sweep`, which goes group by group. The lemmas relate `Sweep` to independent
reference definitions: `TotalValues` (the number of candidate values), `Pairs`
(the flattened list of (parameter, value) pairs) and `Offset` (where each
parameter's group starts).

## Model

| member | source | states |
|---|---|---|
| `Overwrite.DefaultWithOneParameterChanged` | testing/overwrite.py:7-17 | The nested-loop generator returns exactly `Generate(default, params)`: the rejection for a non-dict default, otherwise every configuration of the sweep in order. |
| `Overwrite.Generate` | testing/overwrite.py:8-14 | The result is an error exactly when the default is not a dict. That error is the assertion with the "default should be a dict not a ..." message. Otherwise there is one configuration per candidate value over all parameters. |
| `Overwrite.NotADictMessage` | testing/overwrite.py:11 | The assertion message is the fixed text "default should be a dict not a " followed by the printed type of the rejected default; both parts are stated separately. |
| `Overwrite.WithOneChanged` | testing/overwrite.py:15-16 | A copied configuration has the default's keys plus the parameter. The parameter maps to the new value whether or not the default held it. Every other key keeps its default value. |
| `Overwrite.Group` | testing/overwrite.py:14-17 | One parameter produces one configuration per value, in value order. The `j`-th has the default's keys plus the parameter, maps the parameter to the `j`-th value, and keeps every other key's default value. |
| `Overwrite.GroupAppend` | testing/overwrite.py:14-17 | The configurations for a concatenated value list are those of the first part followed by those of the second; this is the step the inner loop takes when it appends one copy. |
| `Overwrite.Sweep` | testing/overwrite.py:13-17 | The functional model of the two nested loops: group after group in parameter order, one configuration per candidate value over all parameters. Its order, contents and grouping are stated by `SweepAppend`, `SweepLength`, `SweepAt`, `OutputContents`, `SweepGrouped` and `EmptyParameterContributesNothing`. |
| `Overwrite.SweepAppend` | testing/overwrite.py:13-17 | Sweeping a concatenated parameter list yields the sweep of the first part, then the sweep of the second. |
| `Overwrite.SweepLength` | testing/overwrite.py:13-14 | The number of configurations equals the sum over parameters of their value counts, and equals the number of (parameter, value) pairs. |
| `Overwrite.SweepAt` | testing/overwrite.py:13-17 | The configuration at flattened index `k` is the default with the `k`-th (parameter, value) pair applied. |
| `Overwrite.OutputContents` | testing/overwrite.py:15-16 | In the `k`-th configuration, with pair `(p, v)`, the keys are the default's keys plus `p`, `p` maps to `v`, and every other key maps to its default value. |
| `Overwrite.SweepGrouped` | testing/overwrite.py:13-17 | Parameter `i`'s group spans `Offset(i)` to `Offset(i)` plus its number of values, in the order the parameters were given. Inside it, the value at position `j` is at `Offset(i) + j`. |
| `Overwrite.EmptyParameterContributesNothing` | testing/overwrite.py:13-14 | A parameter with an empty value list can be removed without changing the output. |
| `Overwrite.NoParametersNoOutput` | testing/overwrite.py:13 | With no parameters and a dict or missing default, the output is empty. |
| `Overwrite.MissingIsEmptyDict` | testing/overwrite.py:8-9 | A missing default gives the same result as an empty dictionary, for every parameter list. |
| `Overwrite.ConfigurationsIndependent` | testing/overwrite.py:15 | Each configuration depends only on the default and its own (parameter, value) pair, not on earlier yields. Two positions with the same pair hold equal configurations. |

## Left out

- Generator laziness: Python raises the non-dict assertion on the first `next()`, not at the call, and deep-copies `default` afresh at each `next()` (testing/overwrite.py:15). The model returns the whole output sequence or the error, computed from the inputs as they are at the call. It matches full iteration only when the caller does not change its `default` dictionary or any value list while iterating; later yields reflect such changes in Python and not in the model.
- Dictionary key order: Python dicts keep insertion order, so an overridden key keeps its place and a new key goes last. `map<K, V>` is unordered, so the model does not capture key order inside a configuration.
- `deepcopy` of arbitrary values: values are opaque elements of the type parameter `V`. Dafny value semantics stand in for the copy, so aliasing between nested mutable values is not modelled, and neither is the error `deepcopy` raises for a value it cannot copy (testing/overwrite.py:15): the model has no way to represent an uncopyable value.
- Keyword-argument mechanics: `**possible_parameters` becomes an ordered list of pairs. Python guarantees distinct names, and that no name is `default`. The model needs neither assumption.
- Other `possible_values`: a non-iterable value list (a `TypeError` in Python) is ruled out by the type `seq<V>`.
- `test/test_functional.py` is not part of this model: it tests floating-point tensor transforms, which are outside this model.
