# alike, modelled in Dafny

`alike` is a structural-comparison helper for test assertions. A *schema*
(a dict or list whose leaves are literals or deferred predicates built from
the placeholder `A`, such as `A > 5`, `A.is_missing` or `(A > 20) | (A < 12)`)
is compared against an actual value. The comparison walks both together:
dicts by key, and lists by index after both are turned into index-keyed dicts.
At each leaf it evaluates the predicate and collects
`ErrorTuple(path, value, description)` records, depth-first in schema order.
`is_alike` returns them wrapped in an `IsLike`, which is truthy exactly when
there are none. `assert_alike` raises `UnlikeError`, whose message lists one
line per error under `Values not alike:`.

This project models that core in Dafny.

- `Text`: the string helpers the library relies on. These are `str.join`,
  `str.strip`, and `repr` of integers and strings (quote choice and
  escapes).
- `Values`: the data the comparison reads. It covers dict keys, plain
  values (ints, bools, strings, `None`, the `MISSING` sentinel, lists,
  tuples, dicts with ordered entries), Python's `==`, the ordering
  operators, `repr`, subscription and the lenient getter `_get`.
- `Results`: `ErrorTuple`, `IsLike`, the evaluated result of a node (a
  value or an `IsLike`), the error-preserving `and`/`or`, `UnlikeError`
  and its message text.
- `Expressions`: the deferred-expression layer. It has the operations a
  node can apply, nodes with their symbol, formatter and path, schemas, the
  builders of `A` and `Op`, and the rendering `Op._to_str`.
- `Comparison`: `Op._evaluate`, `Alike._is_alike`, `is_alike` and
  `assert_alike`, written as functions.
- `Walk`: the same evaluation and walk as the library runs them, with loops
  that `append`/`extend` an error list and write path prefixes. Each method
  is proved equal to its function in `Comparison`.
- `Paths`: how subscripts and calls build the path
  under which a node files nested errors.
- `Holder`: the `Alike` class, which holds its schema and updates
  `last_result`, and the free functions `is_alike` and `assert_alike` that
  create one.
- `Properties`: the general properties of the model.
- `Rendering`: the layouts of the subscript, attribute, call and `apply`
  formatters and of `_format_args`.
- `Scenarios`: cases from the library's test suite, worked out in full,
  including the exact `assert_alike` message.
- `Descriptions`: two more cases of the test suite whose descriptions
  run through nested nodes, `({'a': {'b': 5}}['a']['b']) == 6` and
  `(<lambda>([5, 6, 7])) > 4`.

`Comparison`, `Walk` and `Holder` compare with two corrections, listed under
"## Findings". Entries are read with a `_get` that gives `MISSING` for a
list index out of range, where the library's `_get` raises TypeError; so
`is_alike([1], [1, A.is_missing])` raises in the library and reports nothing
here. `A.is_alike(s)` builds a node without a path of its own, where the
library's node raises TypeError once the nested comparison reports errors.
The library's behaviour in both places is modelled beside the corrections
(`Values.GetAsWritten`, `Comparison.EvaluatePlaceholderIsAlikeAsWritten`).

Only `True` itself passes at a leaf. A bare `A.length`, or a truthy
`IsLike` returned by a leaf, therefore reports one error, as in the library
(`Properties.BareLengthFails`).

## Model

| member | source | states |
|---|---|---|
| Text.TrimStart | src/alike/__init__.py:126 | the result is the input with a leading run removed: every removed character satisfies `drop`, and the first kept one does not |
| Text.TrimEnd | src/alike/__init__.py:126 | the result is the input with a trailing run removed: every removed character satisfies `drop`, and the last kept one does not |
| Text.Strip | src/alike/__init__.py:126 | `str.strip`: the result is a middle slice of the input; everything removed before and after it is a stripped character, and the result neither starts nor ends with one |
| Text.StripKeepsTrimmed | src/alike/__init__.py:126 | stripping whitespace from a text without surrounding whitespace changes nothing |
| Text.DigitChar | src/alike/__init__.py:113 | a decimal digit's character is between '0' and '9' |
| Text.NatToString | src/alike/__init__.py:113 | the decimal text of a natural number is non-empty and starts and ends with a digit |
| Text.NatToStringAppend | src/alike/__init__.py:113 | the decimal text of `10 * q + d`, for a positive `q` and a digit `d`, is the text of `q` followed by the digit |
| Text.IntToString | src/alike/__init__.py:113 | `repr` of an int has no surrounding whitespace, ends with a digit, and starts with '-' exactly when the number is negative |
| Text.EscapeChar | src/alike/__init__.py:403 | every character has a non-empty `repr` form |
| Text.QuoteFor | src/alike/__init__.py:403 | `repr` of a string quotes with a single or a double quote |
| Text.StrRepr | src/alike/__init__.py:403 | `repr` of a string starts and ends with the same quote character and has no surrounding whitespace |
| Values.Lookup | src/alike/__init__.py:507 | a dict lookup finds nothing exactly when no entry has the key, and what it finds is stored under the key |
| Values.FirstDiff | src/alike/__init__.py:258-268 | the first position where two sequences differ: all earlier elements are equal, and the elements at that position are not |
| Values.ReprKey | src/alike/__init__.py:403 | `repr` of a path segment has no surrounding whitespace |
| Values.Enclose | src/alike/__init__.py:113 | a bracketed `repr` has no surrounding whitespace |
| Values.Repr | src/alike/__init__.py:404 | `repr` of any value has no surrounding whitespace |
| Values.ReprAll | src/alike/__init__.py:404 | one `repr` per list or tuple element |
| Values.ReprEntries | src/alike/__init__.py:404 | one `key: value` text per dict entry |
| Values.ItemGet | src/alike/__init__.py:507 | `obj[key]` raises only TypeError, KeyError or IndexError, the three errors `_get` catches |
| Values.Get | src/alike/__init__.py:505-511 | corrected `_get(obj, key, MISSING)`: a dict gives the value under a present key and `MISSING` for an absent one; a list or tuple gives the element at an index counted from either end and `MISSING` out of range or for a string key; a string gives its one-character substring; an int, bool, `None` or `MISSING` gives `MISSING` |
| Values.GetAsWritten | src/alike/__init__.py:505-511 | `_get` as written raises exactly when the subscription fails and the key is an int (the `getattr` fallback rejects it) |
| Values.PyEq | src/alike/__init__.py:452 | Python's `==` on the modelled values: ints and bools numerically, strings by content, lists and tuples element-wise within their own kind, dicts by key set and the values under each key, `None` and `MISSING` each only with itself, values of different kinds never (definition, no contract; see `Properties.PyEqReflexive`) |
| Values.PyOrder | src/alike/__init__.py:161-171 | Python's `>`, `<`, `>=`, `<=`: ints and bools numerically, strings and same-kind lists or tuples lexicographically, anything else unorderable (`None`, which `Comparison.Perform` turns into TypeError) (definition, no contract; see `Properties.OrderedPerform`) |
| Results.GetIsLikeErrors | src/alike/__init__.py:204-209 | the loop that extends the list yields the first operand's carried errors then the second's |
| Results.ApplyAnd | src/alike/__init__.py:212-219 | truthy exactly when both operands are; then `True`; otherwise an `IsLike` holding both operands' errors in order, or `False` when there are none |
| Results.ApplyOr | src/alike/__init__.py:222-229 | truthy exactly when either operand is; then `True`; otherwise an `IsLike` holding both operands' errors in order, or `False` when there are none |
| Results.ErrorLine | src/alike/__init__.py:402-405 | one message line: two spaces, the path segments' `repr`s joined by ` -> `, then `failed validation:`, the value's `repr` and `causes error:` with the description (definition, no contract) |
| Results.ErrorsToStr | src/alike/__init__.py:397-407 | `_errors_to_str`: empty for no errors, otherwise the header `Values not alike:` and one line per error, joined by newlines (definition, no contract) |
| Results.NewUnlikeError | src/alike/__init__.py:392-394 | `UnlikeError(msg, errors)` keeps the errors and its message starts with `msg`, which is all of it when there are no errors |
| Results.RaiseOnError | src/alike/__init__.py:380-383 | raises exactly when the `IsLike` is falsy (holds errors), carrying exactly those errors |
| Expressions.ReprSubject | src/alike/__init__.py:104-112 | the placeholder renders as `<A>` when no value is given and as the value's `repr` otherwise, with no surrounding whitespace |
| Expressions.ArgStrings | src/alike/__init__.py:108-115 | the i-th text is the i-th operand rendered by `arg_to_str` (a nested node in parentheses, `A` as the value's `repr`, a literal as its `repr`); an `is_alike` node adds the schema's `repr` and an `isinstance` node the types' `repr`, and no other node adds anything |
| Expressions.Equals | src/alike/__init__.py:158-159 | `x == b` builds a node applying `==` with symbol `==` and an empty path of its own (definition, no contract; also `_A.__eq__` at 255-256) |
| Expressions.Ordered | src/alike/__init__.py:161-171 | `x > b`, `x < b`, `x >= b`, `x <= b` build a node applying that ordering with its symbol (definition, no contract) |
| Expressions.And | src/alike/__init__.py:173-174 | `x & b` builds a node applying `_apply_and` with symbol `and` (definition, no contract) |
| Expressions.Or | src/alike/__init__.py:176-177 | `x \| b` builds a node applying `_apply_or` with symbol `or` (definition, no contract) |
| Expressions.Invert | src/alike/__init__.py:179-180 | `~x` builds a one-operand node applying `not` (definition, no contract) |
| Expressions.Attr | src/alike/__init__.py:131-137 | `x.name` builds an attribute node that appends `name` to the path and formats as `operand.name` (definition, no contract; its layout is `Rendering.RenderAttr`) |
| Expressions.Item | src/alike/__init__.py:139-145 | `x[key]` builds a subscript node that appends the key to the path and formats as the stripped operand with `[repr(key)]` (definition, no contract; see `Paths.ItemPath`, `Rendering.RenderItem`) |
| Expressions.Call | src/alike/__init__.py:147-156 | `x(*args, **kwargs)` builds a call node that extends the last path segment with the formatted arguments (definition, no contract; see `Paths.CallPath`, `Rendering.RenderCall`) |
| Expressions.IsAlikeOf | src/alike/__init__.py:188-189 | corrected `x.is_alike(s)`: a node running the nested comparison against `s`; on `A` it carries no path of its own (definition, no contract; see Findings) |
| Expressions.Length | src/alike/__init__.py:317-318 | `A.length` builds a node applying `len` (definition, no contract) |
| Expressions.IsFalsy | src/alike/__init__.py:321-322 | `A.is_falsy` builds a node applying `not` (definition, no contract) |
| Expressions.IsMissing | src/alike/__init__.py:325-331 | `A.is_missing` builds an identity test against `MISSING` with the fixed message "value should be missing" (definition, no contract) |
| Expressions.IsPresent | src/alike/__init__.py:334-340 | `A.is_present` builds a negated identity test against `MISSING` with the fixed message "value should be present" (definition, no contract) |
| Expressions.Apply | src/alike/__init__.py:308-314 | `A.apply(f)` builds a node applying the callback, which may return a result or raise, formatted as its name applied to the operand (definition, no contract; see `Properties.ApplyEvaluates`) |
| Expressions.IsInstance | src/alike/__init__.py:345-346 | `A.isinstance(types)` builds a node applying `isinstance` with the types as second operand (definition, no contract) |
| Expressions.EqLeaf | src/alike/__init__.py:468 | a literal schema leaf `v` is compared as `A == v` (definition, no contract; see `Properties.EqLeafEvaluates`) |
| Expressions.ArgString | src/alike/__init__.py:108-113 | `arg_to_str`: a nested node in parentheses, `A` as the value's `repr` or `<A>`, a literal as its `repr` (definition, no contract; see `Rendering.DeferredString`, `Properties.PlaceholderString`, `Properties.LiteralString`) |
| Expressions.ReprSchema | src/alike/__init__.py:113 | `repr` of the schema operand of an `is_alike` node: literals by `repr`, a nested node by its template with `<A>`, lists and dicts bracketed around their parts (definition, no contract) |
| Expressions.ArgsText | src/alike/__init__.py:232-240 | the text between the parentheses of `_format_args` (definition, no contract; see the `Rendering.Format*` lemmas) |
| Expressions.FormatArgs | src/alike/__init__.py:232-241 | `_format_args`: that text in parentheses (definition, no contract; see the `Rendering.Format*` lemmas) |
| Expressions.DefaultFormat | src/alike/__init__.py:120-126 | the layout without a formatter: first operand, symbol, remaining operands joined by `, `, stripped; a one-operand node puts the symbol first (definition, no contract; see `Properties.RenderBinary`, `Properties.RenderUnary`) |
| Expressions.Formatted | src/alike/__init__.py:117-126 | a node's custom formatter applied to the operand texts, or the default layout (definition, no contract) |
| Expressions.Render | src/alike/__init__.py:104-126 | `Op._to_str(a)`: the operand texts laid out by the node's formatter (definition, no contract; its layouts are the `Rendering` lemmas) |
| Walk.EntriesStep | src/alike/__init__.py:456-481 | one iteration of the entry loop: the entry's errors, then those of the remaining entries; an exception ends the walk |
| Walk.PrefixPaths | src/alike/__init__.py:198-200 | the loop writing `path[:0] = prefix` puts the prefix in front of every error's path, keeping values and descriptions |
| Comparison.Perform | src/alike/__init__.py:197 | `self.op(*args)`: the node's operation on its evaluated operands, with the exceptions Python raises (TypeError for unorderable or wrongly typed operands, AttributeError for a missing attribute or a call, and whatever a callback raises) (definition, no contract; see `Properties.OrderedPerform`, `Walk.PerformMethod`) |
| Comparison.EvalArgs | src/alike/__init__.py:194-196 | the operands evaluated in order, `A` to the value, nested nodes by their own evaluation, literals unchanged; the first exception stops (definition, no contract; see `Properties.OperandsPassThrough`, `Properties.DeferredOperand`) |
| Comparison.Evaluate | src/alike/__init__.py:191-201 | `Op._evaluate(a, path)`: the operation on the evaluated operands, an `IsLike` result's errors prefixed with `path + self.path` (definition, no contract; see `Properties.EvaluateUnderPath`, `Walk.EvaluateMethod`) |
| Comparison.LeafErrors | src/alike/__init__.py:472-479 | what a leaf adds: nothing for `True`, a falsy `IsLike`'s errors, otherwise one error with the rendered node (definition, no contract; see `Properties.LeafClassification`) |
| Comparison.EntryErrors | src/alike/__init__.py:459-479 | one schema entry: a nested dict or list compared recursively at `path + [key]`, a leaf evaluated and classified (definition, no contract; see `Properties.EntryUnderPath`, `Walk.EntryMethod`) |
| Comparison.Entries | src/alike/__init__.py:456-481 | the loop over the schema's entries from position `i`, each read with the corrected `_get` (definition, no contract; see `Properties.EntryVisited`, `Walk.EntriesMethod`) |
| Comparison.Compare | src/alike/__init__.py:431-481 | `Alike._is_alike`: the sequence check and index conversion for a list schema, `!=` for a scalar schema, the entry walk otherwise (definition, no contract; see `Properties.CompareUnderPath`, `Properties.ScalarSchema`, `Walk.CompareMethod`) |
| Comparison.IsAlike | src/alike/__init__.py:514-515 | `is_alike(actual, expected)`: the comparison's errors wrapped in an `IsLike` (definition, no contract; see `Holder.IsAlikeCall`) |
| Comparison.AssertAlike | src/alike/__init__.py:518-519 | `assert_alike`: passes, raises `UnlikeError` with the errors, or lets the comparison's exception through (definition, no contract; see `Properties.AssertAlikeOutcome`) |
| Comparison.EvaluatePlaceholderIsAlikeAsWritten | src/alike/__init__.py:342-343 | `A.is_alike(s)` as written: it succeeds exactly when the nested comparison reports no error, and then returns an empty `IsLike`; when there are errors it raises TypeError, standing for the `list + Op` of the prefixing step at :200, whose `self.path` comes from `_A.__getattr__` at :286-292 |
| Walk.EvaluateMethod | src/alike/__init__.py:191-201 | the operand loop and the prefixing loop compute exactly `Comparison.Evaluate` |
| Walk.PerformMethod | src/alike/__init__.py:197 | applying the node's operation, running the nested comparison for `is_alike`, computes exactly `Comparison.Perform` |
| Walk.LeafMethod | src/alike/__init__.py:463-479 | appending a leaf's errors (none, the `IsLike`'s errors one by one, or one rendered error) yields the errors so far followed by `Comparison.EntryErrors` |
| Walk.AppendLeaf | src/alike/__init__.py:472-479 | the branch on a leaf's evaluated result appends exactly `Comparison.LeafErrors` to the errors so far |
| Walk.EntryMethod | src/alike/__init__.py:459-479 | one entry (recursion for a nested dict or list, evaluation for a leaf) appends exactly `Comparison.EntryErrors` |
| Walk.CompareMethod | src/alike/__init__.py:431-454 | `_is_alike` with its early returns (reading entries with the corrected `_get`) computes exactly `Comparison.Compare` |
| Walk.EntriesAdvance | src/alike/__init__.py:456-481 | one iteration keeps the loop invariant: an exception ends the walk with it, otherwise the extended list followed by the remaining entries is the walk's outcome |
| Walk.EntriesMethod | src/alike/__init__.py:456-481 | the loop over the schema's entries (reading them with the corrected `_get`) computes exactly `Comparison.Entries` from the first entry |
| Holder.Alike.constructor | src/alike/__init__.py:415-417 | a new `Alike` keeps its schema and starts with an empty, truthy `last_result` |
| Holder.Alike.IsAlike | src/alike/__init__.py:422-425 | returns `Comparison.IsAlike(obj, schema)` and records it as `last_result`; an exception leaves `last_result` as it was |
| Holder.Alike.RaiseOnError | src/alike/__init__.py:427-428 | raises exactly when the last result holds errors, carrying those errors |
| Holder.IsAlikeCall | src/alike/__init__.py:514-515 | `is_alike(actual, expected)` through a fresh `Alike` equals `Comparison.IsAlike`, the comparison with the corrected `_get` |
| Holder.AssertAlikeCall | src/alike/__init__.py:518-519 | `assert_alike(actual, expected)` through a fresh `Alike` equals `Comparison.AssertAlike` |
| Paths.SubscriptPath | src/alike/__init__.py:139-145 | a chain of subscripts `x[k1]...[kn]` appends its keys, in order, to the receiver's path |
| Paths.ItemPath | src/alike/__init__.py:139-145 | a subscript appends its key as one path segment |
| Paths.CallPath | src/alike/__init__.py:147-156 | a call adds no segment: it keeps the path's length and earlier segments, extends the last segment with the formatted arguments, and raises TypeError exactly when that segment is an integer |
| Properties.ScalarSchema | src/alike/__init__.py:451-454 | a scalar schema reports nothing exactly when it equals the object, and otherwise exactly one "Compared object is not equal" error at the current path |
| Properties.ListSchemaNeedsSequence | src/alike/__init__.py:440-447 | a list schema against a non-list, non-tuple value (a string included) reports exactly one "Compared object is not a sequence" error and nothing per index |
| Properties.CompareUnderPath | src/alike/__init__.py:456-481 | every error a comparison at path `p` reports has a path starting with `p` |
| Properties.EntriesUnderPath | src/alike/__init__.py:456-481 | every error of the entry walk at path `p` has a path starting with `p` |
| Properties.EntryUnderPath | src/alike/__init__.py:459-479 | every error one entry reports at `p + [key]` has a path starting with `p + [key]` |
| Properties.EntriesSuffix | src/alike/__init__.py:456-481 | when the walk completes, the errors of the entries from `i` on are a suffix of all its errors |
| Properties.EntriesRest | src/alike/__init__.py:456-481 | the errors of the entries after `i` are a suffix of those from `i` on |
| Properties.EntryVisited | src/alike/__init__.py:456-481 | in a completed walk every entry is visited in schema order even when earlier siblings failed, its errors lie under `path + [key]`, and they followed by the later entries' errors end the walk's list |
| Properties.EntryDone | src/alike/__init__.py:456-481 | a completed walk from `i` is entry `i`'s errors followed by the walk from `i + 1` |
| Properties.EntryDoneAt | src/alike/__init__.py:456-481 | when entry `i` and the walk after it both succeed, the walk from `i` is entry `i`'s errors followed by the rest |
| Properties.LiteralDictCompare | src/alike/__init__.py:456-481 | a dict schema of literals never raises, ignores extra keys of the object, and reports nothing exactly when every key's looked-up value equals its literal by `==`, whatever the key order |
| Properties.LiteralEntriesFrom | src/alike/__init__.py:456-481 | the walk over literal entries from `i` never raises and reports nothing exactly when the entries from `i` all match |
| Properties.LiteralEntriesNext | src/alike/__init__.py:456-481 | the same for a walk that still has entry `i` to visit |
| Properties.LiteralEntriesEnd | src/alike/__init__.py:481 | the walk past the last entry reports nothing, and no entries are left to match |
| Properties.LiteralsMatchStep | src/alike/__init__.py:456-457 | entries from `i` match exactly when entry `i` does and those after it do |
| Properties.LiteralEntry | src/alike/__init__.py:459-479 | one literal entry raises nothing and adds no error exactly when its looked-up value equals the literal |
| Properties.LiteralLeaf | src/alike/__init__.py:468-479 | a literal leaf raises nothing and passes exactly when the value equals the literal |
| Properties.LeafClassification | src/alike/__init__.py:470-479 | a leaf adds nothing exactly when its result is `True`; a falsy `IsLike` adds its errors verbatim; anything else adds exactly one error `(path + [key], actual, op._to_str(actual))` |
| Properties.EqLeafEvaluates | src/alike/__init__.py:468 | a literal leaf `A == v` evaluates to `actual == v` |
| Properties.BareLengthFails | src/alike/__init__.py:472-479 | a bare `A.length` leaf on a list reports one error, since a length is not `True` |
| Properties.IsPresentLeaf | src/alike/__init__.py:333-340 | `A.is_present` passes exactly for a non-`MISSING` value and otherwise reports "value should be present" |
| Properties.IsMissingLeaf | src/alike/__init__.py:324-331 | `A.is_missing` passes exactly for `MISSING` and otherwise reports "value should be missing" |
| Properties.AbsentKey | src/alike/__init__.py:505-511 | a key absent from a dict is read as `MISSING`; `is_missing` then passes and `is_present` reports "value should be present" |
| Properties.OperandsPassThrough | src/alike/__init__.py:194-196 | the placeholder evaluates to the compared value and literals pass through unchanged, one result per operand |
| Properties.PlainOperands | src/alike/__init__.py:194-196 | operands without nested nodes always evaluate, each to its plain value |
| Properties.PrefixAllCompose | src/alike/__init__.py:198-200 | prefixing with `p + q` is prefixing with `q` and then with `p`: the ancestor comes first |
| Properties.PrefixAllNothing | src/alike/__init__.py:198-200 | prefixing with an empty path changes nothing |
| Properties.EvaluateUnderPath | src/alike/__init__.py:191-201 | evaluating at path `p` is evaluating at no path and then prefixing an `IsLike`'s errors with `p`; every such error's path starts with `p + op.path` |
| Properties.IsMissingOnPresent | src/alike/__init__.py:324-331 | `A.is_missing` evaluates to `False` on any present value |
| Properties.NestedIsAlike | src/alike/__init__.py:342-343 | corrected `A.is_alike(s)`: the node evaluates to an `IsLike` of the nested comparison's errors, prefixed with the evaluation path |
| Properties.OrSurfacesNested | src/alike/__init__.py:222-229 | with the corrected `A.is_alike(s)`: `A.is_missing \| A.is_alike(s)` on a present value reports exactly the nested comparison's errors under the leaf's path |
| Properties.OrEvaluates | src/alike/__init__.py:222-229 | with the corrected `A.is_alike(s)`: that `or` node evaluates to `_apply_or(False, nested IsLike)`, prefixed with the path |
| Properties.DeferredOperand | src/alike/__init__.py:194-196 | a nested node's operand is its evaluated result, followed by the remaining operands |
| Properties.EvaluateFrom | src/alike/__init__.py:191-201 | evaluation applies the operation to the evaluated operands and prefixes the result |
| Properties.DeferredIsAlike | src/alike/__init__.py:188-189 | `x.is_alike(s)` on a nested node `x`: an `IsLike` of the nested comparison's errors, prefixed with the evaluation path and the node's path, or the comparison's exception |
| Properties.ItemEvaluates | src/alike/__init__.py:139-145 | `x[k]` evaluates to the subscript of the value its operand evaluates to |
| Properties.NestedFirstOperand | src/alike/__init__.py:194-196 | a nested node followed by a literal evaluates to the nested node's value and the literal |
| Properties.NestedEqualsEvaluates | src/alike/__init__.py:158-159 | `(node) == w` evaluates to Python's `==` of the node's value and `w` |
| Properties.NestedOrderedEvaluates | src/alike/__init__.py:161-171 | `(node) > w` (and `<`, `>=`, `<=`) evaluates to Python's ordering of the node's value against `w` when they are orderable |
| Properties.ApplyEvaluates | src/alike/__init__.py:308-314 | `A.apply(f)` evaluates to what `f(value)` returns, an `IsLike` result prefixed with the path and the callback's name; an exception `f` raises propagates unchanged |
| Properties.PlaceholderString | src/alike/__init__.py:110-111 | `arg_to_str(A)` is the value's `repr`, or `<A>` without a value |
| Properties.LiteralString | src/alike/__init__.py:112-113 | `arg_to_str` of a literal is its `repr` |
| Properties.OrOfNested | src/alike/__init__.py:474-476 | a leaf whose `or` result carries the nested errors appends them, prefixed |
| Properties.ShortListLookup | src/alike/__init__.py:505-511 | an index past the end of a list raises TypeError in `_get` as written, while the corrected `_get` reads `MISSING` and `is_present` reports it |
| Properties.PlaceholderIsAlikeFails | src/alike/__init__.py:342-343 | `A.is_alike(s)` as written raises TypeError whenever the nested comparison reports errors, while the corrected node returns them prefixed |
| Properties.PlaceholderIsAlikeExample | src/alike/__init__.py:342-343 | `{"a": 1}` against `A.is_alike({"a": 2})`: TypeError as written, an `IsLike` when corrected |
| Properties.SchemaOf | src/alike/__init__.py:437-454 | a value used as its own schema: dicts become dict schemas and lists list schemas |
| Properties.LookupUnique | src/alike/__init__.py:507 | with unique keys, looking up an entry's key finds that entry's value |
| Properties.PyEqReflexive | src/alike/__init__.py:452 | every well-formed value equals itself under `==` |
| Properties.CompareSelf | src/alike/__init__.py:431-481 | a well-formed value compared against itself as schema reports no errors and raises nothing |
| Properties.ChildrenFound | src/alike/__init__.py:449-457 | `_get` finds each child of a dict, or of a list converted by index, under its schema key |
| Properties.ListChildrenFound | src/alike/__init__.py:449-457 | the index-keyed dict of a list yields each element under its index |
| Properties.MapChildrenFound | src/alike/__init__.py:456-457 | a dict with unique keys yields each entry's value under its key |
| Properties.EntriesSelf | src/alike/__init__.py:456-481 | walking a value's own entries against its children reports nothing |
| Properties.ChildSelf | src/alike/__init__.py:459-473 | each child compared against itself as schema reports nothing |
| Properties.EntriesStepSelf | src/alike/__init__.py:456-481 | an entry without errors followed by a walk without errors is a walk without errors |
| Properties.IsAlikeSelf | src/alike/__init__.py:514-519 | `is_alike(v, v)` returns an empty `IsLike` and `assert_alike(v, v)` passes |
| Properties.ArgStringTrimmed | src/alike/__init__.py:108-113 | a rendered operand has no surrounding whitespace |
| Properties.RenderBinary | src/alike/__init__.py:119-126 | a two-operand node with the default layout renders as `"first symbol second"` |
| Properties.RenderUnary | src/alike/__init__.py:123-126 | a one-operand node with the default layout renders as `"symbol arg"` |
| Properties.LeadingSpace | src/alike/__init__.py:126 | `.strip()` removes the leading blank of `" symbol arg"` |
| Properties.EqLeafRendering | src/alike/__init__.py:468 | `A == v` rendered with the actual value reads `repr(actual) == repr(v)` |
| Properties.OrderedEvaluates | src/alike/__init__.py:258-268 | `A > w` (and `<`, `>=`, `<=`) evaluates to Python's ordering of the value against `w`, or raises TypeError for unorderable values |
| Properties.OrderedPerform | src/alike/__init__.py:197 | the ordering operators applied to two values follow Python's ordering or raise TypeError |
| Properties.OrderedRendering | src/alike/__init__.py:104-126 | `A > w` renders as the subject, the symbol and `repr(w)` |
| Properties.OrderedLeaf | src/alike/__init__.py:470-479 | an ordering leaf adds nothing when it holds and otherwise one error reading `repr(x) symbol repr(w)` |
| Properties.LeafOfOp | src/alike/__init__.py:470-479 | a deferred leaf's errors are the classification of its evaluated result |
| Properties.RangeCheck | src/alike/__init__.py:212-219 | `(A > lo) & (A < hi)` evaluates to `True` exactly for integers strictly between the bounds, and to `False` otherwise |
| Properties.AndRendering | src/alike/__init__.py:108-110 | `x & y` renders both nested nodes in parentheses around `and` |
| Properties.JoinAppend | src/alike/__init__.py:400-406 | joining one more part appends the separator and that part |
| Properties.ErrorsTextEmpty | src/alike/__init__.py:397-407 | the error text is empty exactly when there are no errors |
| Properties.ErrorsTextOne | src/alike/__init__.py:400-406 | one error gives the header followed by its line |
| Properties.ErrorsTextAppend | src/alike/__init__.py:400-406 | one more error appends a newline and its line |
| Properties.LinesAppend | src/alike/__init__.py:400-406 | one more error adds its line at the end |
| Properties.AssertAlikeOutcome | src/alike/__init__.py:518-519 | `assert_alike` passes exactly when `is_alike` returns no errors, lets exceptions through exactly when the comparison raises, and otherwise raises `UnlikeError` with those errors and the "Values not alike:" text |
| Scenarios.OneEntry | src/alike/__init__.py:456-481 | a one-entry dict schema reports exactly that entry's errors |
| Scenarios.ReprDigit | src/alike/__init__.py:404 | `repr` of a one-digit int is that digit |
| Scenarios.SameDictPasses | tests/test_alike.py:46 | `{"test": 1}` is alike `{"test": 1}` |
| Scenarios.DifferentValueReported | tests/test_alike.py:105-110 | `{"test": 1}` against `{"test": 2}` reports `(["test"], 1, "1 == 2")` |
| Scenarios.ReorderedKeysPass | src/alike/__init__.py:456-457 | `{"a": 2, "b": True}` against `{"b": 1, "a": 2}` passes: entries are looked up by key, whatever their order, and `True == 1` |
| Scenarios.OneTwo | tests/test_alike.py:292-298 | `A == 2` rendered with 1 reads `1 == 2` |
| Scenarios.DigitLeafFails | src/alike/__init__.py:470-479 | helper for one-digit operands: a failing ordering leaf reports one error whose description is the two digits around the symbol |
| Scenarios.GreaterThanReported | tests/test_alike.py:79-80 | `{"test": 10}` against `{"test": A > 15}` reports `(["test"], 10, "10 > 15")` |
| Scenarios.ListScenario | tests/test_alike.py:132-137 | `[5, 6, 7]` against `[5, A < 6, A > 7]` reports `([1], 6, "6 < 6")` and `([2], 7, "7 > 7")` |
| Scenarios.ThreeEntries | src/alike/__init__.py:456-481 | a three-entry list walk whose entries report nothing, one and one error reports those two |
| Scenarios.IndexedLeafFails | src/alike/__init__.py:449-479 | a failing ordering leaf at a list index reports one error at that index |
| Scenarios.NotASequenceScenario | tests/test_alike.py:138-143 | `6` against a list schema reports `([], 6, "Compared object is not a sequence")` |
| Scenarios.EscapeAllPlain | src/alike/__init__.py:403 | printable text without backslashes or the quote needs no escapes |
| Scenarios.StrReprPlain | src/alike/__init__.py:403 | `repr` of such text is the text in single quotes |
| Scenarios.LiteralLeafFails | src/alike/__init__.py:468-479 | a literal leaf unequal to the actual value reports one error `repr(actual) == repr(expected)` |
| Scenarios.TwoEntries | src/alike/__init__.py:456-481 | a two-entry dict walk reports the first entry's errors, then the second's |
| Scenarios.TwoKeysErrors | tests/test_alike.py:298 | `{"one": 1, "two": 2}` against `{"one": 2, "two": "two"}` reports one error per key, in key order |
| Scenarios.KeyOneFails | tests/test_alike.py:294 | key `one` reports `1 == 2` |
| Scenarios.KeyTwoFails | tests/test_alike.py:295 | key `two` reports `2 == 'two'` |
| Scenarios.ErrorLineOneKey | src/alike/__init__.py:402-404 | the message line of a one-segment error |
| Scenarios.LineOne | tests/test_alike.py:294 | the first error's message line |
| Scenarios.LineTwo | tests/test_alike.py:295 | the second error's message line |
| Scenarios.AssertAlikeTwo | src/alike/__init__.py:397-407 | two errors make `assert_alike` raise with the header and their two lines |
| Scenarios.AssertAlikeMessage | tests/test_alike.py:288-298 | the full `assert_alike` failure message of the test suite, line for line |
| Scenarios.L2Args | tests/test_alike.py:227 | `_format_args("l2")` is `('l2')` |
| Scenarios.CallOnGet | tests/test_alike.py:229-230 | calling a node filed under `["l1", "get"]` with `"l2"` files it under `["l1", "get('l2')"]` |
| Scenarios.ChainedCallPath | tests/test_alike.py:225-232 | `A["l1"].get("l2")` is filed under `["l1", "get('l2')"]`, the path prefix of the nested errors in the test suite |
| Rendering.RenderItem | src/alike/__init__.py:139-145 | `x[k]` renders as its operand's text with the outer parentheses stripped, followed by `[repr(k)]` |
| Rendering.RenderPlaceholderItem | src/alike/__init__.py:294-300 | `A[k]` with a value whose `repr` has no outer parenthesis renders as that `repr` followed by `[repr(k)]` |
| Rendering.RenderNestedItem | src/alike/__init__.py:139-145 | `x[k]` on a nested node renders as the node's own text, without the parentheses `arg_to_str` adds, followed by `[repr(k)]` |
| Rendering.DeferredString | src/alike/__init__.py:108-110 | `arg_to_str` puts a nested node's text in parentheses |
| Rendering.RenderNestedBinary | src/alike/__init__.py:108-126 | a default-layout node on a nested node and a literal renders as `(inner) symbol repr(w)` |
| Rendering.RenderAttr | src/alike/__init__.py:131-137 | `A.name` renders as the stripped subject, a dot and the name; on a nested node the operand keeps its parentheses |
| Rendering.RenderCall | src/alike/__init__.py:147-156 | `x(*args, **kwargs)` renders as the stripped operand followed by `_format_args(*args, **kwargs)` |
| Rendering.CallNode | src/alike/__init__.py:147-156 | a call node has the receiver as its one operand, applies the call and formats with the argument text |
| Rendering.RenderApply | src/alike/__init__.py:308-314 | `A.apply(f)` renders as the callback's name applied to the value's `repr` |
| Rendering.StripParens | src/alike/__init__.py:144 | `.strip("()")` removes exactly one enclosing pair of parentheses from a text that does not itself start or end with one, and leaves such a text unchanged |
| Rendering.OneOperand | src/alike/__init__.py:115-118 | a one-operand node hands its formatter that operand's text alone |
| Rendering.RenderPresence | src/alike/__init__.py:325-340 | `A.is_missing` and `A.is_present` render their fixed messages whatever the value |
| Rendering.FormatNoArgs | src/alike/__init__.py:232-241 | no arguments format as `()` |
| Rendering.FormatOneArg | src/alike/__init__.py:232-241 | one positional argument formats as `(repr(v))` |
| Rendering.FormatOneKwarg | src/alike/__init__.py:232-241 | one keyword argument formats as `(name=repr(v))` |
| Rendering.FormatPositionalFirst | src/alike/__init__.py:234-239 | positional arguments come first, then `, ` when both kinds are present, then the keyword arguments |
| Rendering.FormatMoreArgs | src/alike/__init__.py:235 | one more positional argument appends `, ` and its `repr` |
| Rendering.FormatMoreKwargs | src/alike/__init__.py:239 | one more keyword argument appends `, ` and `name=repr(v)` |
| Descriptions.ListRepr | tests/test_alike.py:126 | `repr([5, 6, 7])` is `[5, 6, 7]` |
| Descriptions.ApplyOrderedText | tests/test_alike.py:125-126 | `A.apply(f) > w` renders as the callback's name applied to `repr(x)` in parentheses, the symbol and `repr(w)` |
| Descriptions.LambdaRendering | tests/test_alike.py:126 | with the list `[5, 6, 7]`, `A.apply(lambda a: len(a)) > 4` renders as `(<lambda>([5, 6, 7])) > 4` |
| Descriptions.LambdaEvaluates | tests/test_alike.py:123-128 | that node evaluates to `False` when the callback returns 3 |
| Descriptions.LambdaEntry | tests/test_alike.py:123-128 | that leaf reports one error with the list and the text `(<lambda>([5, 6, 7])) > 4` |
| Descriptions.LambdaLeafFails | tests/test_alike.py:123-128 | `{"test": [5, 6, 7]}` against `{"test": A.apply(lambda a: len(a)) > 4}` reports `(["test"], [5, 6, 7], "(<lambda>([5, 6, 7])) > 4")` |
| Scenarios.OneEntryAt | src/alike/__init__.py:456-481 | a one-entry dict schema against a one-entry dict with the same key reports exactly that entry's errors |
| Scenarios.GetOnly | src/alike/__init__.py:505-507 | `_get` of a one-entry dict finds its value under its key |
| Descriptions.OneEntryRepr | src/alike/__init__.py:404 | `repr` of a one-entry dict is `{repr(key): repr(value)}` |
| Descriptions.NestedDictRepr | tests/test_alike.py:273 | `repr({"a": {"b": 5}})` is `{'a': {'b': 5}}` |
| Descriptions.ItemChainInner | src/alike/__init__.py:139-145 | `A[k1][k2]` renders as the value's `repr` followed by both keys in brackets |
| Descriptions.ItemChainText | src/alike/__init__.py:139-159 | `A[k1][k2] == w` renders as that text in parentheses, `==` and `repr(w)` |
| Descriptions.ItemChainRendering | tests/test_alike.py:273 | with `{"a": {"b": 5}}`, `A["a"]["b"] == 6` renders as `({'a': {'b': 5}}['a']['b']) == 6` |
| Descriptions.ItemChainEvaluates | tests/test_alike.py:270-275 | that node evaluates to `False`: it reads 5 and compares it with 6 |
| Descriptions.ItemChainEntry | tests/test_alike.py:270-275 | that leaf reports one error with the dict and the rendered text |
| Descriptions.ItemChainLeafFails | tests/test_alike.py:270-275 | `{"test": {"a": {"b": 5}}}` against `{"test": A["a"]["b"] == 6}` reports `(["test"], {'a': {'b': 5}}, "({'a': {'b': 5}}['a']['b']) == 6")` |

## Left out

- A user callback's exceptions are all modelled as one `CallbackError`; which exception class it raises is not distinguished.
- `_get_applyable` (introspecting a callable's signature for a default of `A`) cannot be expressed; a callable leaf is modelled only as `A.apply(f)` with an explicit function.
- Attributes and calls on arbitrary objects are foreign calls. Attribute access on a deferred value reads a dict entry of that name, standing for an object's attribute, and raises AttributeError otherwise. Calling a deferred value always raises AttributeError, since no modelled value has `__call__`. The methods of built-in types (a dict's `get`) are not modelled.
- Values.Get: the library's `_get` falls back to `getattr(obj, key, default)`, which finds any attribute of the object: the built-in ones of dicts, lists, strings and ints (`items`, `count`, `real`, ...) and those of the library's own objects, such as `MISSING.name`. The model has no such attributes, so `is_alike({}, {"items": A.is_missing})` fails in the library but passes here, and `_get(MISSING, "name", MISSING)` is `"MISSING"` in the library but `MISSING` here.
- Comparison.Compare, Walk.CompareMethod, Walk.EntriesMethod and Holder.IsAlikeCall: they describe the corrected comparison, not the library as written. As written, `is_alike([1], [1, A.is_missing])` raises TypeError, and `A.is_alike(s)` raises TypeError when `s` reports errors (see "## Findings").
- Properties.CompareSelf: it covers a value compared against itself. Other schemas are covered by `Properties.LiteralDictCompare` for dicts of literals, and the library ignores extra keys of the compared value in both.
- The `__bool__` guards of `Op` and `_A` are not needed: a deferred node is not a Dafny `bool`.
- `_Constant.__copy__`/`__deepcopy__` and the unused `ComparisonComplete` class.
- `tasks.py` (a development command line) and `pytest_plugin.py` (pytest reporting) are not part of this model.
- Object identity (`is`) is modelled only for `None`, `True`, `False` and `MISSING`; any other two operands count as distinct objects.
- `repr` of a string escapes backslashes, the quote, `\n`, `\r`, `\t` and the non-printable characters below U+00AE as `\xNN`; the printability of other Unicode characters (escaped by the library as `\uNNNN`) is not modelled.
- `Op._evaluate` rewrites each error's path list in place; the model builds new error values, so aliasing between error lists is not captured.
- Dict keys are strings or ints (bools, tuples and other hashables as keys are not modelled), and a dict's keys are assumed unique only where a property needs it (`WellFormed`).
- A deferred node used as a whole schema, or as the schema argument of `is_alike`, is compared as the library does it only at the top level (TypeError); `is_alike` of an `IsLike` and other non-data operands are not modelled.
- Nodes without operands are rendered with an empty first operand; the library never builds them.

## Findings

| source | as written | input that shows it | evidently intended | confidence | as-written member | corrected member |
|---|---|---|---|---|---|---|
| src/alike/__init__.py:505-511 | when `obj[key]` fails, `_get` falls back to `getattr(obj, key, default)`, which raises TypeError for an int key | `is_alike([1], [1, A.is_missing])`: index 1 is past the end, so `getattr(dict, 1, MISSING)` raises | a missing list index reads as `MISSING`, as a missing dict key does | not executed | Values.GetAsWritten | Values.Get |
| src/alike/__init__.py:342-343 | `_A.is_alike` builds the node with `path=self.path`; on `_A` that attribute is itself a deferred node, so the evaluation's `path + self.path` raises TypeError | `is_alike({"a": 1}, A.is_alike({"a": 2}))` evaluated as a leaf, e.g. `{"x": {"a": 1}}` against `{"x": A.is_alike({"a": 2})}` | the node carries no path of its own and returns the nested errors | not executed | Comparison.EvaluatePlaceholderIsAlikeAsWritten | Expressions.IsAlikeOf |
