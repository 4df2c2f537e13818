/** The comparison as the library runs it, step by step: `_is_alike`
    builds its error list with `append`/`extend` in a loop over the schema's
    entries, and `Op._evaluate` evaluates its operands in a loop and
    prefixes each nested error's path. Each method is proved to compute
    exactly its specification in `Comparison`. */
module Walk {
  import opened Values
  import opened Results
  import opened Expressions
  import opened Comparison

  /** The outcome of running `rest` after items `done` were collected. */
  function Then<T>(done: seq<T>, rest: Outcome<seq<T>>): Outcome<seq<T>> {
    match rest
    case Done(r) => Done(done + r)
    case Raised(e) => Raised(e)
  }

  lemma ThenNothing<T>(rest: Outcome<seq<T>>)
    ensures Then([], rest) == rest
  {
    if rest.Done? {
      assert [] + rest.value == rest.value;
    }
  }

  /** One step of `Entries`: the `i`-th entry's errors, then the rest. */
  lemma EntriesStep(parent: Schema, obj: Value, path: seq<Key>, i: nat)
    requires parent.SMap? || parent.SList?
    requires i < Count(parent)
    ensures
      var expected := if parent.SMap? then parent.entries[i].1 else parent.items[i];
      var key := KeyAt(parent, i);
      Entries(parent, obj, path, i) ==
        match EntryErrors(expected, Get(obj, key), path + [key])
        case Raised(e) => Raised(e)
        case Done(here) => Then(here, Entries(parent, obj, path, i + 1))
  {
  }

  lemma ThenAssoc<T>(x: seq<T>, y: seq<T>, rest: Outcome<seq<T>>)
    ensures Then(x, Then(y, rest)) == Then(x + y, rest)
  {
    if rest.Done? {
      assert x + (y + rest.value) == (x + y) + rest.value;
    }
  }

  /** The loop of `Op._evaluate` that writes `path[:0] = prefix` into
      every error. */
  method PrefixPaths(errors: seq<ErrorTuple>, prefix: seq<Key>) returns (out: seq<ErrorTuple>)
    ensures |out| == |errors|
    ensures forall i | 0 <= i < |errors| :: out[i].path == prefix + errors[i].path
    ensures forall i | 0 <= i < |errors| :: out[i].value == errors[i].value && out[i].description == errors[i].description
  {
    out := [];
    for k := 0 to |errors|
      invariant |out| == k
      invariant forall i | 0 <= i < k :: out[i] == errors[i].(path := prefix + errors[i].path)
    {
      out := out + [errors[k].(path := prefix + errors[k].path)];
    }
  }

  /** `Op._evaluate(a, path)`. */
  method EvaluateMethod(op: Op, a: Value, path: seq<Key>) returns (out: Outcome<Res>)
    ensures out == Evaluate(op, a, path)
    decreases op, |op.args| + 1
  {
    var vals: seq<Res> := [];
    var i := 0;
    ThenNothing(EvalArgs(op, a, 0));
    while i < |op.args|
      invariant 0 <= i <= |op.args|
      invariant EvalArgs(op, a, 0) == Then(vals, EvalArgs(op, a, i))
    {
      var v: Res;
      match op.args[i] {
        case Placeholder => v := RVal(a);
        case Literal(x) => v := RVal(x);
        case Deferred(o) =>
          var r := EvaluateMethod(o, a, []);
          if r.Raised? {
            return Raised(r.exc);
          }
          v := r.value;
      }
      assert EvalArgs(op, a, i) == Then([v], EvalArgs(op, a, i + 1));
      ThenAssoc(vals, [v], EvalArgs(op, a, i + 1));
      vals := vals + [v];
      i := i + 1;
    }
    assert vals + [] == vals;
    var result := PerformMethod(op, vals);
    if result.Raised? {
      return Raised(result.exc);
    }
    var r := result.value;
    if r.RIsLike? {
      var prefixed := PrefixPaths(r.like.errors, path + op.path);
      assert prefixed == PrefixAll(path + op.path, r.like.errors);
      r := RIsLike(IsLike(prefixed));
    }
    return Done(r);
  }

  /** `self.op(*args)`; an `is_alike` node runs the nested comparison. */
  method PerformMethod(op: Op, vals: seq<Res>) returns (out: Outcome<Res>)
    ensures out == Perform(op.fn, vals)
    decreases op, 0
  {
    if op.fn.IsAlikeFn? && |vals| == 1 && vals[0].RVal? {
      var nested := CompareMethod(op.fn.schema, vals[0].v, []);
      if nested.Raised? {
        return Raised(nested.exc);
      }
      return Done(RIsLike(IsLike(nested.value)));
    }
    return Perform(op.fn, vals);
  }

  /** The body of `_is_alike`'s loop for a leaf entry: evaluates the
      deferred node (or `A == expected` for a literal) at path `at` and
      appends what it reports to `errors`. */
  method LeafMethod(errors: seq<ErrorTuple>, expected: Schema, actual: Value, at: seq<Key>)
    returns (out: Outcome<seq<ErrorTuple>>)
    requires expected.SOp? || expected.SLit?
    ensures out == Then(errors, EntryErrors(expected, actual, at))
    decreases expected, 2
  {
    var op := if expected.SOp? then expected.op else EqLeaf(expected.v);
    var evaluated: Res;
    if expected.SOp? {
      var r := EvaluateMethod(op, actual, at);
      if r.Raised? {
        return Raised(r.exc);
      }
      evaluated := r.value;
    } else {
      evaluated := RVal(VBool(PyEq(actual, expected.v)));
    }
    var acc := AppendLeaf(errors, op, evaluated, actual, at);
    return Done(acc);
  }

  /** How `_is_alike` files a leaf's evaluated result: nothing for `True`,
      the errors of a false `IsLike` one by one, otherwise one error
      rendered from the predicate and the actual value. */
  method AppendLeaf(errors: seq<ErrorTuple>, op: Op, evaluated: Res, actual: Value, at: seq<Key>)
    returns (acc: seq<ErrorTuple>)
    ensures acc == errors + LeafErrors(op, evaluated, actual, at)
  {
    acc := errors;
    if evaluated == RVal(VBool(true)) {
      assert acc == errors + [];
    } else if evaluated.RIsLike? && !evaluated.like.Truthy() {
      var nested := evaluated.like.errors;
      for k := 0 to |nested|
        invariant acc == errors + nested[..k]
      {
        acc := acc + [nested[k]];
      }
      assert nested[..|nested|] == nested;
    } else {
      acc := acc + [ErrorTuple(at, actual, Render(op, Some(actual)))];
    }
  }

  /** One entry of `_is_alike`'s loop: a nested dict or list recurses, a
      leaf is evaluated; what it reports is appended to `errors`. */
  method EntryMethod(errors: seq<ErrorTuple>, expected: Schema, actual: Value, at: seq<Key>)
    returns (out: Outcome<seq<ErrorTuple>>)
    ensures out == Then(errors, EntryErrors(expected, actual, at))
    decreases expected, Count(expected) + 3
  {
    if expected.SMap? || expected.SList? {
      var nested := CompareMethod(expected, actual, at);
      out := Then(errors, nested);
    } else {
      out := LeafMethod(errors, expected, actual, at);
    }
  }

  /** `Alike._is_alike(schema, obj, path)`. */
  method CompareMethod(schema: Schema, obj: Value, path: seq<Key>) returns (out: Outcome<seq<ErrorTuple>>)
    ensures out == Compare(schema, obj, path)
    decreases schema, Count(schema) + 2
  {
    var errors: seq<ErrorTuple> := [];
    if schema.SOp? {
      return Raised(TypeError);
    } else if schema.SLit? {
      if !PyEq(schema.v, obj) {
        errors := errors + [ErrorTuple(path, obj, NotEqual)];
        assert errors == [ErrorTuple(path, obj, NotEqual)];
      }
      return Done(errors);
    }
    var target := obj;
    if schema.SList? {
      if !(obj.VList? || obj.VTuple?) {
        errors := errors + [ErrorTuple(path, obj, NotASequence)];
        assert errors == [ErrorTuple(path, obj, NotASequence)];
        return Done(errors);
      }
      target := VMap(Indexed(obj.items));
    }
    out := EntriesMethod(schema, target, path);
  }

  /** One iteration of the entry loop, seen from the invariant: `step` is
      `errors` extended with the `i`-th entry's errors. */
  lemma EntriesAdvance(schema: Schema, target: Value, path: seq<Key>, i: nat,
                       errors: seq<ErrorTuple>, step: Outcome<seq<ErrorTuple>>)
    requires schema.SMap? || schema.SList?
    requires i < Count(schema)
    requires var key := KeyAt(schema, i);
             var expected := if schema.SMap? then schema.entries[i].1 else schema.items[i];
             step == Then(errors, EntryErrors(expected, Get(target, key), path + [key]))
    ensures step.Raised? ==> Then(errors, Entries(schema, target, path, i)) == step
    ensures step.Done? ==> Then(errors, Entries(schema, target, path, i)) == Then(step.value, Entries(schema, target, path, i + 1))
  {
    EntriesStep(schema, target, path, i);
    var key := KeyAt(schema, i);
    var expected := if schema.SMap? then schema.entries[i].1 else schema.items[i];
    var here := EntryErrors(expected, Get(target, key), path + [key]);
    if here.Done? {
      ThenAssoc(errors, here.value, Entries(schema, target, path, i + 1));
    }
  }

  /** The loop of `_is_alike` over a dict or list schema's entries, each
      looked up in `target` with `_get`. */
  method EntriesMethod(schema: Schema, target: Value, path: seq<Key>) returns (out: Outcome<seq<ErrorTuple>>)
    requires schema.SMap? || schema.SList?
    ensures out == Entries(schema, target, path, 0)
    decreases schema, Count(schema) + 1
  {
    var errors: seq<ErrorTuple> := [];
    var i := 0;
    ThenNothing(Entries(schema, target, path, 0));
    while i < Count(schema)
      invariant 0 <= i <= Count(schema)
      invariant Entries(schema, target, path, 0) == Then(errors, Entries(schema, target, path, i))
    {
      var key := KeyAt(schema, i);
      var expected := if schema.SMap? then schema.entries[i].1 else schema.items[i];
      var step := EntryMethod(errors, expected, Get(target, key), path + [key]);
      EntriesAdvance(schema, target, path, i, errors, step);
      if step.Raised? {
        return step;
      }
      errors := step.value;
      i := i + 1;
    }
    assert errors + [] == errors;
    return Done(errors);
  }
}
