/** What the comparison engine promises, proved about the model: how
    scalar, list and dict schemas are compared, where errors are reported,
    in which order, how leaves are classified and how nested results are
    merged. */
module Properties {
  import opened Text
  import opened Values
  import opened Results
  import opened Expressions
  import opened Comparison

  // Scalar and list schemas.

  /** A schema that is neither a dict nor a list passes exactly when it
      equals the object, and otherwise reports one "not equal" error. */
  lemma ScalarSchema(v: ScalarValue, obj: Value, p: seq<Key>)
    ensures Compare(SLit(v), obj, p) == Done([]) <==> PyEq(v, obj)
    ensures !PyEq(v, obj) ==> Compare(SLit(v), obj, p) == Done([ErrorTuple(p, obj, NotEqual)])
  {
  }

  /** A list schema against anything but a list or tuple (a string, a dict,
      a number) reports exactly one "not a sequence" error and looks no
      further. */
  lemma ListSchemaNeedsSequence(items: seq<Schema>, obj: Value, p: seq<Key>)
    requires !obj.VList? && !obj.VTuple?
    ensures Compare(SList(items), obj, p) == Done([ErrorTuple(p, obj, NotASequence)])
  {
  }

  // Where errors are reported.

  function ExpectedAt(parent: Schema, i: nat): Schema
    requires parent.SMap? || parent.SList?
    requires i < Count(parent)
  {
    if parent.SMap? then parent.entries[i].1 else parent.items[i]
  }

  /** Every error a comparison at `p` reports lies at or below `p`. */
  lemma {:induction false} CompareUnderPath(schema: Schema, obj: Value, p: seq<Key>)
    requires Compare(schema, obj, p).Done?
    ensures forall e | e in Compare(schema, obj, p).value :: p <= e.path
    decreases schema, Count(schema) + 1
  {
    match schema
    case SMap(_) => EntriesUnderPath(schema, obj, p, 0);
    case SList(_) =>
      if obj.VList? || obj.VTuple? {
        EntriesUnderPath(schema, VMap(Indexed(obj.items)), p, 0);
      }
    case SOp(_) =>
    case SLit(_) =>
  }

  lemma {:induction false} EntriesUnderPath(parent: Schema, obj: Value, p: seq<Key>, i: nat)
    requires parent.SMap? || parent.SList?
    requires i <= Count(parent)
    requires Entries(parent, obj, p, i).Done?
    ensures forall e | e in Entries(parent, obj, p, i).value :: p <= e.path
    decreases parent, Count(parent) - i
  {
    if i < Count(parent) {
      var key := KeyAt(parent, i);
      EntryUnderPath(ExpectedAt(parent, i), Get(obj, key), p + [key]);
      EntriesUnderPath(parent, obj, p, i + 1);
      forall e | e in EntryErrors(ExpectedAt(parent, i), Get(obj, key), p + [key]).value
        ensures p <= e.path
      {
        assert p <= p + [key] <= e.path;
      }
    }
  }

  /** Every error one schema entry reports lies at or below the entry's
      own path `at`. */
  lemma {:induction false} EntryUnderPath(expected: Schema, actual: Value, at: seq<Key>)
    requires EntryErrors(expected, actual, at).Done?
    ensures forall e | e in EntryErrors(expected, actual, at).value :: at <= e.path
    decreases expected, Count(expected) + 2
  {
    match expected
    case SMap(_) => CompareUnderPath(expected, actual, at);
    case SList(_) => CompareUnderPath(expected, actual, at);
    case SOp(op) =>
      var r := Evaluate(op, actual, at).value;
      forall e | e in LeafErrors(op, r, actual, at)
        ensures at <= e.path
      {
        if r.RIsLike? && !r.like.Truthy() {
          var k :| 0 <= k < |r.like.errors| && r.like.errors[k] == e;
          assert at <= at + op.path <= e.path;
        }
      }
    case SLit(_) =>
  }

  // Order and completeness of the walk.

  /** `block` ends `all`. */
  predicate SuffixOf(block: seq<ErrorTuple>, all: seq<ErrorTuple>) {
    |block| <= |all| && all[|all| - |block|..] == block
  }

  /** The errors from entry `i` on are a suffix of all the errors: once the
      walk succeeds, no entry stops the ones after it. */
  lemma {:induction false} EntriesSuffix(parent: Schema, obj: Value, p: seq<Key>, i: nat)
    requires parent.SMap? || parent.SList?
    requires i <= Count(parent)
    requires Entries(parent, obj, p, 0).Done?
    ensures Entries(parent, obj, p, i).Done?
    ensures SuffixOf(Entries(parent, obj, p, i).value, Entries(parent, obj, p, 0).value)
  {
    if i > 0 {
      EntriesSuffix(parent, obj, p, i - 1);
      EntriesRest(parent, obj, p, i - 1);
      SuffixOfSuffix(Entries(parent, obj, p, i).value, Entries(parent, obj, p, i - 1).value, Entries(parent, obj, p, 0).value);
    } else {
      SuffixOfSelf(Entries(parent, obj, p, 0).value);
    }
  }

  lemma SuffixOfSelf(all: seq<ErrorTuple>)
    ensures SuffixOf(all, all)
  {
    assert all[0..] == all;
  }

  /** The walk from entry `i + 1` on ends the walk from entry `i` on. */
  lemma EntriesRest(parent: Schema, obj: Value, p: seq<Key>, i: nat)
    requires parent.SMap? || parent.SList?
    requires i < Count(parent)
    requires Entries(parent, obj, p, i).Done?
    ensures Entries(parent, obj, p, i + 1).Done?
    ensures SuffixOf(Entries(parent, obj, p, i + 1).value, Entries(parent, obj, p, i).value)
  {
    EntryDone(parent, obj, p, i);
    var here := EntryErrors(ExpectedAt(parent, i), Get(obj, KeyAt(parent, i)), p + [KeyAt(parent, i)]).value;
    var rest := Entries(parent, obj, p, i + 1).value;
    assert (here + rest)[|here + rest| - |rest|..] == rest;
  }

  lemma SuffixOfSuffix(rest: seq<ErrorTuple>, prev: seq<ErrorTuple>, all: seq<ErrorTuple>)
    requires SuffixOf(rest, prev)
    requires SuffixOf(prev, all)
    ensures SuffixOf(rest, all)
  {
    assert all[|all| - |rest|..] == prev[|prev| - |rest|..];
  }

  /** Every schema entry is visited, in schema order: the errors of entry
      `i` (all at or below `p + [key]`) appear in the result immediately
      before the errors of every later entry. */
  lemma EntryVisited(parent: Schema, obj: Value, p: seq<Key>, i: nat)
    requires parent.SMap? || parent.SList?
    requires i < Count(parent)
    requires Entries(parent, obj, p, 0).Done?
    ensures EntryErrors(ExpectedAt(parent, i), Get(obj, KeyAt(parent, i)), p + [KeyAt(parent, i)]).Done?
    ensures forall e | e in EntryErrors(ExpectedAt(parent, i), Get(obj, KeyAt(parent, i)), p + [KeyAt(parent, i)]).value ::
              p + [KeyAt(parent, i)] <= e.path
    ensures Entries(parent, obj, p, i + 1).Done?
    ensures SuffixOf(EntryErrors(ExpectedAt(parent, i), Get(obj, KeyAt(parent, i)), p + [KeyAt(parent, i)]).value
                       + Entries(parent, obj, p, i + 1).value,
                     Entries(parent, obj, p, 0).value)
  {
    EntriesSuffix(parent, obj, p, i);
    EntryDone(parent, obj, p, i);
    var key := KeyAt(parent, i);
    EntryUnderPath(ExpectedAt(parent, i), Get(obj, key), p + [key]);
  }

  /** When the walk from entry `i` succeeds, so do entry `i` and the walk
      after it, and their errors make up its errors. */
  lemma EntryDone(parent: Schema, obj: Value, p: seq<Key>, i: nat)
    requires parent.SMap? || parent.SList?
    requires i < Count(parent)
    requires Entries(parent, obj, p, i).Done?
    ensures var key := KeyAt(parent, i);
            var here := EntryErrors(ExpectedAt(parent, i), Get(obj, key), p + [key]);
            && here.Done?
            && Entries(parent, obj, p, i + 1).Done?
            && Entries(parent, obj, p, i).value == here.value + Entries(parent, obj, p, i + 1).value
  {
  }

  // Leaves.

  /** Only a result that is exactly `True` passes a leaf; a falsy `IsLike`
      contributes its errors unchanged; anything else, including a truthy
      `IsLike` and truthy plain values such as a length, is one error
      rendered with the actual value. */
  lemma LeafClassification(op: Op, r: Res, actual: Value, at: seq<Key>)
    ensures LeafErrors(op, r, actual, at) == [] <==> r == RVal(VBool(true))
    ensures r.RIsLike? && !r.like.Truthy() ==> LeafErrors(op, r, actual, at) == r.like.errors
    ensures r != RVal(VBool(true)) && (r.RVal? || r.like.Truthy()) ==>
              LeafErrors(op, r, actual, at) == [ErrorTuple(at, actual, Render(op, Some(actual)))]
  {
  }

  /** A literal leaf `v` is checked as `A == v`: evaluating that node at
      `actual` yields `actual == v`, which is what `EntryErrors` uses. */
  lemma EqLeafEvaluates(v: Value, actual: Value, at: seq<Key>)
    ensures Evaluate(EqLeaf(v), actual, at) == Done(RVal(VBool(PyEq(actual, v))))
  {
    PlainOperands(EqLeaf(v), actual, 0);
  }

  /** A bare `A.length` leaf never passes: its result is a number, not
      `True`, so it is reported as an error whatever the length. */
  lemma BareLengthFails(items: seq<Value>, at: seq<Key>)
    ensures EntryErrors(SOp(Length()), VList(items), at) ==
              Done([ErrorTuple(at, VList(items), Render(Length(), Some(VList(items))))])
  {
    var op := Length();
    PlainOperands(op, VList(items), 0);
    var vals := EvalArgs(op, VList(items), 0).value;
    assert vals == [RVal(VList(items))];
    assert Evaluate(op, VList(items), at) == Done(RVal(VInt(|items|)));
    LeafOfOp(op, VList(items), at, RVal(VInt(|items|)));
  }

  /** `A.is_present` fails, with its fixed message, exactly on MISSING. */
  lemma IsPresentLeaf(actual: Value, at: seq<Key>)
    ensures EntryErrors(SOp(IsPresent()), actual, at) ==
              Done(if actual == VMissing then [ErrorTuple(at, VMissing, "value should be present")] else [])
  {
    var op := IsPresent();
    PlainOperands(op, actual, 0);
    var vals := EvalArgs(op, actual, 0).value;
    assert vals == [RVal(actual), RVal(VMissing)];
    var b := actual != VMissing;
    assert Evaluate(op, actual, at) == Done(RVal(VBool(b)));
    LeafOfOp(op, actual, at, RVal(VBool(b)));
  }

  /** `A.is_missing` passes exactly on MISSING, its exact negation. */
  lemma IsMissingLeaf(actual: Value, at: seq<Key>)
    ensures EntryErrors(SOp(IsMissing()), actual, at) ==
              Done(if actual == VMissing then [] else [ErrorTuple(at, actual, "value should be missing")])
  {
    var op := IsMissing();
    PlainOperands(op, actual, 0);
    var vals := EvalArgs(op, actual, 0).value;
    assert vals == [RVal(actual), RVal(VMissing)];
    var b := actual == VMissing;
    assert Evaluate(op, actual, at) == Done(RVal(VBool(b)));
    LeafOfOp(op, actual, at, RVal(VBool(b)));
  }

  /** A key absent from a dict is seen as MISSING: `is_missing` holds
      there and `is_present` reports it. */
  lemma AbsentKey(es: seq<(Key, Value)>, k: Key, p: seq<Key>)
    requires forall e | e in es :: e.0 != k
    ensures Get(VMap(es), k) == VMissing
    ensures EntryErrors(SOp(IsMissing()), Get(VMap(es), k), p + [k]) == Done([])
    ensures EntryErrors(SOp(IsPresent()), Get(VMap(es), k), p + [k]) ==
              Done([ErrorTuple(p + [k], VMissing, "value should be present")])
  {
    IsMissingLeaf(VMissing, p + [k]);
    IsPresentLeaf(VMissing, p + [k]);
  }

  // Evaluation of deferred nodes.

  /** Operands are evaluated in order: the placeholder becomes the input
      unchanged and a literal passes through as it is. */
  lemma {:induction false} OperandsPassThrough(op: Op, a: Value, i: nat)
    requires i <= |op.args|
    requires EvalArgs(op, a, i).Done?
    ensures |EvalArgs(op, a, i).value| == |op.args| - i
    ensures forall j | i <= j < |op.args| && op.args[j].Placeholder? :: EvalArgs(op, a, i).value[j - i] == RVal(a)
    ensures forall j | i <= j < |op.args| && op.args[j].Literal? :: EvalArgs(op, a, i).value[j - i] == RVal(op.args[j].v)
    decreases |op.args| - i
  {
    if i < |op.args| {
      OperandsPassThrough(op, a, i + 1);
    }
  }

  /** An operand that needs no evaluation of its own: `A` or a literal. */
  function PlainValue(arg: Arg, a: Value): Res
    requires !arg.Deferred?
  {
    if arg.Placeholder? then RVal(a) else RVal(arg.v)
  }

  /** A node whose operands are all `A` or literals never raises while
      evaluating them, and gets them in order. */
  lemma {:induction false} PlainOperands(op: Op, a: Value, i: nat)
    requires i <= |op.args|
    requires forall j | i <= j < |op.args| :: !op.args[j].Deferred?
    ensures EvalArgs(op, a, i).Done?
    ensures |EvalArgs(op, a, i).value| == |op.args| - i
    ensures forall k | 0 <= k < |op.args| - i :: EvalArgs(op, a, i).value[k] == PlainValue(op.args[i + k], a)
    decreases |op.args| - i
  {
    if i < |op.args| {
      PlainOperands(op, a, i + 1);
    }
  }

  lemma {:induction false} PrefixAllCompose(p: seq<Key>, q: seq<Key>, errors: seq<ErrorTuple>)
    ensures PrefixAll(p + q, errors) == PrefixAll(p, PrefixAll(q, errors))
  {
    var l := PrefixAll(p + q, errors);
    var r := PrefixAll(p, PrefixAll(q, errors));
    forall i | 0 <= i < |errors|
      ensures l[i] == r[i]
    {
      assert (p + q) + errors[i].path == p + (q + errors[i].path);
    }
  }

  lemma PrefixAllNothing(errors: seq<ErrorTuple>)
    ensures PrefixAll([], errors) == errors
  {
    var l := PrefixAll([], errors);
    forall i | 0 <= i < |errors|
      ensures l[i] == errors[i]
    {
      assert [] + errors[i].path == errors[i].path;
    }
  }

  /** Evaluating at `p` is evaluating with no path and then prefixing every
      nested error with `p`, ancestor first: an error's path reads `p`,
      then the node's own path, then the path inside the nested result. */
  lemma EvaluateUnderPath(op: Op, a: Value, p: seq<Key>)
    ensures Evaluate(op, a, []).Raised? ==> Evaluate(op, a, p) == Evaluate(op, a, [])
    ensures Evaluate(op, a, []).Done? ==> Evaluate(op, a, p) == Done(Prefixed(p, Evaluate(op, a, []).value))
    ensures Evaluate(op, a, p).Done? && Evaluate(op, a, p).value.RIsLike? ==>
              forall e | e in Evaluate(op, a, p).value.like.errors :: p + op.path <= e.path
  {
    var vals := EvalArgs(op, a, 0);
    if vals.Done? {
      var r := Perform(op.fn, vals.value);
      if r.Done? && r.value.RIsLike? {
        PrefixAllCompose(p, op.path, r.value.like.errors);
        assert [] + op.path == op.path;
        var errs := Evaluate(op, a, p).value.like.errors;
        forall e | e in errs
          ensures p + op.path <= e.path
        {
          var k :| 0 <= k < |errs| && errs[k] == e;
        }
      }
    }
  }

  /** `A.is_missing` evaluates to `False` on a present value. */
  lemma IsMissingOnPresent(actual: Value)
    requires actual != VMissing
    ensures Evaluate(IsMissing(), actual, []) == Done(RVal(VBool(false)))
  {
    var op := IsMissing();
    PlainOperands(op, actual, 0);
    var vals := EvalArgs(op, actual, 0).value;
    assert vals == [RVal(actual), RVal(VMissing)];
  }

  /** `A.is_alike(schema)` with the empty path the placeholder carries:
      evaluating it at `p` runs the nested comparison and reports its
      errors under `p`. */
  lemma NestedIsAlike(s: Schema, actual: Value, p: seq<Key>)
    requires Compare(s, actual, []).Done?
    ensures Evaluate(IsAlikeOf(A, s), actual, p) == Done(RIsLike(IsLike(PrefixAll(p, Compare(s, actual, []).value))))
  {
    var nested := IsAlikeOf(A, s);
    PlainOperands(nested, actual, 0);
    var nv := EvalArgs(nested, actual, 0).value;
    assert nv[0] == RVal(actual);
    assert nv == [RVal(actual)];
    assert p + nested.path == p;
  }

  /** `Op.is_alike(schema)` on a deferred receiver `o` (such as
      `A["l1"]["l2"]`): the node keeps `o`'s path, evaluates `o` first, runs
      the nested comparison on its value and reports those errors under
      the evaluation path followed by `o`'s path; a nested comparison that
      raises lets the exception through. */
  lemma DeferredIsAlike(o: Op, s: Schema, a: Value, at: seq<Key>, x: Value)
    requires Evaluate(o, a, []) == Done(RVal(x))
    ensures Compare(s, x, []).Done? ==>
              Evaluate(IsAlikeOf(Deferred(o), s), a, at) ==
                Done(RIsLike(IsLike(PrefixAll(at + o.path, Compare(s, x, []).value))))
    ensures Compare(s, x, []).Raised? ==>
              Evaluate(IsAlikeOf(Deferred(o), s), a, at) == Raised(Compare(s, x, []).exc)
  {
    var nested := IsAlikeOf(Deferred(o), s);
    assert nested.args == [Deferred(o)] && nested.path == o.path;
    assert EvalArgs(nested, a, 1) == Done([]);
    DeferredOperand(nested, a, 0, RVal(x), []);
    assert [RVal(x)] + [] == [RVal(x)];
    if Compare(s, x, []).Done? {
      EvaluateFrom(nested, a, at, [RVal(x)], RIsLike(IsLike(Compare(s, x, []).value)));
    }
  }

  /** `A.is_missing | A.is_alike(schema)` at a present key: the `or` fails
      exactly when the nested comparison does, and then reports the nested
      errors with the key's path in front, and nothing else. */
  lemma OrSurfacesNested(s: Schema, actual: Value, at: seq<Key>)
    requires actual != VMissing
    requires Compare(s, actual, []).Done?
    ensures EntryErrors(SOp(Or(Deferred(IsMissing()), Deferred(IsAlikeOf(A, s)))), actual, at) ==
              Done(PrefixAll(at, Compare(s, actual, []).value))
  {
    var errs := Compare(s, actual, []).value;
    var op := Or(Deferred(IsMissing()), Deferred(IsAlikeOf(A, s)));
    OrEvaluates(s, actual, at);
    OrOfNested(op, errs, actual, at);
  }

  /** The `or` node evaluates both sides: `False` from `is_missing`, then
      the nested result. */
  lemma OrEvaluates(s: Schema, actual: Value, at: seq<Key>)
    requires actual != VMissing
    requires Compare(s, actual, []).Done?
    ensures Evaluate(Or(Deferred(IsMissing()), Deferred(IsAlikeOf(A, s))), actual, at) ==
              Done(Prefixed(at, ApplyOr(RVal(VBool(false)), RIsLike(IsLike(Compare(s, actual, []).value)))))
  {
    var errs := Compare(s, actual, []).value;
    IsMissingOnPresent(actual);
    NestedIsAlike(s, actual, []);
    PrefixAllNothing(errs);
    var op := Or(Deferred(IsMissing()), Deferred(IsAlikeOf(A, s)));
    var nested := RIsLike(IsLike(errs));
    assert EvalArgs(op, actual, 2) == Done([]);
    DeferredOperand(op, actual, 1, nested, []);
    assert [nested] + [] == [nested];
    DeferredOperand(op, actual, 0, RVal(VBool(false)), [nested]);
    assert [RVal(VBool(false))] + [nested] == [RVal(VBool(false)), nested];
    assert at + op.path == at;
    EvaluateFrom(op, actual, at, [RVal(VBool(false)), nested], ApplyOr(RVal(VBool(false)), nested));
  }

  /** A nested operand that evaluates to `v` contributes `v`. */
  lemma DeferredOperand(op: Op, a: Value, i: nat, v: Res, rest: seq<Res>)
    requires i < |op.args| && op.args[i].Deferred?
    requires Evaluate(op.args[i].op, a, []) == Done(v)
    requires EvalArgs(op, a, i + 1) == Done(rest)
    ensures EvalArgs(op, a, i) == Done([v] + rest)
  {
  }

  /** A node whose operands evaluate to `vals` and whose operation yields
      `r` on them evaluates to `r`, prefixed. */
  lemma EvaluateFrom(op: Op, a: Value, path: seq<Key>, vals: seq<Res>, r: Res)
    requires EvalArgs(op, a, 0) == Done(vals)
    requires Perform(op.fn, vals) == Done(r)
    ensures Evaluate(op, a, path) == Done(Prefixed(path + op.path, r))
  {
  }

  /** `False or <nested>` passes when the nested comparison does and
      otherwise carries exactly its errors. */
  lemma OrOfNested(op: Op, errs: seq<ErrorTuple>, actual: Value, at: seq<Key>)
    ensures LeafErrors(op, Prefixed(at, ApplyOr(RVal(VBool(false)), RIsLike(IsLike(errs)))), actual, at) == PrefixAll(at, errs)
  {
    var r := ApplyOr(RVal(VBool(false)), RIsLike(IsLike(errs)));
    if errs == [] {
      assert r == RVal(VBool(true));
    } else {
      assert Carried(r) == [] + errs == errs;
      assert Prefixed(at, r) == RIsLike(IsLike(PrefixAll(at, errs)));
    }
  }

  // Findings.

  /** As written, `_get` cannot look past the end of a list: the list is
      turned into an index-keyed dict, the lookup raises KeyError, and the
      fallback `getattr(obj, index, MISSING)` raises TypeError because an
      attribute name must be a string. The corrected `Get` yields MISSING,
      so `is_present` reports the position instead. */
  lemma ShortListLookup(items: seq<Value>, n: int, p: seq<Key>)
    requires n >= |items|
    ensures GetAsWritten(VMap(Indexed(items)), KInt(n)) == Raised(TypeError)
    ensures Get(VMap(Indexed(items)), KInt(n)) == VMissing
    ensures EntryErrors(SOp(IsPresent()), Get(VMap(Indexed(items)), KInt(n)), p + [KInt(n)]) ==
              Done([ErrorTuple(p + [KInt(n)], VMissing, "value should be present")])
  {
    var es := Indexed(items);
    forall e | e in es
      ensures e.0 != KInt(n)
    {
      var i :| 0 <= i < |es| && es[i] == e;
    }
    AbsentKey(es, KInt(n), p);
  }

  /** As written, `A.is_alike(schema)` carries the deferred `A.path` as its
      path, so it raises TypeError as soon as the nested comparison
      reports anything; the corrected node reports those errors under the
      key's path. */
  lemma PlaceholderIsAlikeFails(s: Schema, actual: Value, p: seq<Key>)
    requires Compare(s, actual, []).Done? && Compare(s, actual, []).value != []
    ensures EvaluatePlaceholderIsAlikeAsWritten(s, actual) == Raised(TypeError)
    ensures Evaluate(IsAlikeOf(A, s), actual, p) == Done(RIsLike(IsLike(PrefixAll(p, Compare(s, actual, []).value))))
  {
    NestedIsAlike(s, actual, p);
  }

  /** An input that shows it: `{"a": 1}` against `A.is_alike({"a": 2})`. */
  lemma PlaceholderIsAlikeExample()
    ensures var s := SMap([(KStr("a"), SLit(VInt(2)))]);
            var actual := VMap([(KStr("a"), VInt(1))]);
            && EvaluatePlaceholderIsAlikeAsWritten(s, actual) == Raised(TypeError)
            && Evaluate(IsAlikeOf(A, s), actual, []).Done?
  {
    var s := SMap([(KStr("a"), SLit(VInt(2)))]);
    var actual := VMap([(KStr("a"), VInt(1))]);
    assert Get(actual, KStr("a")) == VInt(1);
    assert Entries(s, actual, [], 1) == Done([]);
    assert Compare(s, actual, []).value != [];
    PlaceholderIsAlikeFails(s, actual, []);
  }

  // A value is alike itself.

  /** A plain value used as a schema: dicts and lists as they are, any
      other value as a literal leaf. */
  function SchemaOf(v: Value): (s: Schema)
    ensures v.VMap? <==> s.SMap?
    ensures v.VList? <==> s.SList?
    decreases v
  {
    match v
    case VList(items) => SList(seq(|items|, i requires 0 <= i < |items| => SchemaOf(items[i])))
    case VMap(es) => SMap(seq(|es|, i requires 0 <= i < |es| => (es[i].0, SchemaOf(es[i].1))))
    case _ => SLit(v)
  }

  /** With unique keys, the lookup of an entry's key finds that entry. */
  lemma {:induction false} LookupUnique(es: seq<(Key, Value)>, i: nat)
    requires i < |es|
    requires forall m, n | 0 <= m < n < |es| :: es[m].0 != es[n].0
    ensures Lookup(es, es[i].0) == Some(es[i].1)
  {
    if i > 0 {
      assert es[0].0 != es[i].0;
      assert es[1..][i - 1] == es[i];
      LookupUnique(es[1..], i - 1);
    }
  }

  /** Python's `==` is reflexive on well-formed values. */
  lemma {:induction false} PyEqReflexive(v: Value)
    requires WellFormed(v)
    ensures PyEq(v, v)
    decreases v
  {
    match v
    case VList(a) =>
      forall i | 0 <= i < |a| ensures PyEq(a[i], a[i]) { PyEqReflexive(a[i]); }
    case VTuple(a) =>
      forall i | 0 <= i < |a| ensures PyEq(a[i], a[i]) { PyEqReflexive(a[i]); }
    case VMap(es) =>
      forall i | 0 <= i < |es|
        ensures Lookup(es, es[i].0).Some? && PyEq(es[i].1, Lookup(es, es[i].0).value)
      {
        LookupUnique(es, i);
        PyEqReflexive(es[i].1);
      }
    case _ =>
  }

  /** The values under a dict's or list's entries, in order. */
  function Children(v: Value): seq<Value>
    requires v.VMap? || v.VList?
  {
    if v.VList? then v.items else seq(|v.entries|, i requires 0 <= i < |v.entries| => v.entries[i].1)
  }

  /** Any well-formed value is alike itself: comparing it against itself
      as a schema reports no error and raises nothing. */
  lemma {:induction false} CompareSelf(v: Value, p: seq<Key>)
    requires WellFormed(v)
    ensures Compare(SchemaOf(v), v, p) == Done([])
    decreases v, 1, 0
  {
    match v
    case VList(items) =>
      var target := VMap(Indexed(items));
      ChildrenFound(v, target);
      EntriesSelf(v, target, p, 0);
    case VMap(es) =>
      ChildrenFound(v, v);
      EntriesSelf(v, v, p, 0);
    case _ =>
      PyEqReflexive(v);
  }

  /** A dict schema whose values are all literals: every schema key is
      looked up with `_get`, extra keys of the object are ignored, and the
      comparison reports nothing exactly when each looked-up value equals
      its literal by Python's `==`, whatever the order of the keys. */
  predicate LiteralEntries(ses: seq<(Key, Schema)>) {
    forall i | 0 <= i < |ses| :: ses[i].1.SLit?
  }

  lemma LiteralDictCompare(ses: seq<(Key, Schema)>, obj: Value, p: seq<Key>)
    requires LiteralEntries(ses)
    ensures Compare(SMap(ses), obj, p).Done?
    ensures Compare(SMap(ses), obj, p).value == [] <==>
              forall i | 0 <= i < |ses| :: PyEq(Get(obj, ses[i].0), ses[i].1.v)
  {
    LiteralEntriesFrom(ses, obj, p, 0);
  }

  /** Every schema entry from position `i` on equals its looked-up value. */
  predicate LiteralsMatch(ses: seq<(Key, Schema)>, obj: Value, i: nat)
    requires LiteralEntries(ses)
  {
    forall j | i <= j < |ses| :: PyEq(Get(obj, ses[j].0), ses[j].1.v)
  }

  /** The walk from entry `i` on raises nothing and reports no error
      exactly when the entries from `i` on all match. */
  predicate LiteralWalk(ses: seq<(Key, Schema)>, obj: Value, p: seq<Key>, i: nat)
    requires LiteralEntries(ses) && i <= |ses|
  {
    && Entries(SMap(ses), obj, p, i).Done?
    && (Entries(SMap(ses), obj, p, i).value == [] <==> LiteralsMatch(ses, obj, i))
  }

  lemma {:induction false} LiteralEntriesFrom(ses: seq<(Key, Schema)>, obj: Value, p: seq<Key>, i: nat)
    requires LiteralEntries(ses) && i <= |ses|
    ensures LiteralWalk(ses, obj, p, i)
    decreases |ses| - i, 1
  {
    if i < |ses| {
      LiteralEntriesNext(ses, obj, p, i);
    } else {
      LiteralEntriesEnd(ses, obj, p);
    }
  }

  lemma LiteralEntriesEnd(ses: seq<(Key, Schema)>, obj: Value, p: seq<Key>)
    requires LiteralEntries(ses)
    ensures LiteralWalk(ses, obj, p, |ses|)
  {
    assert Entries(SMap(ses), obj, p, |ses|) == Done([]);
    assert LiteralsMatch(ses, obj, |ses|);
  }

  /** Entry `i` followed by the walk after it. */
  lemma {:induction false} LiteralEntriesNext(ses: seq<(Key, Schema)>, obj: Value, p: seq<Key>, i: nat)
    requires LiteralEntries(ses) && i < |ses|
    ensures LiteralWalk(ses, obj, p, i)
    decreases |ses| - i, 0
  {
    LiteralEntriesFrom(ses, obj, p, i + 1);
    LiteralEntry(ses, obj, p, i);
    LiteralsMatchStep(ses, obj, i);
  }

  lemma LiteralsMatchStep(ses: seq<(Key, Schema)>, obj: Value, i: nat)
    requires LiteralEntries(ses) && i < |ses|
    ensures LiteralsMatch(ses, obj, i) <==> PyEq(Get(obj, ses[i].0), ses[i].1.v) && LiteralsMatch(ses, obj, i + 1)
  {
  }

  /** One literal entry: it raises nothing, and it contributes no error
      exactly when the looked-up value equals the literal. */
  lemma LiteralEntry(ses: seq<(Key, Schema)>, obj: Value, p: seq<Key>, i: nat)
    requires LiteralEntries(ses) && i < |ses|
    requires Entries(SMap(ses), obj, p, i + 1).Done?
    ensures Entries(SMap(ses), obj, p, i).Done?
    ensures Entries(SMap(ses), obj, p, i).value == [] <==>
              PyEq(Get(obj, ses[i].0), ses[i].1.v) && Entries(SMap(ses), obj, p, i + 1).value == []
  {
    var k := ses[i].0;
    LiteralLeaf(ses[i].1.v, Get(obj, k), p + [k]);
    EntryDoneAt(SMap(ses), obj, p, i);
  }

  /** A literal leaf raises nothing and passes exactly when the value equals it. */
  lemma LiteralLeaf(v: ScalarValue, actual: Value, at: seq<Key>)
    ensures EntryErrors(SLit(v), actual, at).Done?
    ensures EntryErrors(SLit(v), actual, at).value == [] <==> PyEq(actual, v)
  {
    var r := RVal(VBool(PyEq(actual, v)));
    assert EntryErrors(SLit(v), actual, at) == Done(LeafErrors(EqLeaf(v), r, actual, at));
    if !PyEq(actual, v) {
      assert |LeafErrors(EqLeaf(v), r, actual, at)| == 1;
    }
  }

  /** When entry `i` and the walk after it succeed, the walk from `i` is
      their errors in that order. */
  lemma EntryDoneAt(parent: Schema, obj: Value, p: seq<Key>, i: nat)
    requires parent.SMap? || parent.SList?
    requires i < Count(parent)
    requires EntryErrors(ExpectedAt(parent, i), Get(obj, KeyAt(parent, i)), p + [KeyAt(parent, i)]).Done?
    requires Entries(parent, obj, p, i + 1).Done?
    ensures Entries(parent, obj, p, i) ==
              Done(EntryErrors(ExpectedAt(parent, i), Get(obj, KeyAt(parent, i)), p + [KeyAt(parent, i)]).value
                   + Entries(parent, obj, p, i + 1).value)
  {
  }

  /** `_get` finds each child of a well-formed dict, or of a list turned
      into its index-keyed dict, under its schema key. */
  lemma ChildrenFound(v: Value, target: Value)
    requires WellFormed(v)
    requires v.VList? ==> target == VMap(Indexed(v.items))
    requires v.VMap? ==> target == v
    requires v.VMap? || v.VList?
    ensures |Children(v)| == Count(SchemaOf(v))
    ensures forall j | 0 <= j < Count(SchemaOf(v)) :: Get(target, KeyAt(SchemaOf(v), j)) == Children(v)[j]
  {
    if v.VList? {
      ListChildrenFound(v, target);
    } else {
      MapChildrenFound(v);
    }
  }

  lemma ListChildrenFound(v: Value, target: Value)
    requires v.VList? && target == VMap(Indexed(v.items))
    ensures forall j | 0 <= j < Count(SchemaOf(v)) :: Get(target, KeyAt(SchemaOf(v), j)) == Children(v)[j]
  {
    forall j | 0 <= j < Count(SchemaOf(v))
      ensures Get(target, KeyAt(SchemaOf(v), j)) == Children(v)[j]
    {
      LookupUnique(Indexed(v.items), j);
    }
  }

  lemma MapChildrenFound(v: Value)
    requires v.VMap? && WellFormed(v)
    ensures forall j | 0 <= j < Count(SchemaOf(v)) :: Get(v, KeyAt(SchemaOf(v), j)) == Children(v)[j]
  {
    forall j | 0 <= j < Count(SchemaOf(v))
      ensures Get(v, KeyAt(SchemaOf(v), j)) == Children(v)[j]
    {
      LookupUnique(v.entries, j);
    }
  }

  lemma {:induction false} EntriesSelf(v: Value, target: Value, p: seq<Key>, i: nat)
    requires v.VMap? || v.VList?
    requires WellFormed(v)
    requires i <= Count(SchemaOf(v))
    requires |Children(v)| == Count(SchemaOf(v))
    requires forall j | i <= j < Count(SchemaOf(v)) :: Get(target, KeyAt(SchemaOf(v), j)) == Children(v)[j]
    ensures Entries(SchemaOf(v), target, p, i) == Done([])
    decreases v, 0, Count(SchemaOf(v)) - i
  {
    var parent := SchemaOf(v);
    if i < Count(parent) {
      var key := KeyAt(parent, i);
      ChildSelf(v, i, p + [key]);
      EntriesSelf(v, target, p, i + 1);
      EntriesStepSelf(parent, target, p, i, Children(v)[i]);
    }
  }

  /** The `i`-th child compared against its own schema reports nothing. */
  lemma {:induction false} ChildSelf(v: Value, i: nat, at: seq<Key>)
    requires v.VMap? || v.VList?
    requires WellFormed(v)
    requires i < |Children(v)| == Count(SchemaOf(v))
    ensures EntryErrors(ExpectedAt(SchemaOf(v), i), Children(v)[i], at) == Done([])
    decreases v, 0, 0
  {
    var child := Children(v)[i];
    assert child < v;
    assert WellFormed(child);
    assert ExpectedAt(SchemaOf(v), i) == SchemaOf(child);
    if child.VMap? || child.VList? {
      CompareSelf(child, at);
    } else {
      PyEqReflexive(child);
    }
  }

  lemma EntriesStepSelf(parent: Schema, obj: Value, p: seq<Key>, i: nat, child: Value)
    requires parent.SMap? || parent.SList?
    requires i < Count(parent)
    requires Get(obj, KeyAt(parent, i)) == child
    requires EntryErrors(ExpectedAt(parent, i), child, p + [KeyAt(parent, i)]) == Done([])
    requires Entries(parent, obj, p, i + 1) == Done([])
    ensures Entries(parent, obj, p, i) == Done([])
  {
    var none: seq<ErrorTuple> := [];
    assert none + none == none;
  }

  /** `is_alike(x, x)` holds for every well-formed plain value `x`. */
  lemma IsAlikeSelf(v: Value)
    requires WellFormed(v)
    ensures IsAlike(v, SchemaOf(v)) == Done(IsLike([]))
    ensures AssertAlike(v, SchemaOf(v)) == Passed
  {
    CompareSelf(v, []);
  }

  // Rendering.

  /** Every rendered operand is non-empty with no surrounding whitespace. */
  lemma ArgStringTrimmed(arg: Arg, a: Option<Value>)
    ensures Trimmed(ArgString(arg, a))
  {
  }

  /** A two-operand node with the default layout renders as
      `"first symbol second"`. */
  lemma RenderBinary(op: Op, a: Option<Value>)
    requires op.formatter == Plain && |op.args| == 2
    requires !op.fn.IsAlikeFn? && !op.fn.IsInstanceFn?
    ensures Render(op, a) == ArgString(op.args[0], a) + " " + op.symbol + " " + ArgString(op.args[1], a)
  {
    var s := ArgStrings(op, a);
    var s0 := ArgString(op.args[0], a);
    var s1 := ArgString(op.args[1], a);
    assert s == [s0, s1];
    assert s[1..] == [s1];
    ArgStringTrimmed(op.args[0], a);
    ArgStringTrimmed(op.args[1], a);
    StripKeepsTrimmed(s0 + " " + op.symbol + " " + s1);
  }

  /** A one-operand node with the default layout renders as
      `"symbol operand"`. */
  lemma RenderUnary(op: Op, a: Option<Value>)
    requires op.formatter == Plain && |op.args| == 1 && Trimmed(op.symbol)
    requires !op.fn.IsAlikeFn? && !op.fn.IsInstanceFn?
    ensures Render(op, a) == op.symbol + " " + ArgString(op.args[0], a)
  {
    var s0 := ArgString(op.args[0], a);
    assert ArgStrings(op, a) == [s0];
    ArgStringTrimmed(op.args[0], a);
    var t := op.symbol + " " + s0;
    assert Trimmed(t);
    assert "" + " " + op.symbol + " " + s0 == " " + t;
    LeadingSpace(t);
  }

  /** Stripping a trimmed text with one space in front gives the text. */
  lemma LeadingSpace(t: string)
    requires Trimmed(t)
    ensures Strip(" " + t, IsSpace) == t
  {
    var text := " " + t;
    assert text[1..] == t;
    assert TrimStart(text, IsSpace) == TrimStart(t, IsSpace);
    StripKeepsTrimmed(t);
  }

  lemma Spaced(l: string, symbol: string, r: string)
    ensures l + " " + symbol + " " + r == l + (" " + symbol + " ") + r
  {
  }

  lemma SpacedEq(l: string, symbol: string, r: string)
    requires symbol == "=="
    ensures l + " " + symbol + " " + r == l + " == " + r
  {
    Spaced(l, symbol, r);
    assert " " + symbol + " " == " == ";
  }

  /** The rendering the comparison uses for a literal leaf: `1 == 2`. */
  lemma EqLeafRendering(v: Value, actual: Value)
    ensures Render(EqLeaf(v), Some(actual)) == Repr(actual) + " == " + Repr(v)
  {
    var op := EqLeaf(v);
    assert op.args == [Placeholder, Literal(v)] && op.symbol == "==";
    RenderBinary(op, Some(actual));
    var l := ArgString(op.args[0], Some(actual));
    var r := ArgString(op.args[1], Some(actual));
    assert l == Repr(actual);
    assert r == Repr(v);
    SpacedEq(l, op.symbol, r);
  }

  // Ordering leaves and their combination.

  /** `A > w` (and `<`, `>=`, `<=`) evaluated at `x` is Python's `x > w`;
      comparing values Python cannot order raises TypeError. */
  lemma OrderedEvaluates(c: Cmp, w: Value, x: Value, at: seq<Key>)
    ensures PyOrder(c, x, w).Some? ==> Evaluate(Ordered(A, c, Literal(w)), x, at) == Done(RVal(VBool(PyOrder(c, x, w).value)))
    ensures PyOrder(c, x, w).None? ==> Evaluate(Ordered(A, c, Literal(w)), x, at) == Raised(TypeError)
  {
    var op := Ordered(A, c, Literal(w));
    PlainOperands(op, x, 0);
    var vals := EvalArgs(op, x, 0).value;
    assert vals == [RVal(x), RVal(w)];
    OrderedPerform(c, x, w);
  }

  /** `x[k]` evaluates to the subscription of what its receiver evaluates
      to, and an `x[k]` node carries no `IsLike` to prefix. */
  lemma ItemEvaluates(x: Receiver, k: Key, a: Value, v: Value, w: Value, at: seq<Key>)
    requires x.Placeholder? ==> v == a
    requires x.Deferred? ==> Evaluate(x.op, a, []) == Done(RVal(v))
    requires ItemGet(v, k) == Done(w)
    ensures Evaluate(Item(x, k), a, at) == Done(RVal(w))
  {
    var op := Item(x, k);
    assert op.args == [x];
    assert EvalArgs(op, a, 1) == Done([]);
    if x.Deferred? {
      DeferredOperand(op, a, 0, RVal(v), []);
    }
    assert [RVal(v)] + [] == [RVal(v)];
    assert EvalArgs(op, a, 0) == Done([RVal(v)]);
    ItemPerform(k, v, w);
    EvaluateFrom(op, a, at, [RVal(v)], RVal(w));
  }

  /** `itemgetter(k)` applied to a value that subscripts to `w`. */
  lemma ItemPerform(k: Key, v: Value, w: Value)
    requires ItemGet(v, k) == Done(w)
    ensures Perform(ItemFn(k), [RVal(v)]) == Done(RVal(w))
  {
  }

  /** A node whose operands are a nested node and a literal evaluates them
      to the nested node's value and the literal. */
  lemma NestedFirstOperand(op: Op, o: Op, w: Value, a: Value, v: Value)
    requires op.args == [Deferred(o), Literal(w)]
    requires Evaluate(o, a, []) == Done(RVal(v))
    ensures EvalArgs(op, a, 0) == Done([RVal(v), RVal(w)])
  {
    PlainOperands(op, a, 1);
    assert op.args[1] == Literal(w);
    assert PlainValue(op.args[1], a) == RVal(w);
    var rest := EvalArgs(op, a, 1).value;
    assert |rest| == 1 && rest[0] == RVal(w);
    assert rest == [RVal(w)];
    assert EvalArgs(op, a, 1) == Done([RVal(w)]);
    assert op.args[0] == Deferred(o);
    DeferredOperand(op, a, 0, RVal(v), [RVal(w)]);
    assert [RVal(v)] + [RVal(w)] == [RVal(v), RVal(w)];
  }

  /** `x == w` on a nested node compares what the node evaluates to with `w`. */
  lemma NestedEqualsEvaluates(o: Op, w: Value, a: Value, v: Value, at: seq<Key>)
    requires Evaluate(o, a, []) == Done(RVal(v))
    ensures Evaluate(Equals(Deferred(o), Literal(w)), a, at) == Done(RVal(VBool(PyEq(v, w))))
  {
    var op := Equals(Deferred(o), Literal(w));
    NestedFirstOperand(op, o, w, a, v);
    EvaluateFrom(op, a, at, [RVal(v), RVal(w)], RVal(VBool(PyEq(v, w))));
  }

  /** `x > w` (and `<`, `>=`, `<=`) on a nested node orders what the node
      evaluates to against `w`. */
  lemma NestedOrderedEvaluates(o: Op, c: Cmp, w: Value, a: Value, v: Value, at: seq<Key>)
    requires Evaluate(o, a, []) == Done(RVal(v))
    requires PyOrder(c, v, w).Some?
    ensures Evaluate(Ordered(Deferred(o), c, Literal(w)), a, at) == Done(RVal(VBool(PyOrder(c, v, w).value)))
  {
    var op := Ordered(Deferred(o), c, Literal(w));
    NestedFirstOperand(op, o, w, a, v);
    EvaluateFrom(op, a, at, [RVal(v), RVal(w)], RVal(VBool(PyOrder(c, v, w).value)));
  }

  /** `A.apply(f)` passes the value to the callback and files nested errors
      under the callback's name; an exception of the callback propagates. */
  lemma ApplyEvaluates(name: string, f: Res -> Outcome<Res>, a: Value, at: seq<Key>)
    ensures f(RVal(a)).Done? ==> Evaluate(Apply(name, f), a, at) == Done(Prefixed(at + [KStr(name)], f(RVal(a)).value))
    ensures f(RVal(a)).Raised? ==> Evaluate(Apply(name, f), a, at) == Raised(f(RVal(a)).exc)
  {
    var op := Apply(name, f);
    assert op.args == [Placeholder];
    PlainOperands(op, a, 0);
    var vals := EvalArgs(op, a, 0).value;
    assert |vals| == 1 && vals[0] == RVal(a);
    assert vals == [RVal(a)];
    if f(RVal(a)).Done? {
      EvaluateFrom(op, a, at, [RVal(a)], f(RVal(a)).value);
    }
  }

  lemma OrderedPerform(c: Cmp, x: Value, w: Value)
    ensures PyOrder(c, x, w).Some? ==> Perform(OrderFn(c), [RVal(x), RVal(w)]) == Done(RVal(VBool(PyOrder(c, x, w).value)))
    ensures PyOrder(c, x, w).None? ==> Perform(OrderFn(c), [RVal(x), RVal(w)]) == Raised(TypeError)
  {
  }

  /** `A > w` shown with the value `x`: `repr(x) > repr(w)`. */
  lemma OrderedRendering(c: Cmp, w: Value, x: Option<Value>)
    ensures Render(Ordered(A, c, Literal(w)), x) == ReprSubject(x) + " " + CmpSymbol(c) + " " + Repr(w)
  {
    var op := Ordered(A, c, Literal(w));
    assert op.args == [Placeholder, Literal(w)];
    RenderBinary(op, x);
    PlaceholderString(x);
    LiteralString(w, x);
  }

  lemma PlaceholderString(a: Option<Value>)
    ensures ArgString(Placeholder, a) == ReprSubject(a)
  {
  }

  lemma LiteralString(v: Value, a: Option<Value>)
    ensures ArgString(Literal(v), a) == Repr(v)
  {
  }

  /** As a schema leaf, `A > w` reports nothing when `x > w` holds and
      otherwise one error rendered as `repr(x) > repr(w)`. */
  lemma OrderedLeaf(c: Cmp, w: Value, x: Value, at: seq<Key>)
    requires PyOrder(c, x, w).Some?
    ensures EntryErrors(SOp(Ordered(A, c, Literal(w))), x, at) ==
              Done(if PyOrder(c, x, w).value then [] else [ErrorTuple(at, x, Repr(x) + " " + CmpSymbol(c) + " " + Repr(w))])
  {
    var op := Ordered(A, c, Literal(w));
    OrderedEvaluates(c, w, x, at);
    var b := PyOrder(c, x, w).value;
    LeafOfOp(op, x, at, RVal(VBool(b)));
    if !b {
      OrderedRendering(c, w, Some(x));
      assert ReprSubject(Some(x)) == Repr(x);
    }
  }

  /** A deferred leaf whose evaluation yields `r` reports `LeafErrors` of `r`. */
  lemma LeafOfOp(op: Op, actual: Value, at: seq<Key>, r: Res)
    requires Evaluate(op, actual, at) == Done(r)
    ensures EntryErrors(SOp(op), actual, at) == Done(LeafErrors(op, r, actual, at))
  {
  }

  /** `(A > lo) & (A < hi)` holds at `v` exactly when `lo < v < hi`. */
  lemma RangeCheck(lo: int, hi: int, v: int, at: seq<Key>)
    ensures Evaluate(And(Deferred(Ordered(A, Gt, Literal(VInt(lo)))), Deferred(Ordered(A, Lt, Literal(VInt(hi))))), VInt(v), at) ==
              Done(RVal(VBool(v > lo && v < hi)))
  {
    var gt := Ordered(A, Gt, Literal(VInt(lo)));
    var lt := Ordered(A, Lt, Literal(VInt(hi)));
    OrderedEvaluates(Gt, VInt(lo), VInt(v), []);
    OrderedEvaluates(Lt, VInt(hi), VInt(v), []);
    var op := And(Deferred(gt), Deferred(lt));
    var b1 := RVal(VBool(v > lo));
    var b2 := RVal(VBool(v < hi));
    assert EvalArgs(op, VInt(v), 2) == Done([]);
    assert [b2] + [] == [b2];
    assert EvalArgs(op, VInt(v), 1) == Done([b2]);
    assert [b1] + [b2] == [b1, b2];
    assert EvalArgs(op, VInt(v), 0) == Done([b1, b2]);
  }

  /** `x & y` renders as both operands, each in parentheses, joined by
      `and`: `(A > lo) & (A < hi)` shows as `(<A> > lo) and (<A> < hi)`
      (see `OrderedRendering` for each side). */
  lemma AndRendering(x: Op, y: Op, a: Option<Value>)
    ensures Render(And(Deferred(x), Deferred(y)), a) ==
              "(" + Render(x, a) + ")" + " " + "and" + " " + ("(" + Render(y, a) + ")")
  {
    var op := And(Deferred(x), Deferred(y));
    assert op.args == [Deferred(x), Deferred(y)] && op.symbol == "and";
    RenderBinary(op, a);
    assert ArgString(op.args[0], a) == "(" + Render(x, a) + ")";
    assert ArgString(op.args[1], a) == "(" + Render(y, a) + ")";
  }

  // The diagnostic text of `UnlikeError`.

  lemma {:induction false} JoinAppend(parts: seq<string>, x: string, sep: string)
    requires parts != []
    ensures Join(parts + [x], sep) == Join(parts, sep) + sep + x
    decreases |parts|
  {
    if |parts| == 1 {
      assert parts + [x] == [parts[0], x];
      assert [parts[0], x][1..] == [x];
    } else {
      assert (parts + [x])[1..] == parts[1..] + [x];
      JoinAppend(parts[1..], x, sep);
    }
  }

  /** The text is empty exactly when there are no errors, and one error
      gives the header and its line. */
  lemma ErrorsTextEmpty(errors: seq<ErrorTuple>)
    ensures ErrorsToStr(errors) == [] <==> errors == []
  {
  }

  lemma ErrorsTextOne(e: ErrorTuple)
    ensures ErrorsToStr([e]) == Header + ErrorLine(e)
  {
    assert Lines([e]) == [ErrorLine(e)];
  }

  /** Appending an error appends its line: the lines follow the errors'
      order. */
  lemma ErrorsTextAppend(errors: seq<ErrorTuple>, e: ErrorTuple)
    requires errors != []
    ensures ErrorsToStr(errors + [e]) == ErrorsToStr(errors) + "\n" + ErrorLine(e)
  {
    var line := ErrorLine(e);
    LinesAppend(errors, e);
    JoinAppend(Lines(errors), line, "\n");
    TextAfterHeader(Join(Lines(errors), "\n"), line);
  }

  lemma TextAfterHeader(before: string, line: string)
    ensures Header + (before + "\n" + line) == Header + before + "\n" + line
  {
  }

  lemma LinesAppend(errors: seq<ErrorTuple>, e: ErrorTuple)
    ensures Lines(errors + [e]) == Lines(errors) + [ErrorLine(e)]
  {
  }

  /** `assert_alike` passes exactly when the comparison reports nothing,
      lets exceptions through, and otherwise raises an `UnlikeError` that
      carries the errors and whose message is the diagnostic text. */
  lemma AssertAlikeOutcome(actual: Value, expected: Schema)
    ensures AssertAlike(actual, expected) == Passed <==> IsAlike(actual, expected) == Done(IsLike([]))
    ensures AssertAlike(actual, expected).Crashed? <==> IsAlike(actual, expected).Raised?
    ensures AssertAlike(actual, expected).Failed? ==>
              var err := AssertAlike(actual, expected).error;
              && err.errors == IsAlike(actual, expected).value.errors != []
              && err.message == ErrorsToStr(err.errors)
              && err.message[..|Header|] == Header
  {
    var r := IsAlike(actual, expected);
    if r.Done? && r.value.errors != [] {
      assert "" + ErrorsToStr(r.value.errors) == ErrorsToStr(r.value.errors);
    }
  }
}
