/** The comparison layer: evaluating deferred operations (`Op._evaluate`),
    the recursive walk `Alike._is_alike`, and the entry points `is_alike`
    and `assert_alike`. */
module Comparison {
  import opened Values
  import opened Results
  import opened Expressions

  /** Python `==` between evaluated operands; an `IsLike` has no `__eq__`
      and is therefore equal to nothing but itself, and every evaluation
      makes a fresh one. */
  function ResEq(x: Res, y: Res): bool {
    x.RVal? && y.RVal? && PyEq(x.v, y.v)
  }

  /** `x is y` for the objects Python keeps unique (None, True, False and
      MISSING); any other pair counts as two objects. */
  function SameObject(x: Res, y: Res): bool {
    match (x, y)
    case (RVal(VMissing), RVal(VMissing)) => true
    case (RVal(VNone), RVal(VNone)) => true
    case (RVal(VBool(b)), RVal(VBool(c))) => b == c
    case _ => false
  }

  /** `len(x)`; TypeError for values without a length. */
  function Len(x: Res): Outcome<Res> {
    match x
    case RVal(VStr(s)) => Done(RVal(VInt(|s|)))
    case RVal(VList(a)) => Done(RVal(VInt(|a|)))
    case RVal(VTuple(a)) => Done(RVal(VInt(|a|)))
    case RVal(VMap(es)) => Done(RVal(VInt(|es|)))
    case _ => Raised(TypeError)
  }

  function HasTag(v: Value, t: TypeTag): bool {
    match t
    case TInt => v.VInt? || v.VBool?
    case TBool => v.VBool?
    case TStr => v.VStr?
    case TNoneType => v.VNone?
    case TList => v.VList?
    case TTuple => v.VTuple?
    case TDict => v.VMap?
  }

  /** `isinstance(x, types)`. */
  function InstanceOf(x: Res, t: TypeSpec): bool {
    x.RVal? &&
    match t
    case OneType(tag) => HasTag(x.v, tag)
    case TypeTuple(tags) => exists i | 0 <= i < |tags| :: HasTag(x.v, tags[i])
  }

  /** Attribute access, on plain data: a dict's entry under that name. */
  function GetAttr(x: Res, name: string): Outcome<Res> {
    if x.RVal? && x.v.VMap? then
      match Lookup(x.v.entries, KStr(name))
      case Some(v) => Done(RVal(v))
      case None => Raised(AttributeError)
    else Raised(AttributeError)
  }

  /** `x[key]` on an evaluated operand. */
  function GetItem(x: Res, k: Key): Outcome<Res> {
    if x.RVal? then
      match ItemGet(x.v, k)
      case Done(v) => Done(RVal(v))
      case Raised(e) => Raised(e)
    else Raised(TypeError)
  }

  /** `self.op(*args)`: applies a node's operation to its evaluated
      operands; the wrong number of operands raises TypeError. */
  function Perform(fn: Fn, vals: seq<Res>): Outcome<Res>
    decreases fn, 0
  {
    match fn
    case EqFn => if |vals| != 2 then Raised(TypeError) else Done(RVal(VBool(ResEq(vals[0], vals[1]))))
    case OrderFn(c) =>
      if |vals| != 2 || !vals[0].RVal? || !vals[1].RVal? then Raised(TypeError)
      else
        (match PyOrder(c, vals[0].v, vals[1].v)
         case Some(b) => Done(RVal(VBool(b)))
         case None => Raised(TypeError))
    case AndFn => if |vals| != 2 then Raised(TypeError) else Done(ApplyAnd(vals[0], vals[1]))
    case OrFn => if |vals| != 2 then Raised(TypeError) else Done(ApplyOr(vals[0], vals[1]))
    case NotFn => if |vals| != 1 then Raised(TypeError) else Done(RVal(VBool(!Truthy(vals[0]))))
    case LenFn => if |vals| != 1 then Raised(TypeError) else Len(vals[0])
    case IsFn => if |vals| != 2 then Raised(TypeError) else Done(RVal(VBool(SameObject(vals[0], vals[1]))))
    case IsNotFn => if |vals| != 2 then Raised(TypeError) else Done(RVal(VBool(!SameObject(vals[0], vals[1]))))
    case ItemFn(k) => if |vals| != 1 then Raised(TypeError) else GetItem(vals[0], k)
    case AttrFn(name) => if |vals| != 1 then Raised(TypeError) else GetAttr(vals[0], name)
    case CallFn(_, _) => Raised(AttributeError)
    case IsAlikeFn(schema) =>
      if |vals| != 1 || !vals[0].RVal? then Raised(TypeError)
      else
        var errors :- Compare(schema, vals[0].v, []);
        Done(RIsLike(IsLike(errors)))
    case IsInstanceFn(t) => if |vals| != 1 then Raised(TypeError) else Done(RVal(VBool(InstanceOf(vals[0], t))))
    case CallbackFn(_, f) => if |vals| != 1 then Raised(TypeError) else f(vals[0])
  }

  /** `error.path[:0] = prefix` applied to every error. */
  function PrefixAll(prefix: seq<Key>, errors: seq<ErrorTuple>): (r: seq<ErrorTuple>)
    ensures |r| == |errors|
    ensures forall i | 0 <= i < |errors| :: r[i] == errors[i].(path := prefix + errors[i].path)
  {
    seq(|errors|, i requires 0 <= i < |errors| => errors[i].(path := prefix + errors[i].path))
  }

  /** Prefixes the errors of an `IsLike` result; other results pass. */
  function Prefixed(prefix: seq<Key>, r: Res): Res {
    if r.RIsLike? then RIsLike(IsLike(PrefixAll(prefix, r.like.errors))) else r
  }

  /** `Op._evaluate(a, path)`: evaluates the operands (the placeholder
      becomes `a`, literals pass through, nested nodes are evaluated with
      no path), applies the operation and prefixes the errors of an
      `IsLike` result with `path + op.path`. */
  function Evaluate(op: Op, a: Value, path: seq<Key>): Outcome<Res>
    decreases op, |op.args| + 1
  {
    var vals :- EvalArgs(op, a, 0);
    var r :- Perform(op.fn, vals);
    Done(Prefixed(path + op.path, r))
  }

  /** The evaluated operands from position `i` on, left to right; the
      first one that raises ends the evaluation. */
  function EvalArgs(op: Op, a: Value, i: nat): Outcome<seq<Res>>
    requires i <= |op.args|
    decreases op, |op.args| - i
  {
    if i == |op.args| then Done([])
    else
      var first :- match op.args[i]
        case Placeholder => Done(RVal(a))
        case Literal(v) => Done(RVal(v))
        case Deferred(o) => Evaluate(o, a, []);
      var rest :- EvalArgs(op, a, i + 1);
      Done([first] + rest)
  }

  /** The number of keys a dict or list schema iterates over. */
  function Count(s: Schema): nat {
    match s
    case SMap(es) => |es|
    case SList(items) => |items|
    case _ => 0
  }

  /** The key of the `i`-th schema entry: the dict key, or the list index. */
  function KeyAt(s: Schema, i: nat): Key
    requires s.SMap? || s.SList?
    requires i < Count(s)
  {
    if s.SMap? then s.entries[i].0 else KInt(i)
  }

  /** How a leaf's evaluated result is classified: exactly `True` passes,
      a false `IsLike` contributes its errors, and anything else is one
      error rendered from the predicate and the actual value. */
  function LeafErrors(op: Op, r: Res, actual: Value, at: seq<Key>): seq<ErrorTuple> {
    if r == RVal(VBool(true)) then []
    else if r.RIsLike? && !r.like.Truthy() then r.like.errors
    else [ErrorTuple(at, actual, Render(op, Some(actual)))]
  }

  /** The errors one schema entry contributes at path `at`: a nested dict or
      list recurses; a deferred node is evaluated; a literal `v` is checked
      as `A == v`, whose evaluation is `actual == v` (see
      `Properties.EqLeafEvaluates`). */
  function EntryErrors(expected: Schema, actual: Value, at: seq<Key>): Outcome<seq<ErrorTuple>>
    decreases expected, Count(expected) + 2
  {
    match expected
    case SMap(_) => Compare(expected, actual, at)
    case SList(_) => Compare(expected, actual, at)
    case SOp(op) =>
      var r :- Evaluate(op, actual, at);
      Done(LeafErrors(op, r, actual, at))
    case SLit(v) => Done(LeafErrors(EqLeaf(v), RVal(VBool(PyEq(actual, v))), actual, at))
  }

  /** The errors of the schema entries from position `i` on, in schema
      order, each entry looked up in `obj` with `_get`. */
  function Entries(parent: Schema, obj: Value, path: seq<Key>, i: nat): Outcome<seq<ErrorTuple>>
    requires parent.SMap? || parent.SList?
    requires i <= Count(parent)
    decreases parent, Count(parent) - i
  {
    if i == Count(parent) then Done([])
    else
      var key := KeyAt(parent, i);
      var here :- match parent
        case SMap(es) => EntryErrors(es[i].1, Get(obj, key), path + [key])
        case SList(items) => EntryErrors(items[i], Get(obj, key), path + [key]);
      var rest :- Entries(parent, obj, path, i + 1);
      Done(here + rest)
  }

  const NotASequence := "Compared object is not a sequence"
  const NotEqual := "Compared object is not equal"

  /** `Alike._is_alike(schema, obj, path)`. A list schema needs a list or
      tuple (a string does not qualify) and compares it by index; a scalar
      schema compares by `!=`; a deferred node at the top cannot be
      compared by `!=` and raises TypeError. */
  function Compare(schema: Schema, obj: Value, path: seq<Key>): Outcome<seq<ErrorTuple>>
    decreases schema, Count(schema) + 1
  {
    match schema
    case SMap(_) => Entries(schema, obj, path, 0)
    case SList(_) =>
      if obj.VList? || obj.VTuple? then Entries(schema, VMap(Indexed(obj.items)), path, 0)
      else Done([ErrorTuple(path, obj, NotASequence)])
    case SOp(_) => Raised(TypeError)
    case SLit(v) => Done(if PyEq(v, obj) then [] else [ErrorTuple(path, obj, NotEqual)])
  }

  /** `is_alike(actual, expected)`. */
  function IsAlike(actual: Value, expected: Schema): Outcome<IsLike> {
    var errors :- Compare(expected, actual, []);
    Done(IsLike(errors))
  }

  /** What `assert_alike` does: return, raise `UnlikeError`, or let
      another exception through. */
  datatype Verdict = Passed | Failed(error: UnlikeError) | Crashed(exc: Exc)

  /** `assert_alike(actual, expected)`. */
  function AssertAlike(actual: Value, expected: Schema): Verdict {
    match IsAlike(actual, expected)
    case Raised(e) => Crashed(e)
    case Done(r) =>
      match RaiseOnError(r)
      case None => Passed
      case Some(e) => Failed(e)
  }

  /** `A.is_alike(schema)` evaluated as the library builds it: the node's
      path is the deferred expression `A.path`, so prefixing an error with
      `path + self.path` adds a list and a node, which raises TypeError
      whatever the evaluation path is, and only when the nested comparison
      reports an error to prefix. A deferred value has no place in a
      node's path here, so the model does not build that node: the
      `Raised(TypeError)` below stands for the failing `list + Op` of
      `Op._evaluate`'s prefixing step, whose `self.path` is the node that
      `_A.__getattr__` returns for the attribute name `path`. */
  function EvaluatePlaceholderIsAlikeAsWritten(schema: Schema, a: Value): (r: Outcome<Res>)
    ensures r.Done? <==> Compare(schema, a, []) == Done([])
    ensures r.Done? ==> r.value == RIsLike(IsLike([]))
  {
    var errors :- Compare(schema, a, []);
    if errors == [] then Done(RIsLike(IsLike([]))) else Raised(TypeError)
  }
}
