/** The deferred-expression layer: the placeholder `A`, deferred operations
    (`Op`), schemas, the builders the library attaches to `A` and to `Op`,
    and the rendering `Op._to_str`. */
module Expressions {
  import opened Text
  import opened Values
  import opened Results

  /** The classes `A.isinstance` can test for. */
  datatype TypeTag = TInt | TBool | TStr | TNoneType | TList | TTuple | TDict

  /** The second argument of `isinstance`: one class or a tuple of them. */
  datatype TypeSpec = OneType(tag: TypeTag) | TypeTuple(tags: seq<TypeTag>)

  /** The operation a deferred node applies to its evaluated operands. */
  datatype Fn =
    | EqFn                                   // operator.eq
    | OrderFn(cmp: Cmp)                      // operator.gt, lt, ge, le
    | AndFn                                  // _apply_and
    | OrFn                                   // _apply_or
    | NotFn                                  // operator.not_
    | LenFn                                  // len
    | IsFn                                   // operator.is_
    | IsNotFn                                // operator.is_not
    | ItemFn(key: Key)                       // operator.itemgetter(key)
    | AttrFn(name: string)                   // operator.attrgetter(name)
    | CallFn(args: seq<Value>, kwargs: seq<(string, Value)>)  // methodcaller('__call__', ...)
    | IsAlikeFn(schema: Schema)              // is_alike(_, schema)
    | IsInstanceFn(types: TypeSpec)          // isinstance(_, types)
    | CallbackFn(name: string, f: Res -> Outcome<Res>)  // a user callback, by its __name__

  /** The custom formatters the builders attach; `Plain` is the default
      `"first symbol rest"` layout. */
  datatype Formatter =
    | Plain
    | AttrFormat(name: string, stripped: bool)
    | ItemFormat(key: Key)
    | CallFormat(argText: string)
    | FixedText(text: string)
    | ApplyFormat(name: string)

  /** An operand: the placeholder `A`, a nested deferred node, or a literal. */
  datatype Arg = Placeholder | Deferred(op: Op) | Literal(v: Value)

  /** A deferred operation `fn(args...)` with its display symbol, formatter
      and the path segments it contributes to nested errors. */
  datatype Op = Op(fn: Fn, args: seq<Arg>, symbol: string, formatter: Formatter, path: seq<Key>)

  /** A schema literal that is neither a dict nor a list. */
  type ScalarValue = v: Value | !v.VList? && !v.VMap? witness VNone

  /** The expected side of a comparison: dicts and lists of schemas,
      deferred operations at the leaves, and plain literals. */
  datatype Schema =
    | SMap(entries: seq<(Key, Schema)>)
    | SList(items: seq<Schema>)
    | SOp(op: Op)
    | SLit(v: ScalarValue)

  /** What the builders can be called on: `A` or a deferred node. */
  type Receiver = a: Arg | !a.Literal? witness Placeholder

  const A: Receiver := Placeholder

  /** The path a receiver already carries (`A` carries none). */
  function PathOf(x: Receiver): seq<Key> {
    if x.Deferred? then x.op.path else []
  }

  function CmpSymbol(c: Cmp): string {
    match c
    case Gt => ">"
    case Lt => "<"
    case Ge => ">="
    case Le => "<="
  }

  // Builders shared by `A` and `Op` (`__eq__`, `__gt__`, ..., `__invert__`).

  function Equals(x: Receiver, b: Arg): Op {
    Op(EqFn, [x, b], "==", Plain, [])
  }

  function Ordered(x: Receiver, c: Cmp, b: Arg): Op {
    Op(OrderFn(c), [x, b], CmpSymbol(c), Plain, [])
  }

  function And(x: Receiver, b: Arg): Op {
    Op(AndFn, [x, b], "and", Plain, [])
  }

  function Or(x: Receiver, b: Arg): Op {
    Op(OrFn, [x, b], "or", Plain, [])
  }

  function Invert(x: Receiver): Op {
    Op(NotFn, [x], "not", Plain, [])
  }

  /** `x.name`: `A`'s formatter strips parentheses from its operand, the
      one of `Op` does not. */
  function Attr(x: Receiver, name: string): Op {
    Op(AttrFn(name), [x], "operator.attrgetter(" + StrRepr(name) + ")",
       AttrFormat(name, x.Placeholder?), PathOf(x) + [KStr(name)])
  }

  /** `x[key]`. */
  function Item(x: Receiver, key: Key): Op {
    Op(ItemFn(key), [x], "operator.itemgetter(" + ReprKey(key) + ")", ItemFormat(key), PathOf(x) + [key])
  }

  /** Each positional argument by its `repr`. */
  function PositionalTexts(args: seq<Value>): seq<string> {
    seq(|args|, i requires 0 <= i < |args| => Repr(args[i]))
  }

  /** Each keyword argument as `name=repr(value)`, in the order given. */
  function KeywordTexts(kwargs: seq<(string, Value)>): seq<string> {
    seq(|kwargs|, i requires 0 <= i < |kwargs| => kwargs[i].0 + "=" + Repr(kwargs[i].1))
  }

  /** The text inside the parentheses of `_format_args(*args, **kwargs)`. */
  function ArgsText(args: seq<Value>, kwargs: seq<(string, Value)>): string {
    var positional := Join(PositionalTexts(args), ", ");
    var named := Join(KeywordTexts(kwargs), ", ");
    positional + (if args != [] && kwargs != [] then ", " else "") + named
  }

  /** `_format_args(*args, **kwargs)`. */
  function FormatArgs(args: seq<Value>, kwargs: seq<(string, Value)>): string {
    "(" + ArgsText(args, kwargs) + ")"
  }

  /** `x(*args, **kwargs)`: no new path segment; on an `Op` the formatted
      arguments are appended to the last segment, which raises TypeError
      when that segment is an integer index. */
  function Call(x: Receiver, args: seq<Value>, kwargs: seq<(string, Value)>): Outcome<Op> {
    var text := ArgsText(args, kwargs);
    var symbol := "operator.methodcaller('__call__'" + (if text == [] then "" else ", " + text) + ")";
    var path := PathOf(x);
    if path == [] then Done(Op(CallFn(args, kwargs), [x], symbol, CallFormat(FormatArgs(args, kwargs)), []))
    else
      match path[|path| - 1]
      case KInt(_) => Raised(TypeError)
      case KStr(last) =>
        Done(Op(CallFn(args, kwargs), [x], symbol, CallFormat(FormatArgs(args, kwargs)),
                path[..|path| - 1] + [KStr(last + FormatArgs(args, kwargs))]))
  }

  /** `Op.is_alike(schema)`: keeps the receiver's path. On `A` the path is
      empty (see `Comparison.EvaluatePlaceholderIsAlikeAsWritten` for what
      the library does instead). */
  function IsAlikeOf(x: Receiver, schema: Schema): Op {
    Op(IsAlikeFn(schema), [x], "is_alike", Plain, PathOf(x))
  }

  // Builders only `A` has.

  function Length(): Op {
    Op(LenFn, [A], "len", Plain, [])
  }

  function IsFalsy(): Op {
    Op(NotFn, [A], "not", Plain, [])
  }

  function IsMissing(): Op {
    Op(IsFn, [A, Literal(VMissing)], "is_", FixedText("value should be missing"), [])
  }

  function IsPresent(): Op {
    Op(IsNotFn, [A, Literal(VMissing)], "is_not", FixedText("value should be present"), [])
  }

  function Apply(name: string, f: Res -> Outcome<Res>): Op {
    Op(CallbackFn(name, f), [A], name, ApplyFormat(name), [KStr(name)])
  }

  function IsInstance(types: TypeSpec): Op {
    Op(IsInstanceFn(types), [A], "isinstance", Plain, [])
  }

  /** `A == expected`, the predicate a literal schema leaf resolves to. */
  function EqLeaf(v: Value): Op {
    Equals(A, Literal(v))
  }

  // Rendering (`Op._to_str`, `repr` of schemas and types).

  function TagName(t: TypeTag): string {
    match t
    case TInt => "int"
    case TBool => "bool"
    case TStr => "str"
    case TNoneType => "NoneType"
    case TList => "list"
    case TTuple => "tuple"
    case TDict => "dict"
  }

  function ReprTag(t: TypeTag): string {
    "<class '" + TagName(t) + "'>"
  }

  function ReprTypes(t: TypeSpec): string {
    match t
    case OneType(tag) => ReprTag(tag)
    case TypeTuple(tags) =>
      if |tags| == 1 then "(" + ReprTag(tags[0]) + ",)"
      else "(" + Join(seq(|tags|, i requires 0 <= i < |tags| => ReprTag(tags[i])), ", ") + ")"
  }

  /** How the placeholder is shown: the substituted value, or `<A>`. */
  function ReprSubject(a: Option<Value>): (r: string)
    ensures Trimmed(r)
    ensures a.None? ==> r == "<A>"
    ensures a.Some? ==> r == Repr(a.value)
  {
    match a
    case None => "<A>"
    case Some(v) => Repr(v)
  }

  /** `arg_to_str`: nested nodes in parentheses, the placeholder as the
      substituted value, literals by `repr`. */
  function ArgString(arg: Arg, a: Option<Value>): string
    decreases arg
  {
    match arg
    case Placeholder => ReprSubject(a)
    case Literal(v) => Repr(v)
    case Deferred(o) => "(" + Render(o, a) + ")"
  }

  /** The rendered operands; `is_alike` and `isinstance` nodes also show
      their second operand (the schema or the types). */
  function ArgStrings(op: Op, a: Option<Value>): (r: seq<string>)
    ensures |r| >= |op.args|
    ensures forall i | 0 <= i < |op.args| :: r[i] == ArgString(op.args[i], a)
    ensures op.fn.IsAlikeFn? ==> |r| == |op.args| + 1 && r[|op.args|] == ReprSchema(op.fn.schema)
    ensures op.fn.IsInstanceFn? ==> |r| == |op.args| + 1 && r[|op.args|] == ReprTypes(op.fn.types)
    ensures !op.fn.IsAlikeFn? && !op.fn.IsInstanceFn? ==> |r| == |op.args|
    decreases op, 1
  {
    var own := seq(|op.args|, i requires 0 <= i < |op.args| => ArgString(op.args[i], a));
    match op.fn
    case IsAlikeFn(s) => own + [ReprSchema(s)]
    case IsInstanceFn(t) => own + [ReprTypes(t)]
    case _ => own
  }

  /** The default layout: `"symbol arg"` for one operand, otherwise
      `"first symbol rest"` with the rest comma-joined; then stripped. */
  function DefaultFormat(symbol: string, s: seq<string>): string {
    var pre := if |s| == 1 || s == [] then "" else s[0];
    var post := if |s| == 1 then s[0] else if s == [] then "" else Join(s[1..], ", ");
    Strip(pre + " " + symbol + " " + post, IsSpace)
  }

  /** Applies a node's formatter to its rendered operands. A node built
      without operands shows its missing first operand as empty text. */
  function Formatted(f: Formatter, symbol: string, s: seq<string>): string {
    var first := if s == [] then "" else s[0];
    match f
    case Plain => DefaultFormat(symbol, s)
    case AttrFormat(name, stripped) => (if stripped then Strip(first, IsParen) else first) + "." + name
    case ItemFormat(k) => Strip(first, IsParen) + "[" + ReprKey(k) + "]"
    case CallFormat(text) => Strip(first, IsParen) + text
    case FixedText(text) => text
    case ApplyFormat(name) => name + "(" + Join(s, ", ") + ")"
  }

  /** `Op._to_str(a)`: `None` renders the template with `<A>`. */
  function Render(op: Op, a: Option<Value>): string
    decreases op, 2
  {
    Formatted(op.formatter, op.symbol, ArgStrings(op, a))
  }

  /** `repr` of a schema; a deferred node shows its template. */
  function ReprSchema(s: Schema): string
    decreases s
  {
    match s
    case SLit(v) => Repr(v)
    case SOp(o) => Render(o, None)
    case SList(items) => "[" + Join(seq(|items|, i requires 0 <= i < |items| => ReprSchema(items[i])), ", ") + "]"
    case SMap(es) =>
      "{" + Join(seq(|es|, i requires 0 <= i < |es| => ReprKey(es[i].0) + ": " + ReprSchema(es[i].1)), ", ") + "}"
  }
}
