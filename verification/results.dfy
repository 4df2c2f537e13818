/** Error records, the boolean-like comparison result `IsLike`, the
    error-preserving `and`/`or`, and the diagnostic text of `UnlikeError`. */
module Results {
  import opened Text
  import opened Values

  /** One mismatch: where it is, the offending value, and the rendered check. */
  datatype ErrorTuple = ErrorTuple(path: seq<Key>, value: Value, description: string)

  /** A comparison result: true exactly when it holds no errors. */
  datatype IsLike = IsLike(errors: seq<ErrorTuple>) {
    predicate Truthy() {
      errors == []
    }
  }

  /** What an evaluated expression yields: a plain value or an `IsLike`. */
  datatype Res = RVal(v: Value) | RIsLike(like: IsLike)

  /** Python truthiness of a plain value; MISSING is an ordinary object
      and therefore true. */
  predicate ValueTruthy(v: Value) {
    match v
    case VInt(i) => i != 0
    case VBool(b) => b
    case VStr(s) => s != []
    case VNone => false
    case VMissing => true
    case VList(a) => a != []
    case VTuple(a) => a != []
    case VMap(es) => es != []
  }

  predicate Truthy(r: Res) {
    match r
    case RVal(v) => ValueTruthy(v)
    case RIsLike(l) => l.Truthy()
  }

  /** The errors an operand carries: those of an `IsLike`, none otherwise. */
  function Carried(r: Res): seq<ErrorTuple> {
    if r.RIsLike? then r.like.errors else []
  }

  /** `_get_is_like_errors(a, b)`: the errors of both operands, `a`'s first. */
  function IsLikeErrors(a: Res, b: Res): (errors: seq<ErrorTuple>)
    ensures |errors| == |Carried(a)| + |Carried(b)|
    ensures errors[..|Carried(a)|] == Carried(a)
    ensures errors[|Carried(a)|..] == Carried(b)
  {
    Carried(a) + Carried(b)
  }

  /** `_get_is_like_errors` as the library runs it: a loop over `[a, b]`
      that extends a list with each `IsLike`'s errors. */
  method GetIsLikeErrors(a: Res, b: Res) returns (errors: seq<ErrorTuple>)
    ensures errors == Carried(a) + Carried(b)
  {
    errors := [];
    var items := [a, b];
    for k := 0 to 2
      invariant errors == if k == 0 then [] else if k == 1 then Carried(a) else Carried(a) + Carried(b)
    {
      if items[k].RIsLike? {
        errors := errors + items[k].like.errors;
      }
    }
  }

  /** The outcome shared by `_apply_and` and `_apply_or` once the plain
      truth of the combination is known. */
  function Combined(truth: bool, a: Res, b: Res): Res {
    if truth then RVal(VBool(true))
    else
      var errors := IsLikeErrors(a, b);
      if errors != [] then RIsLike(IsLike(errors)) else RVal(VBool(false))
  }

  /** `_apply_and(a, b)`: `True` when both operands are truthy; otherwise an
      `IsLike` merging the operands' errors, or `False` when they carry none. */
  function ApplyAnd(a: Res, b: Res): (r: Res)
    ensures Truthy(r) <==> Truthy(a) && Truthy(b)
    ensures Truthy(r) ==> r == RVal(VBool(true))
    ensures !Truthy(r) ==> Carried(r) == Carried(a) + Carried(b)
    ensures r.RVal? ==> r.v.VBool?
  {
    Combined(Truthy(a) && Truthy(b), a, b)
  }

  /** `_apply_or(a, b)`: `True` when either operand is truthy; otherwise an
      `IsLike` merging the operands' errors, or `False` when they carry none. */
  function ApplyOr(a: Res, b: Res): (r: Res)
    ensures Truthy(r) <==> Truthy(a) || Truthy(b)
    ensures Truthy(r) ==> r == RVal(VBool(true))
    ensures !Truthy(r) ==> Carried(r) == Carried(a) + Carried(b)
    ensures r.RVal? ==> r.v.VBool?
  {
    Combined(Truthy(a) || Truthy(b), a, b)
  }

  /** The exception `assert_alike` raises: its errors and its message. */
  datatype UnlikeError = UnlikeError(errors: seq<ErrorTuple>, message: string)

  /** One line of the diagnostic: the path's segments joined by arrows, the
      offending value, and the rendered check. */
  function ErrorLine(e: ErrorTuple): string {
    "  " + Join(seq(|e.path|, i requires 0 <= i < |e.path| => ReprKey(e.path[i])), " -> ")
    + " failed validation: " + Repr(e.value) + " causes error: " + e.description
  }

  const Header := "Values not alike:\n"

  /** One line per error, in order. */
  function Lines(errors: seq<ErrorTuple>): (r: seq<string>)
    ensures |r| == |errors|
    ensures forall i | 0 <= i < |errors| :: r[i] == ErrorLine(errors[i])
  {
    seq(|errors|, i requires 0 <= i < |errors| => ErrorLine(errors[i]))
  }

  /** `UnlikeError._errors_to_str`. */
  function ErrorsToStr(errors: seq<ErrorTuple>): string {
    if errors == [] then ""
    else Header + Join(Lines(errors), "\n")
  }

  /** `UnlikeError(msg, errors)`: the message is `msg` followed by the
      rendered errors. */
  function NewUnlikeError(msg: string, errors: seq<ErrorTuple>): (e: UnlikeError)
    ensures e.errors == errors
    ensures |e.message| >= |msg| && e.message[..|msg|] == msg
    ensures errors == [] ==> e.message == msg
  {
    UnlikeError(errors, msg + ErrorsToStr(errors))
  }

  /** `IsLike.raise_on_error`: raises (Some) exactly when there are errors. */
  function RaiseOnError(r: IsLike): (raised: Option<UnlikeError>)
    ensures raised.Some? <==> !r.Truthy()
    ensures raised.Some? ==> raised.value.errors == r.errors
  {
    if r.errors == [] then None else Some(NewUnlikeError("", r.errors))
  }
}
