/** The Python values the comparison engine reads: keys, plain data
    values (ints, bools, strings, None, the MISSING sentinel, lists,
    tuples and dicts), Python's `==`, ordering comparisons, `repr`,
    subscription and the permissive field getter `_get`. */
module Values {
  import opened Text

  /** A dict key or a list index; also one segment of an error path. */
  datatype Key = KStr(name: string) | KInt(index: int)

  /** A Python value. A dict is its entries in insertion order. */
  datatype Value =
    | VInt(i: int)
    | VBool(b: bool)
    | VStr(s: string)
    | VNone
    | VMissing
    | VList(items: seq<Value>)
    | VTuple(items: seq<Value>)
    | VMap(entries: seq<(Key, Value)>)

  /** The Python exceptions the engine can let through; `CallbackError`
      stands for whatever a user callback raises. */
  datatype Exc = TypeError | KeyError | IndexError | AttributeError | CallbackError

  datatype Option<+T> = None | Some(value: T)

  /** The result of Python code that either returns a value or raises. */
  datatype Outcome<+T> = Done(value: T) | Raised(exc: Exc) {
    predicate IsFailure() { Raised? }
    function PropagateFailure<U>(): Outcome<U>
      requires Raised?
    {
      Raised(exc)
    }
    function Extract(): T
      requires Done?
    {
      value
    }
  }

  /** The ordering operators `>`, `<`, `>=` and `<=`. */
  datatype Cmp = Gt | Lt | Ge | Le

  /** The first value stored under `k` (dict keys are unique in Python). */
  function Lookup(entries: seq<(Key, Value)>, k: Key): (r: Option<Value>)
    ensures r.None? <==> forall e :: e in entries ==> e.0 != k
    ensures r.Some? ==> (k, r.value) in entries
  {
    if entries == [] then None
    else if entries[0].0 == k then Some(entries[0].1)
    else Lookup(entries[1..], k)
  }

  function KeySet(entries: seq<(Key, Value)>): set<Key> {
    set e | e in entries :: e.0
  }

  function BoolInt(b: bool): int {
    if b then 1 else 0
  }

  /** Python's `x == y` on these values (`True == 1`, dicts compare as
      key sets with equal values, lists only equal lists). */
  function PyEq(x: Value, y: Value): bool
    decreases x
  {
    match (x, y)
    case (VInt(i), VInt(j)) => i == j
    case (VInt(i), VBool(b)) => i == BoolInt(b)
    case (VBool(b), VInt(j)) => BoolInt(b) == j
    case (VBool(b), VBool(c)) => b == c
    case (VStr(s), VStr(t)) => s == t
    case (VNone, VNone) => true
    case (VMissing, VMissing) => true
    case (VList(a), VList(b)) => |a| == |b| && forall i | 0 <= i < |a| :: PyEq(a[i], b[i])
    case (VTuple(a), VTuple(b)) => |a| == |b| && forall i | 0 <= i < |a| :: PyEq(a[i], b[i])
    case (VMap(a), VMap(b)) =>
      && KeySet(a) == KeySet(b)
      && forall i | 0 <= i < |a| :: Lookup(b, a[i].0).Some? && PyEq(a[i].1, Lookup(b, a[i].0).value)
    case _ => false
  }

  function CmpInts(c: Cmp, m: int, n: int): bool {
    match c
    case Gt => m > n
    case Lt => m < n
    case Ge => m >= n
    case Le => m <= n
  }

  /** Index of the first position where two sequences differ, or the
      shorter length when one is a prefix of the other. */
  function FirstDiff<T>(a: seq<T>, b: seq<T>, same: (T, T) -> bool): (i: nat)
    ensures i <= |a| && i <= |b|
    ensures forall j | 0 <= j < i :: same(a[j], b[j])
    ensures i < |a| && i < |b| ==> !same(a[i], b[i])
  {
    if a == [] || b == [] || !same(a[0], b[0]) then 0 else 1 + FirstDiff(a[1..], b[1..], same)
  }

  /** Python's `x > y` (and the other orderings): numbers against numbers,
      strings by code point, lists against lists and tuples against tuples
      lexicographically; any other pairing raises TypeError (None). */
  function PyOrder(c: Cmp, x: Value, y: Value): Option<bool>
    decreases x
  {
    match (x, y)
    case (VInt(i), VInt(j)) => Some(CmpInts(c, i, j))
    case (VInt(i), VBool(b)) => Some(CmpInts(c, i, BoolInt(b)))
    case (VBool(b), VInt(j)) => Some(CmpInts(c, BoolInt(b), j))
    case (VBool(b), VBool(d)) => Some(CmpInts(c, BoolInt(b), BoolInt(d)))
    case (VStr(s), VStr(t)) =>
      var k := FirstDiff(s, t, (p: char, q: char) => p == q);
      if k < |s| && k < |t| then Some(CmpInts(c, s[k] as int, t[k] as int))
      else Some(CmpInts(c, |s|, |t|))
    case (VList(a), VList(b)) => SeqOrder(c, x, a, b)
    case (VTuple(a), VTuple(b)) => SeqOrder(c, x, a, b)
    case _ => None
  }

  function SeqOrder(c: Cmp, ghost parent: Value, a: seq<Value>, b: seq<Value>): Option<bool>
    requires parent.VList? || parent.VTuple?
    requires a == parent.items
    decreases parent, 0
  {
    var k := FirstDiff(a, b, PyEq);
    if k < |a| && k < |b| then PyOrder(c, a[k], b[k]) else Some(CmpInts(c, |a|, |b|))
  }

  function ReprKey(k: Key): (r: string)
    ensures Trimmed(r)
  {
    match k
    case KStr(s) => StrRepr(s)
    case KInt(i) => IntToString(i)
  }

  /** `open + body + close`, the shape of every bracketed `repr`. */
  function Enclose(open: char, body: string, close: char): (r: string)
    requires !IsSpace(open) && !IsSpace(close)
    ensures Trimmed(r)
  {
    [open] + body + [close]
  }

  /** Python's `repr`. */
  function Repr(v: Value): (r: string)
    ensures Trimmed(r)
    decreases v
  {
    match v
    case VInt(i) => IntToString(i)
    case VBool(b) => if b then "True" else "False"
    case VStr(s) => StrRepr(s)
    case VNone => "None"
    case VMissing => "<MISSING>"
    case VList(a) => Enclose('[', Join(ReprAll(v, a), ", "), ']')
    case VTuple(a) =>
      if |a| == 1 then Enclose('(', Repr(a[0]) + ",", ')')
      else Enclose('(', Join(ReprAll(v, a), ", "), ')')
    case VMap(es) => Enclose('{', Join(ReprEntries(v, es), ", "), '}')
  }

  function ReprAll(ghost parent: Value, a: seq<Value>): (r: seq<string>)
    requires (parent.VList? || parent.VTuple?) && a == parent.items
    ensures |r| == |a|
    decreases parent, 0
  {
    seq(|a|, i requires 0 <= i < |a| => Repr(a[i]))
  }

  function ReprEntries(ghost parent: Value, es: seq<(Key, Value)>): (r: seq<string>)
    requires parent.VMap? && es == parent.entries
    ensures |r| == |es|
    decreases parent, 0
  {
    seq(|es|, i requires 0 <= i < |es| => ReprKey(es[i].0) + ": " + Repr(es[i].1))
  }

  /** The position a Python index `i` denotes in a sequence of length `n`
      (negative indices count from the end). */
  function NormIndex(i: int, n: nat): Option<nat> {
    if 0 <= i < n then Some(i) else if i < 0 && 0 <= n + i then Some(n + i) else None
  }

  /** `x[k]`: a dict raises KeyError for an absent key, a sequence
      IndexError for an index out of range, and TypeError for a string key;
      a value that is not subscriptable raises TypeError. */
  function ItemGet(v: Value, k: Key): (r: Outcome<Value>)
    ensures r.Raised? ==> r.exc in {TypeError, KeyError, IndexError}
  {
    match v
    case VMap(es) =>
      (match Lookup(es, k)
       case Some(x) => Done(x)
       case None => Raised(KeyError))
    case VList(items) => SeqItem(items, k)
    case VTuple(items) => SeqItem(items, k)
    case VStr(s) =>
      (match k
       case KStr(_) => Raised(TypeError)
       case KInt(i) =>
         match NormIndex(i, |s|)
         case Some(j) => if j < |s| then Done(VStr([s[j]])) else Raised(IndexError)
         case None => Raised(IndexError))
    case _ => Raised(TypeError)
  }

  function SeqItem(items: seq<Value>, k: Key): Outcome<Value> {
    match k
    case KStr(_) => Raised(TypeError)
    case KInt(i) =>
      match NormIndex(i, |items|)
      case Some(j) => if j < |items| then Done(items[j]) else Raised(IndexError)
      case None => Raised(IndexError)
  }

  /** `_get(obj, key, MISSING)` as the comparison evidently intends it:
      subscription first, and on KeyError, IndexError or TypeError the
      attribute of that name, else MISSING. Attribute lookup is not part
      of this model (see README), so a failed subscription yields MISSING. */
  function Get(obj: Value, k: Key): (r: Value)
    // a dict: the value under a present key, MISSING for an absent one
    ensures obj.VMap? ==>
      r == (if (forall e :: e in obj.entries ==> e.0 != k) then VMissing else Lookup(obj.entries, k).value)
    ensures obj.VMap? && r != VMissing ==> (k, r) in obj.entries
    // a list or tuple: Python indexing from either end, MISSING out of range or for a string key
    ensures (obj.VList? || obj.VTuple?) && k.KInt? && 0 <= k.index < |obj.items| ==>
      r == obj.items[k.index]
    ensures (obj.VList? || obj.VTuple?) && k.KInt? && -|obj.items| <= k.index < 0 ==>
      r == obj.items[|obj.items| + k.index]
    ensures (obj.VList? || obj.VTuple?) && (k.KStr? || k.index < -|obj.items| || |obj.items| <= k.index) ==>
      r == VMissing
    // a string: the one-character string at that index
    ensures obj.VStr? && k.KInt? && 0 <= k.index < |obj.s| ==> r == VStr([obj.s[k.index]])
    ensures obj.VStr? && (k.KStr? || k.index < -|obj.s| || |obj.s| <= k.index) ==> r == VMissing
    // a value that is not subscriptable
    ensures (obj.VInt? || obj.VBool? || obj.VNone? || obj.VMissing?) ==> r == VMissing
  {
    match ItemGet(obj, k)
    case Done(x) => x
    case Raised(_) => VMissing
  }

  /** `_get(obj, key, MISSING)` as written: the fallback is
      `getattr(obj, key, MISSING)`, which itself raises TypeError when the
      key is not a string, whatever the default. */
  function GetAsWritten(obj: Value, k: Key): (r: Outcome<Value>)
    ensures r.Raised? <==> ItemGet(obj, k).Raised? && k.KInt?
  {
    match ItemGet(obj, k)
    case Done(x) => Done(x)
    case Raised(_) => if k.KStr? then Done(VMissing) else Raised(TypeError)
  }

  /** `{i: item for i, item in enumerate(items)}`. */
  function Indexed(items: seq<Value>): (es: seq<(Key, Value)>)
    ensures |es| == |items|
    ensures forall i | 0 <= i < |items| :: es[i] == (KInt(i), items[i])
  {
    seq(|items|, i requires 0 <= i < |items| => (KInt(i), items[i]))
  }

  /** Dict keys are unique, at every level of nesting. */
  predicate WellFormed(v: Value)
    decreases v
  {
    match v
    case VList(a) => forall i | 0 <= i < |a| :: WellFormed(a[i])
    case VTuple(a) => forall i | 0 <= i < |a| :: WellFormed(a[i])
    case VMap(es) =>
      && (forall i, j | 0 <= i < j < |es| :: es[i].0 != es[j].0)
      && (forall i | 0 <= i < |es| :: WellFormed(es[i].1))
    case _ => true
  }
}
