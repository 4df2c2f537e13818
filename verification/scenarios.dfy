/** End-to-end comparisons taken from the library's documented examples,
    each with the exact errors the model reports. */
module Scenarios {
  import opened Text
  import opened Values
  import opened Results
  import opened Expressions
  import opened Comparison
  import opened Properties
  import Walk
  import Paths

  /** A one-entry dict schema reports exactly what its entry reports. */
  lemma OneEntry(k: Key, expected: Schema, obj: Value, p: seq<Key>)
    ensures Compare(SMap([(k, expected)]), obj, p) == EntryErrors(expected, Get(obj, k), p + [k])
  {
    var schema := SMap([(k, expected)]);
    assert Entries(schema, obj, p, 1) == Done([]);
    var here := EntryErrors(expected, Get(obj, k), p + [k]);
    if here.Done? {
      assert here.value + [] == here.value;
    }
  }

  /** A one-entry dict schema against a one-entry dict with the same key
      reports what the entry reports under that key. */
  lemma OneEntryAt(k: Key, expected: Schema, v: Value)
    ensures Compare(SMap([(k, expected)]), VMap([(k, v)]), []) == EntryErrors(expected, v, [k])
  {
    GetOnly(k, v);
    OneEntry(k, expected, VMap([(k, v)]), []);
    assert [] + [k] == [k];
  }

  /** `_get` on a one-entry dict finds the entry under its key. */
  lemma GetOnly(k: Key, v: Value)
    ensures Get(VMap([(k, v)]), k) == v
  {
    assert Lookup([(k, v)], k) == Some(v);
  }

  /** A one-digit number is shown as that digit. */
  lemma ReprDigit(n: nat)
    requires n < 10
    ensures Repr(VInt(n)) == [DigitChar(n)]
  {
    assert NatToString(n) == [DigitChar(n)];
  }

  /** `is_alike({"test": 1}, {"test": 1})` holds. */
  lemma SameDictPasses()
    ensures IsAlike(VMap([(KStr("test"), VInt(1))]), SMap([(KStr("test"), SLit(VInt(1)))])) == Done(IsLike([]))
  {
    var actual := VMap([(KStr("test"), VInt(1))]);
    assert Get(actual, KStr("test")) == VInt(1);
    OneEntry(KStr("test"), SLit(VInt(1)), actual, []);
  }

  /** `is_alike({"test": 1}, {"test": 2})` reports one error at `["test"]` on the
      value 1, described as `1 == 2`. */
  lemma DifferentValueReported()
    ensures IsAlike(VMap([(KStr("test"), VInt(1))]), SMap([(KStr("test"), SLit(VInt(2)))])) ==
              Done(IsLike([ErrorTuple([KStr("test")], VInt(1), "1 == 2")]))
  {
    var actual := VMap([(KStr("test"), VInt(1))]);
    var op := EqLeaf(VInt(2));
    var at := [KStr("test")];
    assert Get(actual, KStr("test")) == VInt(1);
    OneEntry(KStr("test"), SLit(VInt(2)), actual, []);
    assert [] + [KStr("test")] == at;
    assert !PyEq(VInt(1), VInt(2));
    assert EntryErrors(SLit(VInt(2)), VInt(1), at) == Done(LeafErrors(op, RVal(VBool(false)), VInt(1), at));
    assert LeafErrors(op, RVal(VBool(false)), VInt(1), at) == [ErrorTuple(at, VInt(1), Render(op, Some(VInt(1))))];
    OneTwo(VInt(1), VInt(2));
  }

  /** The keys of a dict schema are looked up, not matched by position,
      and `True == 1`: `{"a": 2, "b": True}` is alike `{"b": 1, "a": 2}`. */
  lemma ReorderedKeysPass(schema: Schema, actual: Value)
    requires schema == SMap([(KStr("b"), SLit(VInt(1))), (KStr("a"), SLit(VInt(2)))])
    requires actual == VMap([(KStr("a"), VInt(2)), (KStr("b"), VBool(true))])
    ensures Compare(schema, actual, []) == Done([])
  {
    LiteralDictCompare(schema.entries, actual, []);
    ReorderedLookups(actual);
    assert PyEq(Get(actual, schema.entries[0].0), schema.entries[0].1.v);
    assert PyEq(Get(actual, schema.entries[1].0), schema.entries[1].1.v);
  }

  lemma ReorderedLookups(actual: Value)
    requires actual == VMap([(KStr("a"), VInt(2)), (KStr("b"), VBool(true))])
    ensures Get(actual, KStr("b")) == VBool(true)
    ensures Get(actual, KStr("a")) == VInt(2)
  {
    assert Lookup(actual.entries, KStr("b")) == Some(VBool(true));
    assert Lookup(actual.entries, KStr("a")) == Some(VInt(2));
  }

  lemma OneTwo(x: Value, y: Value)
    requires x == VInt(1) && y == VInt(2)
    ensures Render(EqLeaf(y), Some(x)) == "1 == 2"
  {
    EqLeafRendering(y, x);
    OneTwoText(x, y);
  }

  lemma OneTwoText(x: Value, y: Value)
    requires x == VInt(1) && y == VInt(2)
    ensures Repr(x) + " == " + Repr(y) == "1 == 2"
  {
    ReprDigit(1);
    ReprDigit(2);
    assert DigitChar(1) == '1' && DigitChar(2) == '2';
  }

  /** `x c y` with one-digit numbers, as text. */
  lemma DigitsText(m: nat, symbol: string, n: nat)
    requires m < 10 && n < 10
    ensures Repr(VInt(m)) + " " + symbol + " " + Repr(VInt(n)) == [DigitChar(m)] + " " + symbol + " " + [DigitChar(n)]
  {
    ReprDigit(m);
    ReprDigit(n);
  }

  /** A one-digit comparison leaf that fails, with its message. */
  lemma DigitLeafFails(c: Cmp, m: nat, n: nat, at: seq<Key>)
    requires m < 10 && n < 10
    requires PyOrder(c, VInt(m), VInt(n)) == Some(false)
    ensures EntryErrors(SOp(Ordered(A, c, Literal(VInt(n)))), VInt(m), at) ==
              Done([ErrorTuple(at, VInt(m), [DigitChar(m)] + " " + CmpSymbol(c) + " " + [DigitChar(n)])])
  {
    OrderedLeaf(c, VInt(n), VInt(m), at);
    DigitsText(m, CmpSymbol(c), n);
  }

  /** `is_alike({"test": 10}, {"test": A > 15})` reports one error at
      `["test"]` on the value 10, described as `10 > 15`. */
  lemma GreaterThanReported(ten: Value, fifteen: Value)
    requires ten == VInt(10) && fifteen == VInt(15)
    ensures IsAlike(VMap([(KStr("test"), ten)]), SMap([(KStr("test"), SOp(Ordered(A, Gt, Literal(fifteen))))])) ==
              Done(IsLike([ErrorTuple([KStr("test")], ten, "10 > 15")]))
  {
    var at := [KStr("test")];
    var expected := SOp(Ordered(A, Gt, Literal(fifteen)));
    OneEntryAt(KStr("test"), expected, ten);
    OrderedLeaf(Gt, fifteen, ten, at);
    TwoDigitsText(ten, fifteen);
  }

  /** `repr(10) + " > " + repr(15)` is `10 > 15`. */
  lemma TwoDigitsText(ten: Value, fifteen: Value)
    requires ten == VInt(10) && fifteen == VInt(15)
    ensures Repr(ten) + " " + CmpSymbol(Gt) + " " + Repr(fifteen) == "10 > 15"
  {
    NatToStringAppend(1, 0);
    NatToStringAppend(1, 5);
    assert NatToString(1) == [DigitChar(1)];
    assert Repr(ten) == "10";
    assert Repr(fifteen) == "15";
  }

  /** `is_alike([5, 6, 7], [5, A < 6, A > 7])` reports `6 < 6` at index 1
      and `7 > 7` at index 2, in that order. */
  lemma ListScenario(items: seq<Value>, schema: Schema)
    requires items == [VInt(5), VInt(6), VInt(7)]
    requires schema == SList([SLit(VInt(5)), SOp(Ordered(A, Lt, Literal(VInt(6)))), SOp(Ordered(A, Gt, Literal(VInt(7))))])
    ensures IsAlike(VList(items), schema) ==
              Done(IsLike([ErrorTuple([KInt(1)], VInt(6), "6 < 6"), ErrorTuple([KInt(2)], VInt(7), "7 > 7")]))
  {
    var target := VMap(Indexed(items));
    SixLtSix();
    SevenGtSeven();
    var e1 := ErrorTuple([KInt(1)], VInt(6), "6 < 6");
    var e2 := ErrorTuple([KInt(2)], VInt(7), "7 > 7");
    ListEntries(items, schema, target, e1, e2);
  }

  lemma ListEntries(items: seq<Value>, schema: Schema, target: Value, e1: ErrorTuple, e2: ErrorTuple)
    requires items == [VInt(5), VInt(6), VInt(7)] && target == VMap(Indexed(items))
    requires schema == SList([SLit(VInt(5)), SOp(Ordered(A, Lt, Literal(VInt(6)))), SOp(Ordered(A, Gt, Literal(VInt(7))))])
    requires e1 == ErrorTuple([KInt(1)], VInt(6), [DigitChar(6)] + " " + "<" + " " + [DigitChar(6)])
    requires e2 == ErrorTuple([KInt(2)], VInt(7), [DigitChar(7)] + " " + ">" + " " + [DigitChar(7)])
    ensures Entries(schema, target, [], 0) == Done([e1, e2])
  {
    ListEntry0(items, schema, target);
    ListEntry1(items, schema, target, e1);
    ListEntry2(items, schema, target, e2);
    ThreeEntries(schema, target, [], e1, e2);
  }

  /** A three-entry walk whose first entry passes and whose other two
      report one error each. */
  lemma ThreeEntries(schema: Schema, target: Value, p: seq<Key>, e1: ErrorTuple, e2: ErrorTuple)
    requires schema.SList? && |schema.items| == 3
    requires EntryErrors(ExpectedAt(schema, 0), Get(target, KInt(0)), p + [KInt(0)]) == Done([])
    requires EntryErrors(ExpectedAt(schema, 1), Get(target, KInt(1)), p + [KInt(1)]) == Done([e1])
    requires EntryErrors(ExpectedAt(schema, 2), Get(target, KInt(2)), p + [KInt(2)]) == Done([e2])
    ensures Entries(schema, target, p, 0) == Done([e1, e2])
  {
    Walk.EntriesStep(schema, target, p, 0);
    Walk.EntriesStep(schema, target, p, 1);
    Walk.EntriesStep(schema, target, p, 2);
    assert Entries(schema, target, p, 3) == Done([]);
    assert [e2] + [] == [e2];
    assert [e1] + [e2] == [e1, e2];
    assert [] + [e1, e2] == [e1, e2];
  }

  lemma ListEntry0(items: seq<Value>, schema: Schema, target: Value)
    requires items == [VInt(5), VInt(6), VInt(7)] && target == VMap(Indexed(items))
    requires schema.SList? && |schema.items| == 3 && schema.items[0] == SLit(VInt(5))
    ensures EntryErrors(ExpectedAt(schema, 0), Get(target, KInt(0)), [] + [KInt(0)]) == Done([])
  {
    LookupUnique(Indexed(items), 0);
  }

  /** Position `k` of a list holding the one-digit number `m`, checked
      against `A c n` that does not hold, reports one error at `[k]`. */
  lemma IndexedLeafFails(items: seq<Value>, target: Value, schema: Schema, k: nat, c: Cmp, m: nat, n: nat)
    requires target == VMap(Indexed(items)) && k < |items| && items[k] == VInt(m)
    requires m < 10 && n < 10 && PyOrder(c, VInt(m), VInt(n)) == Some(false)
    requires schema.SList? && k < |schema.items| && schema.items[k] == SOp(Ordered(A, c, Literal(VInt(n))))
    ensures EntryErrors(ExpectedAt(schema, k), Get(target, KInt(k)), [] + [KInt(k)]) ==
              Done([ErrorTuple([KInt(k)], VInt(m), [DigitChar(m)] + " " + CmpSymbol(c) + " " + [DigitChar(n)])])
  {
    LookupUnique(Indexed(items), k);
    assert Get(target, KInt(k)) == VInt(m);
    assert [] + [KInt(k)] == [KInt(k)];
    DigitLeafFails(c, m, n, [KInt(k)]);
  }

  lemma ListEntry1(items: seq<Value>, schema: Schema, target: Value, e1: ErrorTuple)
    requires items == [VInt(5), VInt(6), VInt(7)] && target == VMap(Indexed(items))
    requires schema.SList? && |schema.items| == 3 && schema.items[1] == SOp(Ordered(A, Lt, Literal(VInt(6))))
    requires e1 == ErrorTuple([KInt(1)], VInt(6), [DigitChar(6)] + " " + "<" + " " + [DigitChar(6)])
    ensures EntryErrors(ExpectedAt(schema, 1), Get(target, KInt(1)), [] + [KInt(1)]) == Done([e1])
  {
    assert PyOrder(Lt, VInt(6), VInt(6)) == Some(false);
    IndexedLeafFails(items, target, schema, 1, Lt, 6, 6);
  }

  lemma ListEntry2(items: seq<Value>, schema: Schema, target: Value, e2: ErrorTuple)
    requires items == [VInt(5), VInt(6), VInt(7)] && target == VMap(Indexed(items))
    requires schema.SList? && |schema.items| == 3 && schema.items[2] == SOp(Ordered(A, Gt, Literal(VInt(7))))
    requires e2 == ErrorTuple([KInt(2)], VInt(7), [DigitChar(7)] + " " + ">" + " " + [DigitChar(7)])
    ensures EntryErrors(ExpectedAt(schema, 2), Get(target, KInt(2)), [] + [KInt(2)]) == Done([e2])
  {
    assert PyOrder(Gt, VInt(7), VInt(7)) == Some(false);
    IndexedLeafFails(items, target, schema, 2, Gt, 7, 7);
  }

  lemma SixLtSix()
    ensures [DigitChar(6)] + " " + "<" + " " + [DigitChar(6)] == "6 < 6"
  {
    assert DigitChar(6) == '6';
  }

  lemma SevenGtSeven()
    ensures [DigitChar(7)] + " " + ">" + " " + [DigitChar(7)] == "7 > 7"
  {
    assert DigitChar(7) == '7';
  }

  /** `is_alike(6, [5, A < 6, A > 7])` reports one error at the top: the
      number is not a sequence. */
  lemma NotASequenceScenario()
    ensures IsAlike(VInt(6), SList([SLit(VInt(5)), SOp(Ordered(A, Lt, Literal(VInt(6)))), SOp(Ordered(A, Gt, Literal(VInt(7))))])) ==
              Done(IsLike([ErrorTuple([], VInt(6), "Compared object is not a sequence")]))
  {
  }

  // The message of `assert_alike({"one": 1, "two": 2}, {"one": 2, "two": "two"})`.

  /** Printable ASCII other than the backslash and the quote `q`. */
  predicate Plain(s: string, q: char) {
    forall i | 0 <= i < |s| :: ' ' <= s[i] <= '~' && s[i] != '\\' && s[i] != q
  }

  lemma {:induction false} EscapeAllPlain(s: string, q: char)
    requires Plain(s, q)
    ensures EscapeAll(s, q) == s
  {
    if s != [] {
      assert Plain(s[1..], q);
      EscapeAllPlain(s[1..], q);
      assert [s[0]] + s[1..] == s;
    }
  }

  /** `repr` of a plain text is the text in single quotes. */
  lemma StrReprPlain(s: string)
    requires Plain(s, '\'')
    ensures StrRepr(s) == "'" + s + "'"
  {
    assert '\'' !in s;
    EscapeAllPlain(s, '\'');
  }

  /** A literal leaf that does not equal the actual value reports one error,
      described as `actual == expected`. */
  lemma LiteralLeafFails(y: ScalarValue, actual: Value, at: seq<Key>)
    requires !PyEq(actual, y)
    ensures EntryErrors(SLit(y), actual, at) == Done([ErrorTuple(at, actual, Repr(actual) + " == " + Repr(y))])
  {
    var op := EqLeaf(y);
    assert EntryErrors(SLit(y), actual, at) == Done(LeafErrors(op, RVal(VBool(false)), actual, at));
    assert LeafErrors(op, RVal(VBool(false)), actual, at) == [ErrorTuple(at, actual, Render(op, Some(actual)))];
    EqLeafRendering(y, actual);
  }

  /** A two-entry dict walk: the errors of the first entry, then those of
      the second. */
  lemma TwoEntries(schema: Schema, target: Value, p: seq<Key>, e1: ErrorTuple, e2: ErrorTuple)
    requires schema.SMap? && |schema.entries| == 2
    requires EntryErrors(schema.entries[0].1, Get(target, schema.entries[0].0), p + [schema.entries[0].0]) == Done([e1])
    requires EntryErrors(schema.entries[1].1, Get(target, schema.entries[1].0), p + [schema.entries[1].0]) == Done([e2])
    ensures Entries(schema, target, p, 0) == Done([e1, e2])
  {
    Walk.EntriesStep(schema, target, p, 0);
    Walk.EntriesStep(schema, target, p, 1);
    assert Entries(schema, target, p, 2) == Done([]);
    assert [e2] + [] == [e2];
    assert [e1] + [e2] == [e1, e2];
  }

  lemma OneTextTwo(x: Value, y: Value)
    requires x == VInt(2) && y == VStr("two")
    ensures Repr(x) + " == " + Repr(y) == "2 == 'two'"
  {
    ReprDigit(2);
    assert [DigitChar(2)] == "2";
    StrReprPlain("two");
    TwoText(Repr(x), Repr(y));
  }

  lemma TwoText(l: string, r: string)
    requires l == "2" && r == "'two'"
    ensures l + " == " + r == "2 == 'two'"
  {
  }

  /** The comparison behind the message: two errors, `"one"`'s first. */
  lemma TwoKeysErrors(actual: Value, schema: Schema, one: Key, two: Key)
    requires one == KStr("one") && two == KStr("two")
    requires actual == VMap([(one, VInt(1)), (two, VInt(2))])
    requires schema == SMap([(one, SLit(VInt(2))), (two, SLit(VStr("two")))])
    ensures IsAlike(actual, schema) ==
              Done(IsLike([ErrorTuple([one], VInt(1), "1 == 2"), ErrorTuple([two], VInt(2), "2 == 'two'")]))
  {
    KeyOneFails(actual, one, two);
    KeyTwoFails(actual, one, two);
    TwoEntries(schema, actual, [], ErrorTuple([one], VInt(1), "1 == 2"), ErrorTuple([two], VInt(2), "2 == 'two'"));
  }

  lemma KeyOneFails(actual: Value, one: Key, two: Key)
    requires one == KStr("one") && two == KStr("two")
    requires actual == VMap([(one, VInt(1)), (two, VInt(2))])
    ensures EntryErrors(SLit(VInt(2)), Get(actual, one), [] + [one]) == Done([ErrorTuple([one], VInt(1), "1 == 2")])
  {
    assert Get(actual, one) == VInt(1);
    assert [] + [one] == [one];
    LiteralLeafFails(VInt(2), VInt(1), [one]);
    OneTwoText(VInt(1), VInt(2));
  }

  lemma KeyTwoFails(actual: Value, one: Key, two: Key)
    requires one == KStr("one") && two == KStr("two")
    requires actual == VMap([(one, VInt(1)), (two, VInt(2))])
    ensures EntryErrors(SLit(VStr("two")), Get(actual, two), [] + [two]) == Done([ErrorTuple([two], VInt(2), "2 == 'two'")])
  {
    assert Get(actual, two) == VInt(2);
    assert [] + [two] == [two];
    LiteralLeafFails(VStr("two"), VInt(2), [two]);
    OneTextTwo(VInt(2), VStr("two"));
  }

  /** The line of an error one key deep. */
  lemma ErrorLineOneKey(e: ErrorTuple)
    requires |e.path| == 1
    ensures ErrorLine(e) == "  " + ReprKey(e.path[0]) + " failed validation: " + Repr(e.value) + " causes error: " + e.description
  {
    var parts := seq(|e.path|, i requires 0 <= i < |e.path| => ReprKey(e.path[i]));
    assert parts == [ReprKey(e.path[0])];
  }

  lemma LineOneText(key: string, value: string, description: string)
    requires key == "'one'" && value == "1" && description == "1 == 2"
    ensures "  " + key + " failed validation: " + value + " causes error: " + description
              == "  'one' failed validation: 1 causes error: 1 == 2"
  {
    LineOneStart(key, value);
  }

  lemma LineOneStart(key: string, value: string)
    requires key == "'one'" && value == "1"
    ensures "  " + key + " failed validation: " + value + " causes error: " == "  'one' failed validation: 1 causes error: "
  {
    assert "  " + key + " failed validation: " == "  'one' failed validation: ";
    assert "  'one' failed validation: " + value == "  'one' failed validation: 1";
  }

  lemma LineTwoText(key: string, value: string, description: string)
    requires key == "'two'" && value == "2" && description == "2 == 'two'"
    ensures "  " + key + " failed validation: " + value + " causes error: " + description
              == "  'two' failed validation: 2 causes error: 2 == 'two'"
  {
    LineTwoStart(key, value);
  }

  lemma LineTwoStart(key: string, value: string)
    requires key == "'two'" && value == "2"
    ensures "  " + key + " failed validation: " + value + " causes error: " == "  'two' failed validation: 2 causes error: "
  {
    assert "  " + key + " failed validation: " == "  'two' failed validation: ";
    assert "  'two' failed validation: " + value == "  'two' failed validation: 2";
  }

  lemma LineOne(e: ErrorTuple)
    requires e == ErrorTuple([KStr("one")], VInt(1), "1 == 2")
    ensures ErrorLine(e) == "  'one' failed validation: 1 causes error: 1 == 2"
  {
    ErrorLineOneKey(e);
    ReprOne(e.path[0]);
    ReprDigit(1);
    assert [DigitChar(1)] == "1";
    LineOneText(ReprKey(e.path[0]), Repr(e.value), e.description);
  }

  lemma LineTwo(e: ErrorTuple)
    requires e == ErrorTuple([KStr("two")], VInt(2), "2 == 'two'")
    ensures ErrorLine(e) == "  'two' failed validation: 2 causes error: 2 == 'two'"
  {
    ErrorLineOneKey(e);
    ReprTwo(e.path[0]);
    ReprDigit(2);
    assert [DigitChar(2)] == "2";
    LineTwoText(ReprKey(e.path[0]), Repr(e.value), e.description);
  }

  lemma ReprOne(k: Key)
    requires k == KStr("one")
    ensures ReprKey(k) == "'one'"
  {
    StrReprPlain("one");
  }

  lemma ReprTwo(k: Key)
    requires k == KStr("two")
    ensures ReprKey(k) == "'two'"
  {
    StrReprPlain("two");
  }

  /** A comparison with two errors fails `assert_alike` with the header
      and the two lines. */
  lemma AssertAlikeTwo(actual: Value, schema: Schema, e1: ErrorTuple, e2: ErrorTuple)
    requires IsAlike(actual, schema) == Done(IsLike([e1, e2]))
    ensures AssertAlike(actual, schema).Failed?
    ensures AssertAlike(actual, schema).error.errors == [e1, e2]
    ensures AssertAlike(actual, schema).error.message == Header + ErrorLine(e1) + "\n" + ErrorLine(e2)
  {
    ErrorsTextOne(e1);
    ErrorsTextAppend([e1], e2);
    assert [e1] + [e2] == [e1, e2];
    assert "" + ErrorsToStr([e1, e2]) == ErrorsToStr([e1, e2]);
  }

  /** `assert_alike({"one": 1, "two": 2}, {"one": 2, "two": "two"})` raises
      `UnlikeError` carrying both errors, with the message
      `Values not alike:\n  'one' failed validation: 1 causes error: 1 == 2\n  'two' failed validation: 2 causes error: 2 == 'two'`. */
  lemma AssertAlikeMessage(actual: Value, schema: Schema)
    requires actual == VMap([(KStr("one"), VInt(1)), (KStr("two"), VInt(2))])
    requires schema == SMap([(KStr("one"), SLit(VInt(2))), (KStr("two"), SLit(VStr("two")))])
    ensures AssertAlike(actual, schema).Failed?
    ensures |AssertAlike(actual, schema).error.errors| == 2
    ensures AssertAlike(actual, schema).error.message ==
              "Values not alike:\n"
              + "  'one' failed validation: 1 causes error: 1 == 2" + "\n"
              + "  'two' failed validation: 2 causes error: 2 == 'two'"
  {
    var e1 := ErrorTuple([KStr("one")], VInt(1), "1 == 2");
    var e2 := ErrorTuple([KStr("two")], VInt(2), "2 == 'two'");
    TwoKeysErrors(actual, schema, KStr("one"), KStr("two"));
    AssertAlikeTwo(actual, schema, e1, e2);
    LineOne(e1);
    LineTwo(e2);
  }

  // The path of `A["l1"].get("l2")`, the receiver of a nested `is_alike`.

  lemma L2Repr(v: Value)
    requires v == VStr("l2")
    ensures Repr(v) == "'l2'"
  {
    assert Plain("l2", '\'');
    StrReprPlain("l2");
  }

  /** `_format_args("l2")` is `('l2')`. */
  lemma L2Args(v: Value)
    requires v == VStr("l2")
    ensures FormatArgs([v], []) == "('l2')"
  {
    L2Repr(v);
    assert PositionalTexts([v]) == ["'l2'"];
    assert ArgsText([v], []) == "'l2'";
  }

  lemma GetPath(get: Op)
    requires get == Attr(Deferred(Item(A, KStr("l1"))), "get")
    ensures PathOf(Deferred(get)) == [KStr("l1"), KStr("get")]
  {
  }

  /** A call with the argument `"l2"` on a node filed under
      `["l1", "get"]` is filed under `["l1", "get('l2')"]`. */
  lemma CallOnGet(x: Receiver, v: Value)
    requires PathOf(x) == [KStr("l1"), KStr("get")] && v == VStr("l2")
    ensures Call(x, [v], []).Done?
    ensures Call(x, [v], []).value.path == [KStr("l1"), KStr("get('l2')")]
  {
    L2Args(v);
    Paths.CallPath(x, [v], []);
    assert "get" + "('l2')" == "get('l2')";
  }

  /** `A["l1"].get("l2")` files nested errors under `["l1", "get('l2')"]`:
      the call extends the attribute's segment instead of adding one. */
  lemma ChainedCallPath(get: Op, v: Value)
    requires get == Attr(Deferred(Item(A, KStr("l1"))), "get") && v == VStr("l2")
    ensures Call(Deferred(get), [v], []).Done?
    ensures Call(Deferred(get), [v], []).value.path == [KStr("l1"), KStr("get('l2')")]
  {
    GetPath(get);
    CallOnGet(Deferred(get), v);
  }
}
