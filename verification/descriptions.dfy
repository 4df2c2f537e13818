/** The error descriptions of two cases of the library's test suite,
    worked out from the formatters: a callback leaf
    (`A.apply(lambda a: len(a)) > 4`) and a chain of subscripts
    (`A["a"]["b"] == 6`). */
module Descriptions {
  import opened Text
  import opened Values
  import opened Results
  import opened Expressions
  import opened Comparison
  import opened Properties
  import opened Scenarios
  import Rendering

  /** `repr([5, 6, 7])` is `[5, 6, 7]`. */
  lemma ListRepr(xs: Value)
    requires xs == VList([VInt(5), VInt(6), VInt(7)])
    ensures Repr(xs) == "[5, 6, 7]"
  {
    ReprDigit(5);
    ReprDigit(6);
    ReprDigit(7);
    var parts := ReprAll(xs, xs.items);
    assert parts == ["5", "6", "7"];
    assert parts[1..] == ["6", "7"];
    assert parts[1..][1..] == ["7"];
  }

  /** `A.apply(f) c w` shows the callback applied to the value, in
      parentheses, then the symbol and `repr(w)`. */
  lemma ApplyOrderedText(name: string, f: Res -> Outcome<Res>, c: Cmp, w: Value, xs: Value)
    ensures Render(Ordered(Deferred(Apply(name, f)), c, Literal(w)), Some(xs)) ==
              "(" + (name + "(" + Repr(xs) + ")") + ")" + " " + CmpSymbol(c) + " " + Repr(w)
  {
    var inner := Apply(name, f);
    var op := Ordered(Deferred(inner), c, Literal(w));
    assert op.args == [Deferred(inner), Literal(w)];
    Rendering.RenderNestedBinary(op, inner, w, Some(xs));
    Rendering.RenderApply(name, f, Some(xs));
  }

  /** `A.apply(lambda a: len(a)) > 4` shown with `[5, 6, 7]` reads
      `(<lambda>([5, 6, 7])) > 4`. */
  lemma LambdaRendering(f: Res -> Outcome<Res>, xs: Value, name: string, four: Value)
    requires name == "<lambda>" && four == VInt(4)
    requires xs == VList([VInt(5), VInt(6), VInt(7)])
    ensures Render(Ordered(Deferred(Apply(name, f)), Gt, Literal(four)), Some(xs)) == "(<lambda>([5, 6, 7])) > 4"
  {
    ApplyOrderedText(name, f, Gt, four, xs);
    ListRepr(xs);
    ReprDigit(4);
    LambdaLiteral(name, Repr(xs), CmpSymbol(Gt), Repr(four));
  }

  lemma LambdaLiteral(name: string, r: string, symbol: string, four: string)
    requires name == "<lambda>" && r == "[5, 6, 7]" && symbol == ">" && four == "4"
    ensures "(" + (name + "(" + r + ")") + ")" + " " + symbol + " " + four == "(<lambda>([5, 6, 7])) > 4"
  {
  }

  /** The callback applied to `[5, 6, 7]` returns 3, which is not above 4. */
  lemma LambdaEvaluates(f: Res -> Outcome<Res>, xs: Value, at: seq<Key>)
    requires xs == VList([VInt(5), VInt(6), VInt(7)]) && f(RVal(xs)) == Done(RVal(VInt(3)))
    ensures Evaluate(Ordered(Deferred(Apply("<lambda>", f)), Gt, Literal(VInt(4))), xs, at) == Done(RVal(VBool(false)))
  {
    ApplyEvaluates("<lambda>", f, xs, []);
    NestedOrderedEvaluates(Apply("<lambda>", f), Gt, VInt(4), xs, VInt(3), at);
  }

  /** The callback leaf fails and reports its description. */
  lemma LambdaEntry(f: Res -> Outcome<Res>, xs: Value, at: seq<Key>)
    requires xs == VList([VInt(5), VInt(6), VInt(7)]) && f(RVal(xs)) == Done(RVal(VInt(3)))
    ensures EntryErrors(SOp(Ordered(Deferred(Apply("<lambda>", f)), Gt, Literal(VInt(4)))), xs, at) ==
              Done([ErrorTuple(at, xs, "(<lambda>([5, 6, 7])) > 4")])
  {
    var op := Ordered(Deferred(Apply("<lambda>", f)), Gt, Literal(VInt(4)));
    LambdaEvaluates(f, xs, at);
    LeafOfOp(op, xs, at, RVal(VBool(false)));
    LambdaRendering(f, xs, "<lambda>", VInt(4));
  }

  /** `is_alike({"test": [5, 6, 7]}, {"test": A.apply(lambda a: len(a)) > 4})`
      reports `(["test"], [5, 6, 7], "(<lambda>([5, 6, 7])) > 4")`. */
  lemma LambdaLeafFails(f: Res -> Outcome<Res>, xs: Value)
    requires xs == VList([VInt(5), VInt(6), VInt(7)]) && f(RVal(xs)) == Done(RVal(VInt(3)))
    ensures IsAlike(VMap([(KStr("test"), xs)]), SMap([(KStr("test"), SOp(Ordered(Deferred(Apply("<lambda>", f)), Gt, Literal(VInt(4)))))])) ==
              Done(IsLike([ErrorTuple([KStr("test")], xs, "(<lambda>([5, 6, 7])) > 4")]))
  {
    var op := Ordered(Deferred(Apply("<lambda>", f)), Gt, Literal(VInt(4)));
    OneEntryAt(KStr("test"), SOp(op), xs);
    LambdaEntry(f, xs, [KStr("test")]);
  }

  /** `repr` of a one-entry dict. */
  lemma OneEntryRepr(k: Key, v: Value)
    ensures Repr(VMap([(k, v)])) == "{" + (ReprKey(k) + ": " + Repr(v)) + "}"
  {
    var d := VMap([(k, v)]);
    OneEntryTexts(d, k, v);
    assert Repr(d) == Enclose('{', Join(ReprEntries(d, d.entries), ", "), '}');
  }

  lemma OneEntryTexts(d: Value, k: Key, v: Value)
    requires d == VMap([(k, v)])
    ensures Join(ReprEntries(d, d.entries), ", ") == ReprKey(k) + ": " + Repr(v)
  {
    var es := ReprEntries(d, d.entries);
    assert |es| == 1 && es[0] == ReprKey(k) + ": " + Repr(v);
  }

  /** `repr({'a': {'b': 5}})` is `{'a': {'b': 5}}`. */
  lemma NestedDictRepr(d: Value)
    requires d == VMap([(KStr("a"), VMap([(KStr("b"), VInt(5))]))])
    ensures Repr(d) == "{'a': {'b': 5}}"
  {
    var e := VMap([(KStr("b"), VInt(5))]);
    OneEntryRepr(KStr("b"), VInt(5));
    OneEntryRepr(KStr("a"), e);
    KeyReprs();
    ReprDigit(5);
    NestedDictLiteral(ReprKey(KStr("a")), ReprKey(KStr("b")), Repr(VInt(5)));
  }

  lemma NestedDictLiteral(a: string, b: string, five: string)
    requires a == "'a'" && b == "'b'" && five == "5"
    ensures "{" + (a + ": " + ("{" + (b + ": " + five) + "}")) + "}" == "{'a': {'b': 5}}"
  {
  }

  /** `A[k1][k2]` shows the subject's `repr` followed by both keys in
      brackets. */
  lemma ItemChainInner(d: Value, k1: Key, k2: Key)
    requires !IsParen(Repr(d)[0]) && !IsParen(Repr(d)[|Repr(d)| - 1])
    ensures Render(Item(Deferred(Item(A, k1)), k2), Some(d)) == Repr(d) + "[" + ReprKey(k1) + "]" + "[" + ReprKey(k2) + "]"
  {
    var inner := Item(A, k1);
    var t := Repr(d) + "[" + ReprKey(k1) + "]";
    Rendering.RenderPlaceholderItem(k1, d);
    BracketEnds(Repr(d), ReprKey(k1));
    Rendering.RenderNestedItem(inner, k2, Some(d));
  }

  lemma BracketEnds(r: string, k: string)
    requires r != [] && !IsParen(r[0])
    ensures var t := r + "[" + k + "]"; t != [] && !IsParen(t[0]) && !IsParen(t[|t| - 1])
  {
    var t := r + "[" + k + "]";
    assert t[0] == r[0];
    assert t[|t| - 1] == ']';
  }

  /** `A[k1][k2] == w` shows that text in parentheses, then `== repr(w)`. */
  lemma ItemChainText(d: Value, k1: Key, k2: Key, w: Value)
    requires !IsParen(Repr(d)[0]) && !IsParen(Repr(d)[|Repr(d)| - 1])
    ensures Render(Equals(Deferred(Item(Deferred(Item(A, k1)), k2)), Literal(w)), Some(d)) ==
              "(" + (Repr(d) + "[" + ReprKey(k1) + "]" + "[" + ReprKey(k2) + "]") + ")" + " " + "==" + " " + Repr(w)
  {
    var outer := Item(Deferred(Item(A, k1)), k2);
    var op := Equals(Deferred(outer), Literal(w));
    assert op.args == [Deferred(outer), Literal(w)];
    ItemChainInner(d, k1, k2);
    Rendering.RenderNestedBinary(op, outer, w, Some(d));
  }

  /** `A["a"]["b"] == 6` shown with `{'a': {'b': 5}}` reads
      `({'a': {'b': 5}}['a']['b']) == 6`. */
  lemma ItemChainRendering(d: Value, ka: Key, kb: Key, six: Value)
    requires ka == KStr("a") && kb == KStr("b") && six == VInt(6)
    requires Repr(d) == "{'a': {'b': 5}}"
    ensures Render(Equals(Deferred(Item(Deferred(Item(A, ka)), kb)), Literal(six)), Some(d)) ==
              "({'a': {'b': 5}}['a']['b']) == 6"
  {
    var r, a, b, w := Repr(d), ReprKey(ka), ReprKey(kb), Repr(six);
    assert a == "'a'" && b == "'b'" by { KeyReprs(); }
    assert w == "6" by { ReprDigit(6); }
    assert !IsParen(r[0]) && !IsParen(r[|r| - 1]);
    ItemChainText(d, ka, kb, six);
    ItemChainLiteral(r, a, b, w);
  }

  lemma ItemChainLiteral(r: string, a: string, b: string, six: string)
    requires r == "{'a': {'b': 5}}" && a == "'a'" && b == "'b'" && six == "6"
    ensures "(" + (r + "[" + a + "]" + "[" + b + "]") + ")" + " " + "==" + " " + six == "({'a': {'b': 5}}['a']['b']) == 6"
  {
  }

  lemma KeyReprs()
    ensures ReprKey(KStr("a")) == "'a'" && ReprKey(KStr("b")) == "'b'"
  {
    StrReprPlain("a");
    StrReprPlain("b");
  }

  /** Subscripting `{'a': {'b': 5}}` with `a` and then `b` gives 5, which does not equal 6. */
  lemma ItemChainEvaluates(d: Value, at: seq<Key>)
    requires d == VMap([(KStr("a"), VMap([(KStr("b"), VInt(5))]))])
    ensures Evaluate(Equals(Deferred(Item(Deferred(Item(A, KStr("a"))), KStr("b"))), Literal(VInt(6))), d, at) ==
              Done(RVal(VBool(false)))
  {
    var e := VMap([(KStr("b"), VInt(5))]);
    var inner := Item(A, KStr("a"));
    var outer := Item(Deferred(inner), KStr("b"));
    assert Lookup(d.entries, KStr("a")) == Some(e);
    ItemEvaluates(A, KStr("a"), d, d, e, []);
    assert Lookup(e.entries, KStr("b")) == Some(VInt(5));
    ItemEvaluates(Deferred(inner), KStr("b"), d, e, VInt(5), []);
    NestedEqualsEvaluates(outer, VInt(6), d, VInt(5), at);
  }

  /** The subscript leaf fails and reports its description. */
  lemma ItemChainEntry(d: Value, at: seq<Key>)
    requires d == VMap([(KStr("a"), VMap([(KStr("b"), VInt(5))]))])
    ensures EntryErrors(SOp(Equals(Deferred(Item(Deferred(Item(A, KStr("a"))), KStr("b"))), Literal(VInt(6)))), d, at) ==
              Done([ErrorTuple(at, d, "({'a': {'b': 5}}['a']['b']) == 6")])
  {
    var op := Equals(Deferred(Item(Deferred(Item(A, KStr("a"))), KStr("b"))), Literal(VInt(6)));
    ItemChainEvaluates(d, at);
    LeafOfOp(op, d, at, RVal(VBool(false)));
    NestedDictRepr(d);
    ItemChainRendering(d, KStr("a"), KStr("b"), VInt(6));
  }

  /** `is_alike({"test": {"a": {"b": 5}}}, {"test": A["a"]["b"] == 6})` reports
      `(["test"], {"a": {"b": 5}}, "({'a': {'b': 5}}['a']['b']) == 6")`. */
  lemma ItemChainLeafFails(d: Value)
    requires d == VMap([(KStr("a"), VMap([(KStr("b"), VInt(5))]))])
    ensures IsAlike(VMap([(KStr("test"), d)]), SMap([(KStr("test"), SOp(Equals(Deferred(Item(Deferred(Item(A, KStr("a"))), KStr("b"))), Literal(VInt(6)))))])) ==
              Done(IsLike([ErrorTuple([KStr("test")], d, "({'a': {'b': 5}}['a']['b']) == 6")]))
  {
    var op := Equals(Deferred(Item(Deferred(Item(A, KStr("a"))), KStr("b"))), Literal(VInt(6)));
    OneEntryAt(KStr("test"), SOp(op), d);
    ItemChainEntry(d, [KStr("test")]);
  }

}
