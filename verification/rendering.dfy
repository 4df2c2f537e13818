/** How the custom formatters of `Op._to_str` lay out a node, and what
    `_format_args` produces for positional and keyword arguments. */
module Rendering {
  import opened Text
  import opened Values
  import opened Results
  import opened Expressions
  import Properties

  // The formatters the builders attach.

  /** `x[key]` shows its operand with the outer parentheses stripped,
      followed by the key's `repr` in brackets. */
  lemma RenderItem(x: Receiver, k: Key, a: Option<Value>)
    ensures Render(Item(x, k), a) == Strip(ArgString(x, a), IsParen) + "[" + ReprKey(k) + "]"
  {
    var op := Item(x, k);
    assert op.args == [x] && op.formatter == ItemFormat(k);
    OneOperand(op, a);
  }

  /** `A[k]` shown with a value whose `repr` neither starts nor ends with
      a parenthesis: that `repr` followed by the key in brackets. */
  lemma RenderPlaceholderItem(k: Key, v: Value)
    requires !IsParen(Repr(v)[0]) && !IsParen(Repr(v)[|Repr(v)| - 1])
    ensures Render(Item(A, k), Some(v)) == Repr(v) + "[" + ReprKey(k) + "]"
  {
    RenderItem(A, k, Some(v));
    Properties.PlaceholderString(Some(v));
    StripParens(Repr(v));
  }

  /** `x[k]` on a node: the node's own text, without the parentheses
      `arg_to_str` put around it, followed by the key in brackets. */
  lemma RenderNestedItem(o: Op, k: Key, a: Option<Value>)
    requires Render(o, a) != [] && !IsParen(Render(o, a)[0]) && !IsParen(Render(o, a)[|Render(o, a)| - 1])
    ensures Render(Item(Deferred(o), k), a) == Render(o, a) + "[" + ReprKey(k) + "]"
  {
    var t := Render(o, a);
    RenderItem(Deferred(o), k, a);
    DeferredString(o, a);
    StripParens(t);
  }

  /** `arg_to_str` puts a nested node's text in parentheses. */
  lemma DeferredString(o: Op, a: Option<Value>)
    ensures ArgString(Deferred(o), a) == "(" + Render(o, a) + ")"
  {
  }

  /** A default-layout node whose operands are a nested node and a literal
      shows the node's text in parentheses, the symbol and `repr(w)`. */
  lemma RenderNestedBinary(op: Op, o: Op, w: Value, a: Option<Value>)
    requires op.formatter == Plain && op.args == [Deferred(o), Literal(w)]
    requires !op.fn.IsAlikeFn? && !op.fn.IsInstanceFn?
    ensures Render(op, a) == "(" + Render(o, a) + ")" + " " + op.symbol + " " + Repr(w)
  {
    Properties.RenderBinary(op, a);
    DeferredString(o, a);
    Properties.LiteralString(w, a);
  }

  /** `x.name`: on `A` the operand loses its outer parentheses; on a node
      it keeps them, so a nested node shows as `(inner).name`. */
  lemma RenderAttr(x: Receiver, name: string, a: Option<Value>)
    ensures x.Placeholder? ==> Render(Attr(x, name), a) == Strip(ReprSubject(a), IsParen) + "." + name
    ensures x.Deferred? ==> Render(Attr(x, name), a) == ArgString(x, a) + "." + name
  {
    var op := Attr(x, name);
    assert op.args == [x] && op.formatter == AttrFormat(name, x.Placeholder?);
    OneOperand(op, a);
    if x.Placeholder? {
      Properties.PlaceholderString(a);
    }
  }

  /** `x(*args, **kwargs)` shows its operand with the outer parentheses
      stripped, followed by `_format_args(*args, **kwargs)`. */
  lemma RenderCall(x: Receiver, args: seq<Value>, kwargs: seq<(string, Value)>, a: Option<Value>)
    ensures Call(x, args, kwargs).Done? ==>
      Render(Call(x, args, kwargs).value, a) == Strip(ArgString(x, a), IsParen) + FormatArgs(args, kwargs)
  {
    if Call(x, args, kwargs).Done? {
      CallNode(x, args, kwargs);
      OneOperand(Call(x, args, kwargs).value, a);
    }
  }

  /** A call node has the receiver as its one operand and shows the arguments. */
  lemma CallNode(x: Receiver, args: seq<Value>, kwargs: seq<(string, Value)>)
    ensures Call(x, args, kwargs).Done? ==>
      && Call(x, args, kwargs).value.fn == CallFn(args, kwargs)
      && Call(x, args, kwargs).value.args == [x]
      && Call(x, args, kwargs).value.formatter == CallFormat(FormatArgs(args, kwargs))
  {
  }

  /** `A.apply(f)` shows the callback's name applied to the value. */
  lemma RenderApply(name: string, f: Res -> Outcome<Res>, a: Option<Value>)
    ensures Render(Apply(name, f), a) == name + "(" + ReprSubject(a) + ")"
  {
    var op := Apply(name, f);
    assert op.args == [Placeholder] && op.formatter == ApplyFormat(name);
    OneOperand(op, a);
    Properties.PlaceholderString(a);
  }

  /** `.strip("()")` removes exactly one enclosing pair of parentheses from
      a text that does not itself start or end with one, and leaves such a
      text unchanged. */
  lemma StripParens(y: string)
    requires y != [] && !IsParen(y[0]) && !IsParen(y[|y| - 1])
    ensures Strip("(" + y + ")", IsParen) == y
    ensures Strip(y, IsParen) == y
  {
    var s := "(" + y + ")";
    assert s[1..] == y + ")";
    assert TrimStart(y + ")", IsParen) == y + ")";
    assert (y + ")")[..|y|] == y;
    assert TrimEnd(y, IsParen) == y;
    assert TrimStart(y, IsParen) == y;
  }

  /** A node with one operand hands its formatter that operand's text alone. */
  lemma OneOperand(op: Op, a: Option<Value>)
    requires |op.args| == 1 && !op.fn.IsAlikeFn? && !op.fn.IsInstanceFn?
    ensures Render(op, a) == Formatted(op.formatter, op.symbol, [ArgString(op.args[0], a)])
  {
    assert ArgStrings(op, a) == [ArgString(op.args[0], a)];
  }

  /** `A.is_missing` and `A.is_present` show fixed messages, whatever the value. */
  lemma RenderPresence(a: Option<Value>)
    ensures Render(IsMissing(), a) == "value should be missing"
    ensures Render(IsPresent(), a) == "value should be present"
  {
  }

  // `_format_args`.

  /** No arguments give `()`. */
  lemma FormatNoArgs()
    ensures FormatArgs([], []) == "()"
  {
  }

  /** One positional argument is shown by its `repr`. */
  lemma FormatOneArg(v: Value)
    ensures FormatArgs([v], []) == "(" + Repr(v) + ")"
  {
    assert PositionalTexts([v]) == [Repr(v)];
  }

  /** One keyword argument is shown as `name=repr(value)`. */
  lemma FormatOneKwarg(k: string, v: Value)
    ensures FormatArgs([], [(k, v)]) == "(" + k + "=" + Repr(v) + ")"
  {
    assert KeywordTexts([(k, v)]) == [k + "=" + Repr(v)];
  }

  /** The positional arguments come first, then a comma when both kinds
      are present, then the keyword arguments. */
  lemma FormatPositionalFirst(args: seq<Value>, kwargs: seq<(string, Value)>)
    ensures ArgsText(args, kwargs) ==
      ArgsText(args, []) + (if args != [] && kwargs != [] then ", " else "") + ArgsText([], kwargs)
  {
    NoKeyword(args);
    NoPositional(kwargs);
  }

  /** One more positional argument appends `, ` and its `repr`. */
  lemma FormatMoreArgs(args: seq<Value>, v: Value)
    requires args != []
    ensures ArgsText(args + [v], []) == ArgsText(args, []) + ", " + Repr(v)
  {
    PositionalTextsAppend(args, v);
    Properties.JoinAppend(PositionalTexts(args), Repr(v), ", ");
    NoKeyword(args);
    NoKeyword(args + [v]);
  }

  /** One more keyword argument appends `, ` and `name=repr(value)`. */
  lemma FormatMoreKwargs(kwargs: seq<(string, Value)>, k: string, v: Value)
    requires kwargs != []
    ensures ArgsText([], kwargs + [(k, v)]) == ArgsText([], kwargs) + ", " + k + "=" + Repr(v)
  {
    var x := k + "=" + Repr(v);
    KeywordTextsAppend(kwargs, k, v);
    Properties.JoinAppend(KeywordTexts(kwargs), x, ", ");
    NoPositional(kwargs);
    NoPositional(kwargs + [(k, v)]);
    assert Join(KeywordTexts(kwargs), ", ") + ", " + x == Join(KeywordTexts(kwargs), ", ") + ", " + k + "=" + Repr(v);
  }

  lemma NoKeyword(args: seq<Value>)
    ensures ArgsText(args, []) == Join(PositionalTexts(args), ", ")
  {
    assert Join(KeywordTexts([]), ", ") == [];
  }

  lemma NoPositional(kwargs: seq<(string, Value)>)
    ensures ArgsText([], kwargs) == Join(KeywordTexts(kwargs), ", ")
  {
    assert Join(PositionalTexts([]), ", ") == [];
  }

  lemma PositionalTextsAppend(args: seq<Value>, v: Value)
    ensures PositionalTexts(args + [v]) == PositionalTexts(args) + [Repr(v)]
  {
  }

  lemma KeywordTextsAppend(kwargs: seq<(string, Value)>, k: string, v: Value)
    ensures KeywordTexts(kwargs + [(k, v)]) == KeywordTexts(kwargs) + [k + "=" + Repr(v)]
  {
  }
}
