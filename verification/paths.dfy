/** How deferred nodes build the path their nested errors are filed
    under: a subscript appends a segment, a call extends the last one. */
module Paths {
  import opened Values
  import opened Expressions

  /** `x[k1][k2]...[kn]`. */
  function Subscripts(x: Receiver, keys: seq<Key>): Receiver
    decreases |keys|
  {
    if keys == [] then x else Subscripts(Deferred(Item(x, keys[0])), keys[1..])
  }

  /** A chain of subscripts appends its keys, in order, to the receiver's
      path. */
  lemma {:induction false} SubscriptPath(x: Receiver, keys: seq<Key>)
    ensures PathOf(Subscripts(x, keys)) == PathOf(x) + keys
    decreases |keys|
  {
    if keys == [] {
      assert PathOf(x) + [] == PathOf(x);
    } else {
      var y := Deferred(Item(x, keys[0]));
      var rest := keys[1..];
      assert Subscripts(x, keys) == Subscripts(y, rest);
      SubscriptPath(y, rest);
      ItemPath(x, keys[0]);
      ConsAppend(PathOf(x), keys);
    }
  }

  lemma ConsAppend(p: seq<Key>, keys: seq<Key>)
    requires keys != []
    ensures p + [keys[0]] + keys[1..] == p + keys
  {
    assert [keys[0]] + keys[1..] == keys;
  }

  /** `x[k]` appends one segment. */
  lemma ItemPath(x: Receiver, k: Key)
    ensures PathOf(Deferred(Item(x, k))) == PathOf(x) + [k]
  {
  }

  /** A call adds no segment: without a path the node has none; otherwise
      the formatted arguments extend the last segment, and an integer last
      segment raises TypeError. */
  lemma CallPath(x: Receiver, args: seq<Value>, kwargs: seq<(string, Value)>)
    ensures Call(x, args, kwargs).Raised? <==> PathOf(x) != [] && PathOf(x)[|PathOf(x)| - 1].KInt?
    ensures Call(x, args, kwargs).Done? ==>
              var p := PathOf(x);
              var q := Call(x, args, kwargs).value.path;
              && |q| == |p|
              && (forall i | 0 <= i < |p| - 1 :: q[i] == p[i])
              && (p != [] ==> q[|p| - 1] == KStr(p[|p| - 1].name + FormatArgs(args, kwargs)))
  {
  }
}
