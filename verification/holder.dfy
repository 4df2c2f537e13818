/** The stateful front end: an `Alike` object keeps its schema and the
    result of its latest comparison, and the free functions `is_alike` and
    `assert_alike` build a fresh one per call. */
module Holder {
  import opened Values
  import opened Results
  import opened Expressions
  import Comparison
  import Walk

  class Alike {
    const schema: Schema
    var lastResult: IsLike

    /** `Alike(schema)`: no comparison has run yet, so the last result is
        the empty, truthy `IsLike()`. */
    constructor(schema: Schema)
      ensures this.schema == schema
      ensures lastResult == IsLike([]) && lastResult.Truthy()
    {
      this.schema := schema;
      lastResult := IsLike([]);
    }

    /** `Alike.is_alike(obj)` (also what `alike == obj` does): compares and
        records the result. An exception leaves the last result as it was. */
    method IsAlike(obj: Value) returns (r: Outcome<IsLike>)
      modifies this
      ensures r == Comparison.IsAlike(obj, schema)
      ensures r.Done? ==> lastResult == r.value
      ensures r.Raised? ==> lastResult == old(lastResult)
    {
      var errors := Walk.CompareMethod(schema, obj, []);
      if errors.Raised? {
        return Raised(errors.exc);
      }
      lastResult := IsLike(errors.value);
      return Done(lastResult);
    }

    /** `Alike.raise_on_error()`: raises exactly when the last comparison
        reported errors, carrying those errors. */
    method RaiseOnError() returns (raised: Option<UnlikeError>)
      ensures raised.Some? <==> !lastResult.Truthy()
      ensures raised.Some? ==> raised.value.errors == lastResult.errors
    {
      raised := Results.RaiseOnError(lastResult);
    }
  }

  /** `is_alike(actual, expected)`: a fresh `Alike(expected)` compares. */
  method IsAlikeCall(actual: Value, expected: Schema) returns (r: Outcome<IsLike>)
    ensures r == Comparison.IsAlike(actual, expected)
  {
    var alike := new Alike(expected);
    r := alike.IsAlike(actual);
  }

  /** `assert_alike(actual, expected)`. */
  method AssertAlikeCall(actual: Value, expected: Schema) returns (v: Comparison.Verdict)
    ensures v == Comparison.AssertAlike(actual, expected)
  {
    var r := IsAlikeCall(actual, expected);
    if r.Raised? {
      return Comparison.Crashed(r.exc);
    }
    var raised := Results.RaiseOnError(r.value);
    if raised.Some? {
      return Comparison.Failed(raised.value);
    }
    return Comparison.Passed;
  }
}
