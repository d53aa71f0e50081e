/** An optional value: the model's stand-in for JavaScript `null`/`undefined`
    and for Java's `null` and `Optional`. */
module Wrappers {

  datatype Option<+T> = None | Some(value: T) {

    /** The value, or `default` when absent (JavaScript's `??` / `||` fallback). */
    function GetOr(default: T): T {
      match this
      case Some(v) => v
      case None => default
    }
  }

  /** What a repository query declared to return one record yields: null
      when no record matches, that record when exactly one does, and an
      error (`IncorrectResultSizeDataAccessException`) when several do. */
  datatype Lookup<T> = NoMatch | OneMatch(item: T) | SeveralMatches

  /** The single-result query over the records of `records` whose keys
      are `keys`. */
  method FindOne<T>(records: map<string, T>, keys: set<string>) returns (r: Lookup<T>)
    requires keys <= records.Keys
    ensures r == NoMatch <==> keys == {}
    ensures r == SeveralMatches <==> |keys| >= 2
    ensures r.OneMatch? ==> exists k :: keys == {k} && r.item == records[k]
  {
    if keys == {} {
      return NoMatch;
    }
    var k :| k in keys;
    if keys == {k} {
      return OneMatch(records[k]);
    }
    var j :| j in keys && j != k;
    assert |keys| >= 2 by {
      assert |keys - {k}| == |keys| - 1;
      assert j in keys - {k};
    }
    return SeveralMatches;
  }

  /** What a resolver whose lookup may fail answers: its response, or the
      lookup's error, which reaches the client as a GraphQL error with no
      data. */
  datatype Answer<R> = Answered(response: R) | LookupFailed
}
