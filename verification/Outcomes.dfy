/** Results of operations that the services report with an error value or a missing value. */
module Outcomes {
  datatype Option<+T> = None | Some(value: T)

  datatype Result<+T> = Ok(value: T) | Err(message: string)

  /** The values of the results before the first error among the first n. */
  function Leading<T>(rs: seq<Result<T>>, n: nat): (values: seq<T>)
    requires n <= |rs|
    ensures |values| <= n && forall i :: 0 <= i < |values| ==> rs[i] == Ok(values[i])
    ensures |values| < n ==> rs[|values|].Err?
  {
    if n == 0 then []
    else
      var before := Leading(rs, n - 1);
      if |before| == n - 1 && rs[n - 1].Ok? then before + [rs[n - 1].value] else before
  }

  /** All values, or the first error. */
  function Collected<T>(rs: seq<Result<T>>): Result<seq<T>> {
    var values := Leading(rs, |rs|);
    if |values| == |rs| then Ok(values) else Err(rs[|values|].message)
  }

  lemma {:induction false} LeadingStops<T>(rs: seq<Result<T>>, n: nat, m: nat)
    requires n <= m <= |rs| && |Leading(rs, n)| < n
    ensures Leading(rs, m) == Leading(rs, n)
  {
    if n < m {
      LeadingStops(rs, n, m - 1);
    }
  }

  /** An error leaves nothing before it exactly when the first result is one. */
  lemma {:induction false} NothingLeads<T>(rs: seq<Result<T>>)
    requires Collected(rs).Err?
    ensures rs != [] && (Leading(rs, |rs|) == [] <==> rs[0].Err?)
  {
  }
}
