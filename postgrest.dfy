/**
 * The behaviour of the hosted database's query builder that the handlers
 * depend on, over tables held as sequences of rows in their stored order.
 */
module Postgrest {
  import opened Js
  import opened JsArray

  /** `{ data, error }` of a `select("*")`: rows (possibly null), or an error. */
  datatype FetchReply<T> = Rows(data: Option<seq<T>>) | FetchError

  /**
   * `.eq(...).single()`: the one row that matches, or null data (with an
   * error) when no row or more than one row matches.
   */
  function Single<T>(rows: seq<T>, matches: T -> bool): (r: Option<T>)
    ensures r.Some? <==> |Filter(rows, matches)| == 1
    ensures r.Some? ==> r.value in rows && matches(r.value)
  {
    var hits := Filter(rows, matches);
    if |hits| == 1 then Some(hits[0]) else None
  }

  /** `.limit(n)`: at most the first `n` rows. */
  function Limit<T>(rows: seq<T>, n: nat): (r: seq<T>)
    ensures |r| == if |rows| <= n then |rows| else n
    ensures r <= rows
  {
    if |rows| <= n then rows else rows[..n]
  }

  /** ASCII case folding, the part of the database's `lower()` this model covers. */
  function FoldChar(c: char): char
  {
    if 'A' <= c <= 'Z' then ((c as int) + 32) as char else c
  }

  function Fold(s: string): (r: string)
    ensures |r| == |s|
    ensures forall i :: 0 <= i < |s| ==> r[i] == FoldChar(s[i])
  {
    if s == [] then [] else [FoldChar(s[0])] + Fold(s[1..])
  }

  /** `needle` occurs as a contiguous part of `hay`. */
  predicate Contains(hay: string, needle: string)
  {
    exists i :: 0 <= i <= |hay| && needle <= hay[i..]
  }

  /**
   * A search text with none of the characters that ILIKE (`%`, `_`, the
   * escape backslash), PostgREST's like pattern (`*`, read as `%`) or the `or=`
   * filter syntax (`,`, parentheses, double quotes) interpret.
   */
  predicate PlainQuery(q: string)
  {
    forall i :: 0 <= i < |q| ==> q[i] !in {'%', '_', '*', '\\', ',', '(', ')', '"'}
  }

  /** `column ILIKE '%q%'` for a plain `q`: a case-insensitive substring test. */
  predicate ILikeContains(column: string, q: string)
  {
    Contains(Fold(column), Fold(q))
  }
}
