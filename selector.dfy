/**
 * Selectors: a query's rows mapped through the selector's fallible row decoder
 * (`SelectorTrait::from_raw_query_result`).
 */
module Selectors {
  import opened Wrappers
  import opened DbErrors

  /** The part of a SELECT statement the executor touches: its row limit. The rest is opaque. */
  datatype Query<Q> = Query(body: Q, limit: Option<nat>)

  /**
   * `Selector::all`: the connection's rows decoded in order, or the first error: the
   * connection's own, or that of the first row that fails to decode.
   */
  method All<Q, Row, T>(q: Query<Q>, queryAll: Query<Q> -> Result<seq<Row>, DbErr>, decode: Row -> Result<T, DbErr>)
    returns (r: Result<seq<T>, DbErr>)
    ensures queryAll(q).Err? ==> r == Err(queryAll(q).error)
    ensures queryAll(q).Ok? ==> var rows := queryAll(q).value;
      && (r.Ok? <==> forall i :: 0 <= i < |rows| ==> decode(rows[i]).Ok?)
      && (r.Ok? ==> |r.value| == |rows| && forall i :: 0 <= i < |rows| ==> r.value[i] == decode(rows[i]).value)
      && (r.Err? ==> exists i :: 0 <= i < |rows| && decode(rows[i]).Err? && r.error == decode(rows[i]).error
                       && forall j :: 0 <= j < i ==> decode(rows[j]).Ok?)
  {
    var fetched := queryAll(q);
    if fetched.Err? {
      return Err(fetched.error);
    }
    var rows := fetched.value;
    var models: seq<T> := [];
    var i := 0;
    while i < |rows|
      invariant 0 <= i <= |rows|
      invariant |models| == i
      invariant forall j :: 0 <= j < i ==> decode(rows[j]).Ok? && models[j] == decode(rows[j]).value
    {
      var decoded := decode(rows[i]);
      if decoded.Err? {
        return Err(decoded.error);
      }
      models := models + [decoded.value];
      i := i + 1;
    }
    r := Ok(models);
  }

  /**
   * `Selector::one`: the statement is sent with `LIMIT 1`; no row is `Ok(None)`, a row is
   * decoded, and a connection or decoding error is returned as it is.
   */
  function One<Q, Row, T>(q: Query<Q>, queryOne: Query<Q> -> Result<Option<Row>, DbErr>, decode: Row -> Result<T, DbErr>)
    : (r: Result<Option<T>, DbErr>)
    ensures var fetched := queryOne(q.(limit := Some(1)));
      && (fetched.Err? ==> r == Err(fetched.error))
      && (fetched == Ok(None) ==> r == Ok(None))
      && (fetched.Ok? && fetched.value.Some? ==>
            (r.Ok? <==> decode(fetched.value.value).Ok?) &&
            (r.Ok? ==> r.value == Some(decode(fetched.value.value).value)) &&
            (r.Err? ==> r.error == decode(fetched.value.value).error))
  {
    match queryOne(q.(limit := Some(1)))
    case Err(e) => Err(e)
    case Ok(None) => Ok(None)
    case Ok(Some(row)) =>
      match decode(row)
      case Err(e) => Err(e)
      case Ok(v) => Ok(Some(v))
  }

  /**
   * `SelectTwoModel::from_raw_query_result`: the first model (prefix A) is decoded before the
   * optional second (prefix B); the first failure is the result's error.
   */
  function FromRawTwo<Row, M, N>(row: Row, a: Row -> Result<M, DbErr>, b: Row -> Result<Option<N>, DbErr>)
    : (r: Result<(M, Option<N>), DbErr>)
    ensures r.Ok? <==> a(row).Ok? && b(row).Ok?
    ensures r.Ok? ==> r.value == (a(row).value, b(row).value)
    ensures a(row).Err? ==> r == Err(a(row).error)
    ensures a(row).Ok? && b(row).Err? ==> r == Err(b(row).error)
  {
    match a(row)
    case Err(e) => Err(e)
    case Ok(m) =>
      match b(row)
      case Err(e) => Err(e)
      case Ok(n) => Ok((m, n))
  }

  /** `SelectThreeModel::from_raw_query_result`: prefixes A, B, C decoded in that order. */
  function FromRawThree<Row, M, N, O>(row: Row, a: Row -> Result<M, DbErr>, b: Row -> Result<Option<N>, DbErr>,
                                      c: Row -> Result<Option<O>, DbErr>)
    : (r: Result<(M, Option<N>, Option<O>), DbErr>)
    ensures r.Ok? <==> a(row).Ok? && b(row).Ok? && c(row).Ok?
    ensures r.Ok? ==> r.value == (a(row).value, b(row).value, c(row).value)
    ensures a(row).Err? ==> r == Err(a(row).error)
    ensures a(row).Ok? && b(row).Err? ==> r == Err(b(row).error)
    ensures a(row).Ok? && b(row).Ok? && c(row).Err? ==> r == Err(c(row).error)
  {
    match a(row)
    case Err(e) => Err(e)
    case Ok(m) =>
      match b(row)
      case Err(e) => Err(e)
      case Ok(n) =>
        match c(row)
        case Err(e) => Err(e)
        case Ok(o) => Ok((m, n, o))
  }
}
