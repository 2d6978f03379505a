/** The part of the database driver's query builder that the modelled code
    relies on: a statement with the values bound to its placeholders so far,
    and `.bind(value)`, which binds the next placeholder. */
module Sqlx {
  import opened Common

  /** A value bound to a placeholder. */
  datatype Value =
    | Text(text: string)
    | Int(number: int)
    | Bool(flag: bool)
    | UuidValue(uuid: Uuid)
    | OptionalUuid(maybeUuid: Option<Uuid>)
    | UuidArray(uuids: seq<Uuid>)
    | TextArray(texts: seq<string>)
    | Json(json: string)

  /** A statement (identified by its template) with its bound values;
      `binds[k]` goes to placeholder `$(k+1)`. */
  datatype Query = Query(sql: string, binds: seq<Value>)

  /** A pooled connection handle used to run a query. */
  datatype Connection = Connection(database: string)

  /** `sqlx::query(sql)`: a statement with nothing bound yet. */
  function Unbound(sql: string): (q: Query)
    ensures q.sql == sql && q.binds == []
  {
    Query(sql, [])
  }

  /** `.bind(v)`: binds the next free placeholder. */
  function Bind(q: Query, v: Value): (r: Query)
    ensures r.sql == q.sql && |r.binds| == |q.binds| + 1
    ensures r.binds[..|q.binds|] == q.binds
    ensures r.binds[|q.binds|] == v
  {
    Query(q.sql, q.binds + [v])
  }

  /** `.bind(v1).bind(v2)...`: the chain a call site writes, left to right. */
  function BindAll(q: Query, vs: seq<Value>): (r: Query)
    ensures r.sql == q.sql && |r.binds| == |q.binds| + |vs|
    ensures r.binds[..|q.binds|] == q.binds
    decreases |vs|
  {
    if vs == [] then q else BindAll(Bind(q, vs[0]), vs[1..])
  }

  /** Bind values end up in the order they are written at the call site,
      after whatever was already bound; the statement is unchanged. */
  lemma {:induction false} BindAllInOrder(q: Query, vs: seq<Value>)
    ensures BindAll(q, vs) == Query(q.sql, q.binds + vs)
    decreases |vs|
  {
    if vs == [] {
      assert q.binds + vs == q.binds;
    } else {
      BindAllInOrder(Bind(q, vs[0]), vs[1..]);
      assert q.binds + [vs[0]] + vs[1..] == q.binds + vs;
    }
  }

  /** Hence placeholder `$(k+1)` of a freshly built statement receives the k-th
      value written, and swapping two values swaps what their placeholders get. */
  lemma PlaceholderReceivesKthBind(sql: string, vs: seq<Value>, k: nat)
    requires k < |vs|
    ensures |BindAll(Unbound(sql), vs).binds| == |vs|
    ensures BindAll(Unbound(sql), vs).binds[k] == vs[k]
  {
    BindAllInOrder(Unbound(sql), vs);
  }
}
