/** The `game-user-list-for-user` operation: fetches the game users of a
    list of user ids with one query and groups the rows back onto the
    requested ids, in request order. */
module GameUserListForUser {
  import opened Common
  import opened Sqlx

  /** A row of the lookup: `GameUser`. */
  datatype GameUserRow = GameUserRow(gameUserId: Uuid, userId: Uuid)

  /** A user of the response with the game users found for it. */
  datatype User = User(userId: Option<Uuid>, gameUserIds: seq<Uuid>)

  datatype Response = Response(users: seq<User>)

  /** Names the lookup statement (game users whose user id is in the array). */
  const SelectGameUsersSql := "game-user-list-for-user: select game users of user ids"

  /** `.filter(|x| x.user_id == user_id).map(|row| row.game_user_id)`: the game
      user ids of the rows belonging to `u`, in row order. */
  function GameUserIdsOf(rows: seq<GameUserRow>, u: Uuid): (ids: seq<Uuid>)
    ensures |ids| <= |rows|
  {
    if rows == [] then []
    else (if rows[0].userId == u then [rows[0].gameUserId] else []) + GameUserIdsOf(rows[1..], u)
  }

  /** `user_ids.into_iter().map(...).collect()`: one user per requested id. */
  function Users(userIds: seq<Uuid>, rows: seq<GameUserRow>): (users: seq<User>)
    ensures |users| == |userIds|
    ensures forall i :: 0 <= i < |userIds| ==>
              users[i].userId == Some(userIds[i]) && users[i].gameUserIds == GameUserIdsOf(rows, userIds[i])
  {
    if userIds == [] then [] else [User(Some(userIds[0]), GameUserIdsOf(rows, userIds[0]))] + Users(userIds[1..], rows)
  }

  /** Grouping a concatenation of rows groups each part in turn: row order
      is kept. */
  lemma {:induction false} GameUserIdsOfAppend(a: seq<GameUserRow>, b: seq<GameUserRow>, u: Uuid)
    ensures GameUserIdsOf(a + b, u) == GameUserIdsOf(a, u) + GameUserIdsOf(b, u)
  {
    if a != [] {
      assert (a + b)[1..] == a[1..] + b;
      GameUserIdsOfAppend(a[1..], b, u);
    } else {
      assert a + b == b;
    }
  }

  /** An id is listed for `u` exactly when some row pairs it with `u`. */
  lemma {:induction false} GameUserIdsOfMembership(rows: seq<GameUserRow>, u: Uuid, g: Uuid)
    ensures g in GameUserIdsOf(rows, u) <==> exists i :: 0 <= i < |rows| && rows[i] == GameUserRow(g, u)
  {
    if rows != [] {
      GameUserIdsOfMembership(rows[1..], u, g);
      if g in GameUserIdsOf(rows[1..], u) {
        var i :| 0 <= i < |rows[1..]| && rows[1..][i] == GameUserRow(g, u);
        assert rows[i + 1] == GameUserRow(g, u);
      }
      if exists i :: 0 <= i < |rows| && rows[i] == GameUserRow(g, u) {
        var i :| 0 <= i < |rows| && rows[i] == GameUserRow(g, u);
        if i > 0 {
          assert rows[1..][i - 1] == GameUserRow(g, u);
        }
      }
    }
  }

  /** A user no row belongs to gets an empty list rather than being left out. */
  lemma {:induction false} NoRowsGiveEmptyList(rows: seq<GameUserRow>, u: Uuid)
    requires forall i :: 0 <= i < |rows| ==> rows[i].userId != u
    ensures GameUserIdsOf(rows, u) == []
  {
    if rows != [] {
      NoRowsGiveEmptyList(rows[1..], u);
    }
  }

  /** The rows whose user id was requested, in row order. */
  function RequestedRows(rows: seq<GameUserRow>, userIds: seq<Uuid>): (kept: seq<GameUserRow>)
    ensures forall i :: 0 <= i < |kept| ==> kept[i].userId in userIds
  {
    if rows == [] then []
    else (if rows[0].userId in userIds then [rows[0]] else []) + RequestedRows(rows[1..], userIds)
  }

  /** Keeping only the requested rows keeps every requested user's group. */
  lemma {:induction false} RequestedRowsKeepGroup(rows: seq<GameUserRow>, userIds: seq<Uuid>, u: Uuid)
    requires u in userIds
    ensures GameUserIdsOf(RequestedRows(rows, userIds), u) == GameUserIdsOf(rows, u)
  {
    if rows != [] {
      var head := if rows[0].userId in userIds then [rows[0]] else [];
      GameUserIdsOfAppend(head, RequestedRows(rows[1..], userIds), u);
      RequestedRowsKeepGroup(rows[1..], userIds, u);
      if head != [] {
        assert head[1..] == [];
      }
    }
  }

  /** Rows of users that were not requested contribute nothing: dropping
      them does not change the response. */
  lemma UnrequestedRowsIgnored(userIds: seq<Uuid>, rows: seq<GameUserRow>)
    ensures Users(userIds, RequestedRows(rows, userIds)) == Users(userIds, rows)
  {
    forall i | 0 <= i < |userIds|
      ensures GameUserIdsOf(RequestedRows(rows, userIds), userIds[i]) == GameUserIdsOf(rows, userIds[i])
    {
      RequestedRowsKeepGroup(rows, userIds, userIds[i]);
    }
  }

  /** The database's answer to the lookup statement on a connection. */
  type FetchAll = (Connection, Query) -> Result<seq<GameUserRow>, DriverError>

  /** The array parameter bound to the lookup: the requested ids as given. */
  function SelectQuery(userIds: seq<Uuid>): (q: Query)
    ensures q.sql == SelectGameUsersSql && q.binds == [UuidArray(userIds)]
  {
    BindAllInOrder(Unbound(SelectGameUsersSql), [UuidArray(userIds)]);
    BindAll(Unbound(SelectGameUsersSql), [UuidArray(userIds)])
  }

  /** The operation's handler: resolve `db-game-user`, fetch the rows of the
      requested ids, and group them; either error is returned. */
  function Handle(crdb: GlobalResult<Connection>, userIds: seq<Uuid>, fetchAll: FetchAll): (r: GlobalResult<Response>)
    ensures crdb.Err? ==> r == Err(crdb.error)
    ensures crdb.Ok? ==> var rows := fetchAll(crdb.value, SelectQuery(userIds));
              && (r.Ok? <==> rows.Ok?)
              && (rows.Ok? ==> r.value.users == Users(userIds, rows.value))
              && (rows.Err? ==> r.error == Database(rows.error))
  {
    match crdb
    case Err(e) => Err(e)
    case Ok(conn) =>
      match IntoGlobal(fetchAll(conn, SelectQuery(userIds)))
      case Err(e) => Err(e)
      case Ok(rows) => Ok(Response(Users(userIds, rows)))
  }
}
