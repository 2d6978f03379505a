/** The `kv-get` operation: looks up (namespace, key) pairs in the `db-kv`
    database with one query whose two array parameters are built in request
    order, and returns the rows it gets back as response keys. */
module KvGet {
  import opened Common
  import opened Sqlx
  import Utf8

  /** A requested key; the namespace is optional on the wire. */
  datatype RequestKey = RequestKey(namespaceId: Option<Uuid>, key: string)

  /** A row of the lookup: `KvPair`. */
  datatype KvPair = KvPair(namespaceId: Uuid, key: string, value: string)

  /** A key of the response: the value is carried as bytes. */
  datatype Key = Key(namespaceId: Option<Uuid>, key: string, value: seq<Utf8.byte>)

  datatype Response = Response(values: seq<Key>)

  /** Names the lookup statement (joining the unnested arrays with `kv`). */
  const SelectKvSql := "kv-get: select kv rows of (namespace_id, key) pairs"

  /** `From<KvPair> for Key`: the namespace becomes present, the key is
      kept, and the value string becomes its UTF-8 bytes. */
  function KeyFromPair(p: KvPair): (k: Key)
    ensures k.namespaceId == Some(p.namespaceId) && k.key == p.key
    ensures Utf8.Decode(k.value) == Some(p.value)
  {
    Utf8.DecodeEncode(p.value);
    Key(Some(p.namespaceId), p.key, Utf8.Encode(p.value))
  }

  /** The reverse reading of a response key, when it is one a row can give. */
  function PairFromKey(k: Key): Option<KvPair>
  {
    match (k.namespaceId, Utf8.Decode(k.value))
    case (Some(ns), Some(v)) => Some(KvPair(ns, k.key, v))
    case _ => None
  }

  /** A converted key has the row's namespace, the same key and the row's
      value as bytes from which the value is read back intact: the conversion
      loses nothing. */
  lemma KeyFromPairRoundTrip(p: KvPair)
    ensures KeyFromPair(p).namespaceId == Some(p.namespaceId)
    ensures KeyFromPair(p).key == p.key
    ensures PairFromKey(KeyFromPair(p)) == Some(p)
  {
    Utf8.DecodeEncode(p.value);
  }

  /** `.into_iter().map(Into::into).collect()`: the rows converted one for
      one, in row order. */
  function KeysFromRows(rows: seq<KvPair>): (ks: seq<Key>)
    ensures |ks| == |rows|
    ensures forall i :: 0 <= i < |rows| ==> ks[i] == KeyFromPair(rows[i])
  {
    if rows == [] then [] else [KeyFromPair(rows[0])] + KeysFromRows(rows[1..])
  }

  /** Every requested key names its namespace. */
  predicate AllHaveNamespace(keys: seq<RequestKey>)
  {
    forall i :: 0 <= i < |keys| ==> keys[i].namespaceId.Some?
  }

  /** The two parallel vectors line up with the request: entry i of each
      comes from key i. */
  predicate Collected(keys: seq<RequestKey>, namespaceIds: seq<Uuid>, keyStrs: seq<string>)
  {
    && |namespaceIds| == |keys|
    && |keyStrs| == |keys|
    && forall i :: 0 <= i < |keys| ==>
         keys[i].namespaceId == Some(namespaceIds[i]) && keyStrs[i] == keys[i].key
  }

  /** Two vectors that line up with the same request are the same vectors. */
  lemma CollectedUnique(keys: seq<RequestKey>, ns1: seq<Uuid>, ks1: seq<string>,
                        ns2: seq<Uuid>, ks2: seq<string>)
    requires Collected(keys, ns1, ks1) && Collected(keys, ns2, ks2)
    ensures ns1 == ns2 && ks1 == ks2
  {
  }

  /** The error `internal_unwrap!(key.namespace_id)` raises. */
  const MissingNamespace := Internal("key.namespace_id")

  /** The collection loop: walks the request keys in order, pushing each
      namespace and key; the first key without a namespace aborts it. */
  method CollectKeys(keys: seq<RequestKey>) returns (r: GlobalResult<(seq<Uuid>, seq<string>)>)
    ensures r.Ok? <==> AllHaveNamespace(keys)
    ensures r.Ok? ==> Collected(keys, r.value.0, r.value.1)
    ensures r.Err? ==> r.error == MissingNamespace
  {
    var namespaceIds: seq<Uuid> := [];
    var keyStrs: seq<string> := [];
    var i := 0;
    while i < |keys|
      invariant 0 <= i <= |keys|
      invariant AllHaveNamespace(keys[..i])
      invariant Collected(keys[..i], namespaceIds, keyStrs)
    {
      if keys[i].namespaceId.None? {
        return Err(MissingNamespace);
      }
      namespaceIds := namespaceIds + [keys[i].namespaceId.value];
      keyStrs := keyStrs + [keys[i].key];
      i := i + 1;
      assert keys[..i] == keys[..i - 1] + [keys[i - 1]];
    }
    assert keys[..i] == keys;
    r := Ok((namespaceIds, keyStrs));
  }

  /** The database's answer to the lookup statement on a connection. */
  type FetchAll = (Connection, Query) -> Result<seq<KvPair>, DriverError>

  /** The operation's handler: resolve `db-kv` (its error is returned as is),
      collect the parameters (a missing namespace fails before any query),
      run the lookup with the namespace array bound first and the key array
      second, and convert the rows. `issued` is the query sent, if any. */
  method Handle(crdb: GlobalResult<Connection>, keys: seq<RequestKey>, fetchAll: FetchAll)
    returns (issued: Option<Query>, r: GlobalResult<Response>)
    ensures crdb.Err? ==> issued == None && r == Err(crdb.error)
    ensures crdb.Ok? && !AllHaveNamespace(keys) ==> issued == None && r == Err(MissingNamespace)
    ensures crdb.Ok? && AllHaveNamespace(keys) ==>
      && issued.Some? && issued.value.sql == SelectKvSql && |issued.value.binds| == 2
      && issued.value.binds[0].UuidArray? && issued.value.binds[1].TextArray?
      && Collected(keys, issued.value.binds[0].uuids, issued.value.binds[1].texts)
      && var rows := fetchAll(crdb.value, issued.value);
         && (r.Ok? <==> rows.Ok?)
         && (rows.Ok? ==> r.value.values == KeysFromRows(rows.value))
         && (rows.Err? ==> r.error == Database(rows.error))
  {
    issued := None;
    if crdb.Err? {
      return issued, Err(crdb.error);
    }
    var collected := CollectKeys(keys);
    if collected.Err? {
      return issued, Err(collected.error);
    }
    var (namespaceIds, keyStrs) := collected.value;
    var q := BindAll(Unbound(SelectKvSql), [UuidArray(namespaceIds), TextArray(keyStrs)]);
    BindAllInOrder(Unbound(SelectKvSql), [UuidArray(namespaceIds), TextArray(keyStrs)]);
    issued := Some(q);
    var rows := IntoGlobal(fetchAll(crdb.value, q));
    if rows.Err? {
      return issued, Err(rows.error);
    }
    r := Ok(Response(KeysFromRows(rows.value)));
  }
}
