/** The instrumented query layer: every database call made through the
    `sql_*` entry points first increments the process-wide counter
    `sql_query_total` under the label triple (action, context name, call
    site), then runs the driver with its bound values, and then, on the timed
    forms, records one observation in the histogram `sql_query_duration` under
    the same triple. One awaited invocation is one method call here; the
    driver, the connection resolution and the elapsed time are inputs. */
module SqlQueryMacros {
  import opened Common
  import opened Sqlx

  /** The driver method a query ends in; it also names the metric series. */
  datatype Action = Execute | Fetch | FetchAll | FetchMany | FetchOne | FetchOptional

  /** `stringify!($action)`: the label text of an action. */
  function ActionLabel(a: Action): string
  {
    match a
    case Execute => "execute"
    case Fetch => "fetch"
    case FetchAll => "fetch_all"
    case FetchMany => "fetch_many"
    case FetchOne => "fetch_one"
    case FetchOptional => "fetch_optional"
  }

  /** Different actions label different series: no two entry points share a
      counter or a histogram at the same call site. */
  lemma ActionLabelInjective(a: Action, b: Action)
    requires ActionLabel(a) == ActionLabel(b)
    ensures a == b
  {
  }

  /** The label values of both metric series. */
  datatype Labels = Labels(action: string, context: string, location: string)

  /** The triple built by the start and the finish step alike: the action's
      label, `ctx.name()` and the call site `file:line:column`. */
  function LabelsOf(a: Action, context: string, location: string): Labels
  {
    Labels(ActionLabel(a), context, location)
  }

  /** How an entry point gets its connection: given explicitly at the call
      site, or resolved with `ctx.crdb().await?`, whose outcome is an input. */
  datatype ConnArg = Explicit(conn: Connection) | Resolve(resolved: GlobalResult<Connection>)

  /** The connection the driver call would use, or the resolution error. */
  function ConnectionOf(c: ConnArg): GlobalResult<Connection>
  {
    match c
    case Explicit(conn) => Ok(conn)
    case Resolve(resolved) => resolved
  }

  /** Whether the driver call is reached at all. */
  predicate Connects(c: ConnArg)
  {
    ConnectionOf(c).Ok?
  }

  /** The database's answer to `driver(action, connection, query)`. */
  type Driver<R> = (Action, Connection, Query) -> Result<R, DriverError>

  /** The steps one invocation takes, in order. */
  datatype Step =
    | Increment(labels: Labels)
    | ResolveConnection(ok: bool)
    | DriverCall(action: Action, conn: Connection, query: Query)
    | Observe(labels: Labels, duration: nat)

  /** The resolution step, present only when no connection was given. */
  function ResolutionSteps(c: ConnArg): seq<Step>
  {
    if c.Resolve? then [ResolveConnection(c.resolved.Ok?)] else []
  }

  /** A driver call that has been built but not run: the stream `fetch`
      returns, which the caller drives later or never. */
  datatype Pending = Pending(action: Action, conn: Connection, query: Query)

  /** What `sql_fetch` hands back: the unawaited stream (explicit connection)
      or the awaited result of the timed form (no connection). */
  datatype FetchOutcome<R> = Stream(pending: Pending) | Completed(result: GlobalResult<R>)

  /** What a timed invocation returns: the resolution error, or the driver's
      result with its error converted into GlobalError. */
  function TimedResult<R>(action: Action, c: ConnArg, q: Query, driver: Driver<R>): (res: GlobalResult<R>)
    ensures Connects(c) ==> var d := driver(action, ConnectionOf(c).value, q);
              && (res.Ok? <==> d.Ok?)
              && (d.Ok? ==> res.value == d.value)
              && (d.Err? ==> res.error == Database(d.error))
    ensures !Connects(c) ==> res == Err(ConnectionOf(c).error)
  {
    match ConnectionOf(c)
    case Ok(conn) => IntoGlobal(driver(action, conn, q))
    case Err(e) => Err(e)
  }

  /** The process-wide metrics registry: the counter `sql_query_total` and the
      histogram `sql_query_duration`, each keyed by a label triple (a
      histogram is kept as the sequence of its observations). `trace` records
      the steps taken, so that their order can be stated. */
  class Registry {
    var total: map<Labels, nat>
    var durations: map<Labels, seq<nat>>
    ghost var trace: seq<Step>

    /** No series has more observations than its counter has increments. */
    ghost predicate Valid()
      reads this
    {
      forall l :: l in durations ==> l in total && |durations[l]| <= total[l]
    }

    /** The counter's value; a series never touched reads 0. */
    function Count(l: Labels): nat
      reads this
    {
      if l in total then total[l] else 0
    }

    /** The histogram's observations, oldest first. */
    function Observations(l: Labels): seq<nat>
      reads this
    {
      if l in durations then durations[l] else []
    }

    constructor ()
      ensures Valid()
      ensures total == map[] && durations == map[] && trace == []
    {
      total := map[];
      durations := map[];
      trace := [];
    }

    /** The registry change of one invocation that increments and, when `observed`, observes. */
    twostate predicate Recorded(l: Labels, observed: bool, elapsed: nat)
      reads this
    {
      && total == old(total)[l := old(Count(l)) + 1]
      && durations == (if observed then old(durations)[l := old(Observations(l)) + [elapsed]] else old(durations))
    }

    /** The steps of one awaited invocation of a timed form. */
    twostate predicate TimedTrace(action: Action, l: Labels, c: ConnArg, q: Query, elapsed: nat)
      reads this
    {
      trace == old(trace) + [Increment(l)] + ResolutionSteps(c)
               + (if Connects(c) then [DriverCall(action, ConnectionOf(c).value, q), Observe(l, elapsed)] else [])
    }

    /** `__sql_query_metrics_start!`: increments the counter for the triple. */
    method MetricsStart(action: Action, context: string, location: string)
      requires Valid()
      modifies this
      ensures Valid()
      ensures Recorded(LabelsOf(action, context, location), false, 0)
      ensures Count(LabelsOf(action, context, location)) == old(Count(LabelsOf(action, context, location))) + 1
      ensures trace == old(trace) + [Increment(LabelsOf(action, context, location))]
    {
      var l := LabelsOf(action, context, location);
      total := total[l := Count(l) + 1];
      trace := trace + [Increment(l)];
    }

    /** `__sql_query_metrics_finish!`: observes the elapsed time under the
        triple; it follows a start step of the same invocation, so that series
        has an increment not yet matched by an observation. */
    method MetricsFinish(action: Action, context: string, location: string, elapsed: nat)
      requires Valid()
      requires |Observations(LabelsOf(action, context, location))| < Count(LabelsOf(action, context, location))
      modifies this
      ensures Valid()
      ensures total == old(total)
      ensures durations == old(durations)[LabelsOf(action, context, location) :=
                                          old(Observations(LabelsOf(action, context, location))) + [elapsed]]
      ensures trace == old(trace) + [Observe(LabelsOf(action, context, location), elapsed)]
    {
      var l := LabelsOf(action, context, location);
      durations := durations[l := Observations(l) + [elapsed]];
      trace := trace + [Observe(l, elapsed)];
    }

    /** `__sql_query_as!`: start, resolve the connection if none was given
        (its `?` leaves the block before the finish step), the driver call
        with the values bound in order, then finish; the result is held
        without `?`, so the finish step runs on the driver's error too. */
    method QueryAs<R>(action: Action, context: string, location: string, c: ConnArg,
                      sql: string, binds: seq<Value>, driver: Driver<R>, elapsed: nat)
      returns (res: GlobalResult<R>)
      requires Valid()
      modifies this
      ensures Valid()
      ensures Recorded(LabelsOf(action, context, location), Connects(c), elapsed)
      ensures TimedTrace(action, LabelsOf(action, context, location), c, BindAll(Unbound(sql), binds), elapsed)
      ensures res == TimedResult(action, c, BindAll(Unbound(sql), binds), driver)
    {
      MetricsStart(action, context, location);
      var crdb := ConnectionOf(c);
      if c.Resolve? {
        trace := trace + [ResolveConnection(crdb.Ok?)];
      }
      assert trace == old(trace) + [Increment(LabelsOf(action, context, location))] + ResolutionSteps(c);
      if crdb.Err? {
        res := Err(crdb.error);
        return;
      }
      var q := BindAll(Unbound(sql), binds);
      trace := trace + [DriverCall(action, crdb.value, q)];
      res := IntoGlobal(driver(action, crdb.value, q));
      MetricsFinish(action, context, location, elapsed);
    }

    /** `__sql_query!`: the same timed sequence for an untyped statement,
        always ending in `execute`. */
    method Query<R>(context: string, location: string, c: ConnArg,
                    sql: string, binds: seq<Value>, driver: Driver<R>, elapsed: nat)
      returns (res: GlobalResult<R>)
      requires Valid()
      modifies this
      ensures Valid()
      ensures Recorded(LabelsOf(Execute, context, location), Connects(c), elapsed)
      ensures TimedTrace(Execute, LabelsOf(Execute, context, location), c, BindAll(Unbound(sql), binds), elapsed)
      ensures res == TimedResult(Execute, c, BindAll(Unbound(sql), binds), driver)
    {
      res := QueryAs(Execute, context, location, c, sql, binds, driver, elapsed);
    }

    /** `__sql_query_as_raw!`: with an explicit connection, the start step and
        the unawaited driver call, with no finish step; without one, it is
        routed to the timed form. */
    method QueryAsRaw<R>(action: Action, context: string, location: string, c: ConnArg,
                         sql: string, binds: seq<Value>, driver: Driver<R>, elapsed: nat)
      returns (out: FetchOutcome<R>)
      requires Valid()
      modifies this
      ensures Valid()
      ensures c.Explicit? ==>
        && out == Stream(Pending(action, c.conn, BindAll(Unbound(sql), binds)))
        && Recorded(LabelsOf(action, context, location), false, elapsed)
        && trace == old(trace) + [Increment(LabelsOf(action, context, location))]
      ensures c.Resolve? ==>
        && out == Completed(TimedResult(action, c, BindAll(Unbound(sql), binds), driver))
        && Recorded(LabelsOf(action, context, location), Connects(c), elapsed)
        && TimedTrace(action, LabelsOf(action, context, location), c, BindAll(Unbound(sql), binds), elapsed)
    {
      if c.Explicit? {
        MetricsStart(action, context, location);
        out := Stream(Pending(action, c.conn, BindAll(Unbound(sql), binds)));
      } else {
        var res := QueryAs(action, context, location, c, sql, binds, driver, elapsed);
        out := Completed(res);
      }
    }

    /** `sql_execute!`: the timed form, labelled "execute". */
    method SqlExecute<R>(context: string, location: string, c: ConnArg,
                         sql: string, binds: seq<Value>, driver: Driver<R>, elapsed: nat)
      returns (res: GlobalResult<R>)
      requires Valid()
      modifies this
      ensures Valid()
      ensures Recorded(Labels("execute", context, location), Connects(c), elapsed)
      ensures TimedTrace(Execute, Labels("execute", context, location), c, BindAll(Unbound(sql), binds), elapsed)
      ensures res == TimedResult(Execute, c, BindAll(Unbound(sql), binds), driver)
    {
      res := Query(context, location, c, sql, binds, driver, elapsed);
    }

    /** `sql_fetch!`: labelled "fetch"; untimed with an explicit connection,
        timed without one. */
    method SqlFetch<R>(context: string, location: string, c: ConnArg,
                       sql: string, binds: seq<Value>, driver: Driver<R>, elapsed: nat)
      returns (out: FetchOutcome<R>)
      requires Valid()
      modifies this
      ensures Valid()
      ensures c.Explicit? ==>
        && out == Stream(Pending(Fetch, c.conn, BindAll(Unbound(sql), binds)))
        && Recorded(Labels("fetch", context, location), false, elapsed)
        && trace == old(trace) + [Increment(Labels("fetch", context, location))]
      ensures c.Resolve? ==>
        && out == Completed(TimedResult(Fetch, c, BindAll(Unbound(sql), binds), driver))
        && Recorded(Labels("fetch", context, location), Connects(c), elapsed)
        && TimedTrace(Fetch, Labels("fetch", context, location), c, BindAll(Unbound(sql), binds), elapsed)
    {
      out := QueryAsRaw(Fetch, context, location, c, sql, binds, driver, elapsed);
    }

    /** `sql_fetch_all!`: the timed form, labelled "fetch_all". */
    method SqlFetchAll<R>(context: string, location: string, c: ConnArg,
                          sql: string, binds: seq<Value>, driver: Driver<R>, elapsed: nat)
      returns (res: GlobalResult<R>)
      requires Valid()
      modifies this
      ensures Valid()
      ensures Recorded(Labels("fetch_all", context, location), Connects(c), elapsed)
      ensures TimedTrace(FetchAll, Labels("fetch_all", context, location), c, BindAll(Unbound(sql), binds), elapsed)
      ensures res == TimedResult(FetchAll, c, BindAll(Unbound(sql), binds), driver)
    {
      res := QueryAs(FetchAll, context, location, c, sql, binds, driver, elapsed);
    }

    /** `sql_fetch_many!`: the timed form, labelled "fetch_many". */
    method SqlFetchMany<R>(context: string, location: string, c: ConnArg,
                           sql: string, binds: seq<Value>, driver: Driver<R>, elapsed: nat)
      returns (res: GlobalResult<R>)
      requires Valid()
      modifies this
      ensures Valid()
      ensures Recorded(Labels("fetch_many", context, location), Connects(c), elapsed)
      ensures TimedTrace(FetchMany, Labels("fetch_many", context, location), c, BindAll(Unbound(sql), binds), elapsed)
      ensures res == TimedResult(FetchMany, c, BindAll(Unbound(sql), binds), driver)
    {
      res := QueryAs(FetchMany, context, location, c, sql, binds, driver, elapsed);
    }

    /** `sql_fetch_one!`: the timed form, labelled "fetch_one". */
    method SqlFetchOne<R>(context: string, location: string, c: ConnArg,
                          sql: string, binds: seq<Value>, driver: Driver<R>, elapsed: nat)
      returns (res: GlobalResult<R>)
      requires Valid()
      modifies this
      ensures Valid()
      ensures Recorded(Labels("fetch_one", context, location), Connects(c), elapsed)
      ensures TimedTrace(FetchOne, Labels("fetch_one", context, location), c, BindAll(Unbound(sql), binds), elapsed)
      ensures res == TimedResult(FetchOne, c, BindAll(Unbound(sql), binds), driver)
    {
      res := QueryAs(FetchOne, context, location, c, sql, binds, driver, elapsed);
    }

    /** `sql_fetch_optional!`: the timed form, labelled "fetch_optional". */
    method SqlFetchOptional<R>(context: string, location: string, c: ConnArg,
                               sql: string, binds: seq<Value>, driver: Driver<R>, elapsed: nat)
      returns (res: GlobalResult<R>)
      requires Valid()
      modifies this
      ensures Valid()
      ensures Recorded(Labels("fetch_optional", context, location), Connects(c), elapsed)
      ensures TimedTrace(FetchOptional, Labels("fetch_optional", context, location), c, BindAll(Unbound(sql), binds), elapsed)
      ensures res == TimedResult(FetchOptional, c, BindAll(Unbound(sql), binds), driver)
    {
      res := QueryAs(FetchOptional, context, location, c, sql, binds, driver, elapsed);
    }
  }

  /** What `Recorded` means per series: the invocation's counter rose by
      exactly one; its histogram grew by exactly the one elapsed time when
      observed and is unchanged otherwise; every other series is unchanged. */
  twostate lemma RecordedSeries(r: Registry, l: Labels, observed: bool, elapsed: nat, m: Labels)
    requires r.Recorded(l, observed, elapsed)
    ensures r.Count(l) == old(r.Count(l)) + 1
    ensures observed ==> r.Observations(l) == old(r.Observations(l)) + [elapsed]
    ensures !observed ==> r.Observations(l) == old(r.Observations(l))
    ensures m != l ==> r.Count(m) == old(r.Count(m)) && r.Observations(m) == old(r.Observations(m))
  {
  }

  // Invocations on a fresh registry, seen through the two series they touch.

  /** A timed invocation without a connection whose resolution fails: the
      counter shows it, the histogram does not, and the resolution error is
      returned. */
  method ResolutionFailureCountedNotTimed<R>(context: string, location: string, e: GlobalError,
                                             sql: string, binds: seq<Value>, driver: Driver<R>, elapsed: nat)
    returns (res: GlobalResult<R>, count: nat, observations: seq<nat>)
    ensures res == Err(e) && count == 1 && observations == []
  {
    var r := new Registry();
    res := r.SqlFetchAll(context, location, Resolve(Err(e)), sql, binds, driver, elapsed);
    count := r.Count(Labels("fetch_all", context, location));
    observations := r.Observations(Labels("fetch_all", context, location));
  }

  /** A timed invocation that reaches the driver is counted and timed once,
      whether the driver succeeds or fails, and returns the driver's answer
      with its error converted. */
  method DriverAnswerCountedAndTimed<R>(context: string, location: string, conn: Connection,
                                        sql: string, binds: seq<Value>, driver: Driver<R>, elapsed: nat)
    returns (res: GlobalResult<R>, count: nat, observations: seq<nat>)
    ensures res == IntoGlobal(driver(FetchOne, conn, Query(sql, binds)))
    ensures count == 1 && observations == [elapsed]
  {
    var r := new Registry();
    res := r.SqlFetchOne(context, location, Explicit(conn), sql, binds, driver, elapsed);
    BindAllInOrder(Unbound(sql), binds);
    assert [] + binds == binds;
    count := r.Count(Labels("fetch_one", context, location));
    observations := r.Observations(Labels("fetch_one", context, location));
  }

  /** `sql_fetch` on an explicit connection is counted but never timed, and
      hands back the stream unrun. */
  method ExplicitFetchCountedNotTimed<R>(context: string, location: string, conn: Connection,
                                         sql: string, binds: seq<Value>, driver: Driver<R>, elapsed: nat)
    returns (out: FetchOutcome<R>, count: nat, observations: seq<nat>)
    ensures out == Stream(Pending(Fetch, conn, Query(sql, binds)))
    ensures count == 1 && observations == []
  {
    var r := new Registry();
    out := r.SqlFetch(context, location, Explicit(conn), sql, binds, driver, elapsed);
    BindAllInOrder(Unbound(sql), binds);
    assert [] + binds == binds;
    count := r.Count(Labels("fetch", context, location));
    observations := r.Observations(Labels("fetch", context, location));
  }

  /** Two executions at one call site accumulate in one series: two
      increments and both durations, oldest first; the same site's
      `fetch_all` series stays empty. */
  method RepeatedCallSiteAccumulates<R>(context: string, location: string, conn: Connection,
                                        sql: string, driver: Driver<R>, first: nat, second: nat)
    returns (count: nat, observations: seq<nat>, otherCount: nat)
    ensures count == 2 && observations == [first, second] && otherCount == 0
  {
    var r := new Registry();
    var _ := r.SqlExecute(context, location, Explicit(conn), sql, [], driver, first);
    var _ := r.SqlExecute(context, location, Explicit(conn), sql, [], driver, second);
    count := r.Count(Labels("execute", context, location));
    observations := r.Observations(Labels("execute", context, location));
    otherCount := r.Count(Labels("fetch_all", context, location));
  }
}
