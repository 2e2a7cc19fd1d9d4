/** lib/common/RLSPostgresQueryRunner.ts: a query runner that, before every
    statement, sets the tenant and the actor as session settings of the
    physical connection it runs on. */
module QueryRunner {
  import opened Wrappers
  import opened Tenancy
  import opened Postgres

  const TenantSetting: string := "settings.tenant_id"
  const ActorSetting: string := "settings.actor_id"

  /** The first statement of every query: the server reads it as setting
      the tenant to the id's text, provided that text holds no quote. */
  function TenantStatement(id: Id): (sql: string)
    ensures LiteralSafe(id) ==> ParseSetConfig(sql) == Some((TenantSetting, Render(id)))
  {
    SettingNamesAreLiteralSafe();
    if LiteralSafe(id) then
      ParseSetConfigRoundTrip(TenantSetting, Render(id));
      SetConfigStatement(TenantSetting, Render(id))
    else
      SetConfigStatement(TenantSetting, Render(id))
  }

  /** The second statement of every query, the same for the actor. */
  function ActorStatement(id: Id): (sql: string)
    ensures LiteralSafe(id) ==> ParseSetConfig(sql) == Some((ActorSetting, Render(id)))
  {
    SettingNamesAreLiteralSafe();
    if LiteralSafe(id) then
      ParseSetConfigRoundTrip(ActorSetting, Render(id));
      SetConfigStatement(ActorSetting, Render(id))
    else
      SetConfigStatement(ActorSetting, Render(id))
  }

  /** What one `query` call does to a connection: its answer, the settings it
      leaves behind and the statements it sent, in order. */
  datatype Exchange = Exchange(result: Result<Rows, DbError>, session: Session, sent: seq<Sent>)

  /** `query(queryString, params)` on a connection whose settings are `s`:
      set the tenant, set the actor, then run the caller's statement; a
      failing statement ends the call with its error. */
  function ScopedQuery(e: Engine, o: TenancyModelOptions, s: Session, sql: string, params: Params): (x: Exchange)
    ensures 1 <= |x.sent| <= 3
    ensures x.sent[0] == Sent(TenantStatement(o.tenantId), None, s)
    ensures |x.sent| >= 2 ==> x.sent[1].sql == ActorStatement(o.actorId) && x.sent[1].params == None
    ensures |x.sent| == 3 ==> x.sent[2].sql == sql && x.sent[2].params == params
    ensures var last := x.sent[|x.sent| - 1];
            var answer := e(last.context, last.sql, last.params);
            if |x.sent| == 3 then x.result == answer
            else answer.Failure? && x.result == Failure(answer.error)
    ensures forall k :: 0 <= k < |x.sent| && k < 2 ==>
              (e(x.sent[k].context, x.sent[k].sql, None).Success? <==> k + 1 < |x.sent|)
  {
    var t := TenantStatement(o.tenantId);
    var r1 := e(s, t, None);
    var s1 := SessionAfter(s, t, r1);
    if r1.Failure? then Exchange(Failure(r1.error), s1, [Sent(t, None, s)])
    else
      var a := ActorStatement(o.actorId);
      var r2 := e(s1, a, None);
      var s2 := SessionAfter(s1, a, r2);
      if r2.Failure? then Exchange(Failure(r2.error), s2, [Sent(t, None, s), Sent(a, None, s1)])
      else
        var r3 := e(s2, sql, params);
        Exchange(r3, SessionAfter(s2, sql, r3), [Sent(t, None, s), Sent(a, None, s1), Sent(sql, params, s2)])
  }

  /** The settings `ctx` carry the tenant and the actor of `o`, as text. */
  predicate CarriesContext(ctx: Session, o: TenancyModelOptions)
  {
    && TenantSetting in ctx && ctx[TenantSetting] == Render(o.tenantId)
    && ActorSetting in ctx && ctx[ActorSetting] == Render(o.actorId)
  }

  /** A query that reached the caller's statement ran it under its own
      runner's tenant and actor. */
  predicate SawOwnContext(o: TenancyModelOptions, x: Exchange)
  {
    |x.sent| == 3 ==> CarriesContext(x.sent[2].context, o)
  }

  lemma SettingNamesAreLiteralSafe()
    ensures '\'' !in TenantSetting && '\'' !in ActorSetting && TenantSetting != ActorSetting
  {
    assert TenantSetting[9] != ActorSetting[9];
  }

  /** Whatever settings the connection had before, the caller's statement runs
      with this runner's tenant and actor: both are set right before it. */
  lemma UserStatementSeesOwnContext(e: Engine, o: TenancyModelOptions, s: Session, sql: string, params: Params)
    requires OptionsLiteralSafe(o)
    ensures SawOwnContext(o, ScopedQuery(e, o, s, sql, params))
  {
    SettingNamesAreLiteralSafe();
    ParseSetConfigRoundTrip(TenantSetting, Render(o.tenantId));
    ParseSetConfigRoundTrip(ActorSetting, Render(o.actorId));
  }

  /** Nothing resets the settings: after a query that got through both set
      calls, and whose own statement is not a set_config, the connection still
      carries that query's tenant and actor for whatever runs next on it. */
  lemma ContextOutlivesQuery(e: Engine, o: TenancyModelOptions, s: Session, sql: string, params: Params)
    requires OptionsLiteralSafe(o)
    requires ParseSetConfig(sql).None?
    requires |ScopedQuery(e, o, s, sql, params).sent| == 3
    ensures CarriesContext(ScopedQuery(e, o, s, sql, params).session, o)
  {
    UserStatementSeesOwnContext(e, o, s, sql, params);
  }

  /** A failing set call stops the query before the caller's statement: the
      last statement sent is a set_config, the caller's answer is never asked
      for, and the error is the set call's. */
  lemma SetFailureSkipsStatement(e: Engine, o: TenancyModelOptions, s: Session, sql: string, params: Params)
    requires e(s, TenantStatement(o.tenantId), None).Failure?
             || e(SessionAfter(s, TenantStatement(o.tenantId), e(s, TenantStatement(o.tenantId), None)),
                  ActorStatement(o.actorId), None).Failure?
    ensures var x := ScopedQuery(e, o, s, sql, params);
            && |x.sent| < 3
            && x.result.Failure?
            && (forall k :: 0 <= k < |x.sent| ==> x.sent[k].params == None)
            && x.sent[|x.sent| - 1].sql in {TenantStatement(o.tenantId), ActorStatement(o.actorId)}
  {
  }

  // ---------------------------------------------------------------------
  // Whole query calls from several runners, one after another on one
  // physical connection (what a pool of size one does).

  /** One `query` call: the issuing runner's options, the statement, its params. */
  datatype Call = Call(options: TenancyModelOptions, sql: string, params: Params)

  /** A call run as one whole query from settings `s`. */
  function Run(e: Engine, s: Session, c: Call): Exchange
  {
    ScopedQuery(e, c.options, s, c.sql, c.params)
  }

  /** The settings in effect when call `i` starts: those the calls before it
      left, one after the other. */
  function SessionBefore(e: Engine, s: Session, calls: seq<Call>, i: nat): Session
    requires i <= |calls|
    decreases i
  {
    if i == 0 then s else Run(e, SessionBefore(e, s, calls, i - 1), calls[i - 1]).session
  }

  /** The calls run in order on one connection, each a whole query started
      from the settings the previous one left: each call's exchange. The
      settings left at the end are `SessionBefore(e, s, calls, |calls|)`. */
  function RunAll(e: Engine, s: Session, calls: seq<Call>): seq<Exchange>
  {
    seq(|calls|, i requires 0 <= i < |calls| => Run(e, SessionBefore(e, s, calls, i), calls[i]))
  }

  /** The statements of the exchanges, in the order they were sent. */
  function Flatten(xs: seq<Exchange>): seq<Sent>
  {
    if xs == [] then [] else xs[0].sent + Flatten(xs[1..])
  }

  lemma {:induction false} FlattenLength(xs: seq<Exchange>)
    requires forall i :: 0 <= i < |xs| ==> |xs[i].sent| == 3
    ensures |Flatten(xs)| == 3 * |xs|
  {
    if xs != [] {
      assert forall i :: 0 <= i < |xs[1..]| ==> xs[1..][i] == xs[i + 1];
      FlattenLength(xs[1..]);
    }
  }

  lemma {:induction false} FlattenAt(xs: seq<Exchange>, i: nat)
    requires forall k :: 0 <= k < |xs| ==> |xs[k].sent| == 3
    requires i < |xs|
    ensures 3 * i + 3 <= |Flatten(xs)| && Flatten(xs)[3 * i..3 * i + 3] == xs[i].sent
  {
    FlattenLength(xs);
    var rest := xs[1..];
    assert forall k :: 0 <= k < |rest| ==> rest[k] == xs[k + 1];
    assert Flatten(xs) == xs[0].sent + Flatten(rest);
    if i == 0 {
      assert Flatten(xs)[..3] == xs[0].sent;
    } else {
      FlattenAt(rest, i - 1);
      assert rest[i - 1] == xs[i];
      var a, b := xs[0].sent, Flatten(rest);
      assert (a + b)[3 * i..3 * i + 3] == b[3 * (i - 1)..3 * (i - 1) + 3];
    }
  }

  /** When every exchange sent three statements, exchange i owns positions
      3i, 3i+1 and 3i+2 of the flattened log. */
  lemma FlattenOfTriples(xs: seq<Exchange>)
    requires forall i :: 0 <= i < |xs| ==> |xs[i].sent| == 3
    ensures |Flatten(xs)| == 3 * |xs|
    ensures forall i :: 0 <= i < |xs| ==> Flatten(xs)[3 * i..3 * i + 3] == xs[i].sent
  {
    FlattenLength(xs);
    forall i | 0 <= i < |xs|
      ensures Flatten(xs)[3 * i..3 * i + 3] == xs[i].sent
    {
      FlattenAt(xs, i);
    }
  }

  /** The server accepts every set_config the runners send. */
  ghost predicate AcceptsSetConfig(e: Engine)
  {
    forall s: Session, name: string, value: string :: e(s, SetConfigStatement(name, value), None).Success?
  }

  /** With such a server every query gets to the caller's statement. */
  lemma ScopedQueryCompletes(e: Engine, o: TenancyModelOptions, s: Session, sql: string, params: Params)
    requires AcceptsSetConfig(e)
    ensures |ScopedQuery(e, o, s, sql, params).sent| == 3
  {
    var x := ScopedQuery(e, o, s, sql, params);
    assert e(s, SetConfigStatement(TenantSetting, Render(o.tenantId)), None).Success?;
    if |x.sent| > 1 {
      assert e(x.sent[1].context, SetConfigStatement(ActorSetting, Render(o.actorId)), None).Success?;
    }
  }

  /** Isolation: however the calls of different tenants are ordered on one
      connection, and although nothing resets the settings in between, every
      caller's statement runs under the tenant and actor of its own runner. */
  lemma SequentialIsolation(e: Engine, s: Session, calls: seq<Call>)
    requires forall i :: 0 <= i < |calls| ==> OptionsLiteralSafe(calls[i].options)
    ensures var xs := RunAll(e, s, calls);
            forall i :: 0 <= i < |calls| ==> SawOwnContext(calls[i].options, xs[i])
  {
    var xs := RunAll(e, s, calls);
    forall i | 0 <= i < |calls|
      ensures SawOwnContext(calls[i].options, xs[i])
    {
      UserStatementSeesOwnContext(e, calls[i].options, SessionBefore(e, s, calls, i), calls[i].sql, calls[i].params);
    }
  }

  /** When the server accepts the set calls, n queries send exactly 3n
      statements, and call i owns positions 3i, 3i+1 and 3i+2: its tenant
      set, its actor set and its own statement with its params, with nothing
      in between. */
  lemma ThreeStatementsPerQuery(e: Engine, s: Session, calls: seq<Call>)
    requires AcceptsSetConfig(e)
    ensures var xs := RunAll(e, s, calls);
            && |Flatten(xs)| == 3 * |calls|
            && forall i :: 0 <= i < |calls| ==>
                 && Flatten(xs)[3 * i..3 * i + 3] == xs[i].sent
                 && xs[i].sent[0].sql == TenantStatement(calls[i].options.tenantId)
                 && xs[i].sent[1].sql == ActorStatement(calls[i].options.actorId)
                 && xs[i].sent[2].sql == calls[i].sql && xs[i].sent[2].params == calls[i].params
  {
    var xs := RunAll(e, s, calls);
    forall i | 0 <= i < |calls|
      ensures |xs[i].sent| == 3
      ensures && xs[i].sent[0].sql == TenantStatement(calls[i].options.tenantId)
              && xs[i].sent[1].sql == ActorStatement(calls[i].options.actorId)
              && xs[i].sent[2].sql == calls[i].sql && xs[i].sent[2].params == calls[i].params
    {
      ScopedQueryCompletes(e, calls[i].options, SessionBefore(e, s, calls, i), calls[i].sql, calls[i].params);
    }
    FlattenOfTriples(xs);
  }

  /** The statements the runner's unit tests expect for tenant 1 and actor
      10: the numbers are interpolated as "1" and "10". */
  lemma StatementsForTenantOneActorTen()
    ensures TenantStatement(Num(1)) == SetConfigStatement("settings.tenant_id", "1")
    ensures ActorStatement(Num(10)) == SetConfigStatement("settings.actor_id", "10")
  {
    assert Render(Num(1)) == "1";
    assert NatToDecimal(10) == NatToDecimal(1) + [DigitChar(0)];
    assert Render(Num(10)) == "10";
  }

  class RLSPostgresQueryRunner {
    /** Set by the base PostgresQueryRunner constructor: the driver, the
        driver's connection, and the replication mode. */
    const driver: object
    const connection: object
    const mode: ReplicationMode
    var tenantId: Id
    var actorId: Id

    /** The base constructor reads `connection` off `driver`; the caller passes
        it alongside, because the runner knows its driver only as an object.
        Nothing here ties the two together: `RLSPostgresDriver.CreateQueryRunner`,
        the only caller, passes its own `connection`. */
    constructor (driver: object, connection: object, mode: ReplicationMode, tenancyModelOptions: TenancyModelOptions)
      ensures this.driver == driver && this.connection == connection && this.mode == mode
      ensures tenantId == tenancyModelOptions.tenantId && actorId == tenancyModelOptions.actorId
    {
      this.driver := driver;
      this.connection := connection;
      this.mode := mode;
      tenantId := tenancyModelOptions.tenantId;
      actorId := tenancyModelOptions.actorId;
    }

    function Options(): TenancyModelOptions
      reads this
    {
      TenancyModelOptions(tenantId, actorId)
    }

    /** Replaces the tenant and the actor used by later queries. */
    method SetOptions(tenancyModelOptions: TenancyModelOptions)
      modifies this
      ensures Options() == tenancyModelOptions
    {
      tenantId := tenancyModelOptions.tenantId;
      actorId := tenancyModelOptions.actorId;
    }

    /** `query(queryString, params)` on the physical connection this runner
        has leased: three statements, each awaited before the next. */
    method Query(databaseConnection: PgConnection, queryString: string, params: Params)
      returns (r: Result<Rows, DbError>)
      modifies databaseConnection
      ensures var x := ScopedQuery(databaseConnection.engine, Options(), old(databaseConnection.session), queryString, params);
              && r == x.result
              && databaseConnection.session == x.session
              && databaseConnection.log == old(databaseConnection.log) + x.sent
    {
      ghost var s0, log0 := databaseConnection.session, databaseConnection.log;
      var tenant := TenantStatement(tenantId);
      var tenantSet := databaseConnection.Query(tenant, None);
      if tenantSet.Failure? {
        assert ScopedQuery(databaseConnection.engine, Options(), s0, queryString, params)
            == Exchange(Failure(tenantSet.error), databaseConnection.session, [Sent(tenant, None, s0)]);
        return Failure(tenantSet.error);
      }
      ghost var s1 := databaseConnection.session;
      var actor := ActorStatement(actorId);
      var actorSet := databaseConnection.Query(actor, None);
      if actorSet.Failure? {
        assert ScopedQuery(databaseConnection.engine, Options(), s0, queryString, params)
            == Exchange(Failure(actorSet.error), databaseConnection.session, [Sent(tenant, None, s0), Sent(actor, None, s1)]);
        return Failure(actorSet.error);
      }
      ghost var s2 := databaseConnection.session;
      r := databaseConnection.Query(queryString, params);
      assert ScopedQuery(databaseConnection.engine, Options(), s0, queryString, params)
          == Exchange(r, databaseConnection.session, [Sent(tenant, None, s0), Sent(actor, None, s1), Sent(queryString, params, s2)]);
    }
  }
}
