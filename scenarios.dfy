/** Two virtual connections for different tenants over one original
    connection, whose pool hands both runners the same physical connection;
    their queries run one after the other (test/common/RLSConnection.spec.ts,
    "should handle multiple queries for different tenants without
    transaction", with the concurrency taken out). */
module Scenarios {
  import opened Wrappers
  import opened Tenancy
  import opened Postgres
  import opened QueryRunner
  import opened Connection

  /** `new RLSConnection(original, o).createQueryRunner()`; the original
      connection's metadata stays usable for the next virtual connection. */
  method OpenRunner(original: DataSource, o: TenancyModelOptions) returns (runner: RLSPostgresQueryRunner)
    requires WellLinked(original.metadataArena.records, original.entityMetadatas)
    modifies original.metadataArena
    ensures WellLinked(original.metadataArena.records, original.entityMetadatas)
    ensures fresh(runner) && runner.Options() == o
  {
    ghost var before := original.metadataArena.records;
    var connection := new RLSConnection(original, o);
    RewireStaysLinked(before, original.entityMetadatas, connection, original.entityMetadatas);
    runner := connection.CreateQueryRunner();
  }

  /** One whole query through `runner` on a server that accepts set_config:
      three statements, the caller's last, under the runner's own settings,
      which are still in place afterwards. */
  method QueryOnce(runner: RLSPostgresQueryRunner, databaseConnection: PgConnection, sql: string)
    returns (r: Result<Rows, DbError>)
    requires OptionsLiteralSafe(runner.Options()) && AcceptsSetConfig(databaseConnection.engine)
    modifies databaseConnection
    ensures |databaseConnection.log| == |old(databaseConnection.log)| + 3
    ensures databaseConnection.log[..|old(databaseConnection.log)|] == old(databaseConnection.log)
    ensures var user := databaseConnection.log[|old(databaseConnection.log)| + 2];
            user.sql == sql && CarriesContext(user.context, runner.Options())
    ensures ParseSetConfig(sql).None? ==> CarriesContext(databaseConnection.session, runner.Options())
  {
    ghost var s0 := databaseConnection.session;
    ScopedQueryCompletes(databaseConnection.engine, runner.Options(), s0, sql, None);
    UserStatementSeesOwnContext(databaseConnection.engine, runner.Options(), s0, sql, None);
    if ParseSetConfig(sql).None? {
      ContextOutlivesQuery(databaseConnection.engine, runner.Options(), s0, sql, None);
    }
    r := runner.Query(databaseConnection, sql, None);
  }

  /** Runners for tenants `foo` and `bar`, opened from one original
      connection, query one after the other on the same physical connection:
      each caller's statement runs under its own tenant and actor, and `bar`'s
      settings are left behind on the connection. */
  method TwoTenantsShareOneConnection(original: DataSource, foo: TenancyModelOptions, bar: TenancyModelOptions,
                                      databaseConnection: PgConnection, sql: string)
    requires WellLinked(original.metadataArena.records, original.entityMetadatas)
    requires OptionsLiteralSafe(foo) && OptionsLiteralSafe(bar)
    requires AcceptsSetConfig(databaseConnection.engine)
    modifies original.metadataArena, databaseConnection
    ensures |databaseConnection.log| == |old(databaseConnection.log)| + 6
    ensures databaseConnection.log[|old(databaseConnection.log)| + 2].sql == sql
    ensures databaseConnection.log[|old(databaseConnection.log)| + 5].sql == sql
    ensures CarriesContext(databaseConnection.log[|old(databaseConnection.log)| + 2].context, foo)
    ensures CarriesContext(databaseConnection.log[|old(databaseConnection.log)| + 5].context, bar)
    ensures CarriesContext(databaseConnection.session, bar) || ParseSetConfig(sql).Some?
  {
    var fooRunner := OpenRunner(original, foo);
    var barRunner := OpenRunner(original, bar);

    var fooRows := QueryOnce(fooRunner, databaseConnection, sql);
    var barRows := QueryOnce(barRunner, databaseConnection, sql);
  }
}
