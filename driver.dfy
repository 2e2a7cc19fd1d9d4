/** lib/common/RLSPostgresDriver.ts: a copy of the original PostgresDriver that
    carries a tenant and an actor and hands them to every runner it makes. */
module Driver {
  import opened Tenancy
  import opened Postgres
  import opened QueryRunner

  class RLSPostgresDriver {
    /** Fields copied from the original driver. */
    var connection: object
    var options: ConnectionOptions
    var database: string
    var connectedQueryRunners: seq<object>

    var tenantId: Id
    var actorId: Id

    /** `original` is `connection.driver` of the connection passed to the
        TypeScript constructor. The base constructor's own `connection` and
        `options` are overwritten when the original driver's fields are copied
        in, so only the copy is modelled; the tenant and the actor are assigned
        after the copy and so always come from the options. */
    constructor (original: PostgresDriver, tenancyModelOptions: TenancyModelOptions)
      ensures connection == original.connection && options == original.options
      ensures database == original.database
      ensures connectedQueryRunners == original.connectedQueryRunners
      ensures tenantId == tenancyModelOptions.tenantId && actorId == tenancyModelOptions.actorId
    {
      connection := original.connection;
      options := original.options;
      database := original.database;
      connectedQueryRunners := original.connectedQueryRunners;
      tenantId := tenancyModelOptions.tenantId;
      actorId := tenancyModelOptions.actorId;
    }

    /** A new runner on every call, with this driver's tenant and actor as they
        are now. The driver itself is left as it was: in particular the runner
        is not added to `connectedQueryRunners`. */
    method CreateQueryRunner(mode: ReplicationMode) returns (r: RLSPostgresQueryRunner)
      ensures fresh(r)
      ensures r.driver == this && r.connection == connection && r.mode == mode
      ensures r.Options() == TenancyModelOptions(tenantId, actorId)
    {
      r := new RLSPostgresQueryRunner(this, connection, mode, TenancyModelOptions(tenantId, actorId));
    }
  }
}
