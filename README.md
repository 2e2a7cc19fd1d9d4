# Row-level security over a shared TypeORM Postgres connection

This project models the tenant-scoping core of the `rls` library. A
*virtual connection* (`RLSConnection`) is made per tenant over one shared,
original TypeORM connection. It copies the original's fields, records a
tenant id and an actor id, and rewires the entity metadata so that it
belongs to the virtual connection. It also builds its own driver,
`RLSPostgresDriver`. The driver hands every new query runner
(`RLSPostgresQueryRunner`) those ids. Every `query(sql, params)` on a
runner sends three statements on the physical connection it has leased:

- `select set_config('settings.tenant_id', '<tenant>', false)`;
- the same call for `settings.actor_id`;
- the caller's statement with its params, whose answer is returned.

The row-level-security policies that read these settings are not part of
lib/; the only policies in the repository (test/util/helpers.ts:221-229)
read `rls.tenant_id` and `rls.actor_id` and belong to another version of
the library.

Modules, one per source file plus the collaborators they stand on:

| module | file | models |
|---|---|---|
| `Wrappers` | wrappers.dfy | `Option`, `Result` and `Outcome` |
| `Tenancy` | tenancy.dfy | `TenantId`/`ActorId` as `Str \| Num \| Null`, and template-literal interpolation (`Render`) |
| `Postgres` | postgres.dfy | the leased physical connection (`PgConnection`: session settings and a statement log), the text of a `set_config` call and the model's reader of it, TypeORM's entity metadata arena, its `PostgresDriver` and its `DataSource` |
| `QueryRunner` | query_runner.dfy | `RLSPostgresQueryRunner` and the three-statement protocol (`ScopedQuery`) |
| `Driver` | driver.dfy | `RLSPostgresDriver` |
| `Connection` | connection.dfy | `RLSConnection` and the metadata rewiring |
| `Scenarios` | scenarios.dfy | two tenants' virtual connections sharing one physical connection |

The database server is a parameter of type `Engine`. It is a function from
the session settings in force, the statement text and the params to a
result. A successful `set_config('<name>', '<value>', false)` changes the
session (`SessionAfter`): the third argument `false` makes the value last
for the session once its transaction commits, not just to the end of the
transaction. Section 9.27.1 of the PostgreSQL 15 manual ("Configuration
Settings Functions") defines this. Outside an explicit transaction, which
is the only case modelled, each statement commits on its own.
The ids are interpolated into the statement text without escaping.
`ParseSetConfig` is the model's reader of such a text. It recognises only
literals without quotes: the first quote after an opening one ends the
literal. So isolation holds for ids whose rendering has no single quote
(`LiteralSafe`), and `QuotedValueIsMisread` shows the failure for the
rest.

The entity metadata objects live in an arena: a sequence of records with
`name`, `relations` and `connection` (the owner). An index into it is an
object reference. The constructor of `RLSConnection` writes
`connection: this` into the metadata object each relation belongs to
(lib/common/RLSConnection.ts:44). These are objects of the *original*
connection, so the model states exactly which old records change owner
(`RewireKeeps`). It does not claim the original is left untouched.

The model follows the code:

- the code sends no context-reset statement, so the settings outlive the
  query (`ContextOutlivesQuery`);
- it has no transaction or stream handling of its own;
- it does not override `destroy`;
- `close` fails with the message in the code.

## Model

| member | source | states |
|---|---|---|
| Tenancy.Render | lib/common/RLSPostgresQueryRunner.ts:30-33 | `${id}` interpolation: a string id is its own text, `null` is `"null"`, and a number is non-empty, starts with `-` exactly when negative, and holds no quote |
| Tenancy.RenderNumIsDecimal | lib/interfaces/tenant-options.interface.ts:1-2 | a numeric id renders as an optional `-` followed by the decimal numeral of its magnitude, with no leading zero |
| Tenancy.RenderNumInjective | lib/interfaces/tenant-options.interface.ts:1-2 | distinct numeric ids render to distinct texts, so distinct tenants give distinct setting values |
| Tenancy.NatToDecimalIsDecimal | lib/interfaces/tenant-options.interface.ts:1-2 | the numeral of n is non-empty, all digits, denotes n, and starts with 0 only for 0 |
| Tenancy.NatToDecimalNoQuote | lib/common/RLSPostgresQueryRunner.ts:30 | a decimal numeral holds no single quote |
| Tenancy.NonStringIsLiteralSafe | lib/common/RLSPostgresQueryRunner.ts:30-33 | a number or `null` id can never close the SQL literal it is interpolated into; only a string id can |
| Tenancy.RenderConflatesTypes | lib/common/RLSPostgresQueryRunner.ts:30-33 | interpolation forgets the id's type: `"1"` and `1` give the same setting, as do `"null"` and `null` |
| Postgres.ParseSetConfigRoundTrip | lib/common/RLSPostgresQueryRunner.ts:29-34 | a set_config statement whose name and value hold no quote is read by the model's reader as exactly that name and value |
| Postgres.ParseValueSound | lib/common/RLSPostgresQueryRunner.ts:30 | a value the model's reader accepts is followed by exactly `', false)` and holds no quote |
| Postgres.ParseNameAndValueSound | lib/common/RLSPostgresQueryRunner.ts:30 | a name and value the model's reader accepts are exactly the text between the statement's quotes, and hold no quote |
| Postgres.ParseSetConfigSound | lib/common/RLSPostgresQueryRunner.ts:29-34 | whatever the model's reader accepts as a set_config is the statement built from that name and value |
| Postgres.QuotedValueIsMisread | lib/common/RLSPostgresQueryRunner.ts:29-34 | an id whose text holds a quote is not set as itself, because nothing is escaped |
| Postgres.SessionAfter | lib/common/RLSPostgresQueryRunner.ts:29-34 | a failed statement or one that is not a set_config leaves the settings as they were; a successful set_config adds or replaces exactly its one setting and keeps every other |
| Postgres.PgConnection.Query | lib/common/RLSPostgresQueryRunner.ts:29-36 | `super.query`: the statement is answered under the settings in force, appended to the log with them, and a successful set_config updates exactly one setting |
| QueryRunner.TenantStatement | lib/common/RLSPostgresQueryRunner.ts:29-31 | the first statement sets `settings.tenant_id`: for a quote-free id the model's reader reads exactly that name and the id's text |
| QueryRunner.ActorStatement | lib/common/RLSPostgresQueryRunner.ts:32-34 | the second statement sets `settings.actor_id` to the actor's text in the same way |
| QueryRunner.ScopedQuery | lib/common/RLSPostgresQueryRunner.ts:28-37 | one query sends tenant-set, then actor-set with no params, then the caller's sql and params; a set call fails exactly when the query stops there with that error; otherwise the result is the caller's statement's answer |
| QueryRunner.SettingNamesAreLiteralSafe | lib/common/RLSPostgresQueryRunner.ts:30-33 | the two setting names hold no quote and differ |
| QueryRunner.UserStatementSeesOwnContext | lib/common/RLSPostgresQueryRunner.ts:28-37 | from any prior settings, the caller's statement runs with the runner's tenant and actor |
| QueryRunner.ContextOutlivesQuery | lib/common/RLSPostgresQueryRunner.ts:29-34 | after a completed query whose statement is not a set_config, the connection still carries that runner's tenant and actor: nothing resets them |
| QueryRunner.SetFailureSkipsStatement | lib/common/RLSPostgresQueryRunner.ts:28-36 | when a set call fails, fewer than three statements are sent, all without params, the last is a set_config, and the query fails |
| QueryRunner.ScopedQueryCompletes | lib/common/RLSPostgresQueryRunner.ts:28-37 | on a server that accepts set_config, every query sends all three statements |
| QueryRunner.FlattenOfTriples | test/common/Repository.spec.ts:418 | when every query sent three statements, the log of n queries has 3n entries and query i owns entries 3i to 3i+2 |
| QueryRunner.SequentialIsolation | test/common/RLSConnection.spec.ts:451-492 | runners of any tenants taking turns on one connection: every caller's statement sees its own runner's tenant and actor |
| QueryRunner.ThreeStatementsPerQuery | test/common/RLSPostgresQueryRunner.spec.ts:124-144 | n queries send exactly 3n statements; query i's are its tenant-set, its actor-set and its own sql and params, with nothing in between (20 queries, 60 calls) |
| QueryRunner.StatementsForTenantOneActorTen | test/common/RLSPostgresQueryRunner.spec.ts:146-160 | for tenant 1 and actor 10 the set statements carry the values `1` and `10` |
| QueryRunner.RLSPostgresQueryRunner.constructor | lib/common/RLSPostgresQueryRunner.ts:13-21 | the runner keeps its driver, connection and mode, and takes tenant and actor from the options |
| QueryRunner.RLSPostgresQueryRunner.SetOptions | lib/common/RLSPostgresQueryRunner.ts:23-26 | both ids are replaced by the new options; the driver, connection and mode are constants, so nothing else changes |
| QueryRunner.RLSPostgresQueryRunner.Query | lib/common/RLSPostgresQueryRunner.ts:28-37 | the answer, the new session and the appended log entries are those of `ScopedQuery` under the runner's current options |
| Driver.RLSPostgresDriver.constructor | lib/common/RLSPostgresDriver.ts:15-24 | the original driver's fields are copied, then tenant and actor are set from the options after the copy |
| Driver.RLSPostgresDriver.CreateQueryRunner | lib/common/RLSPostgresDriver.ts:26-31 | a fresh runner on each call, serving this driver with the given mode and the driver's current tenant and actor; the driver, and its list of connected runners, are unchanged |
| Connection.MarkOwners | lib/common/RLSConnection.ts:37-46 | exactly the metadata objects some relation belongs to get the new owner; names, relations and every other owner are kept |
| Connection.Rewire | lib/common/RLSConnection.ts:29-52 | the outer forEach on the arena: one copy appended per original metadata; what each copy and each old object then holds is stated by RewireWraps and RewireKeeps |
| Connection.MarkRelationOwners | lib/common/RLSConnection.ts:37-46 | the inner forEach loop: the arena becomes `MarkOwners` of the relations, and the copied relation list equals the original's |
| Connection.WrapStepLinked | lib/common/RLSConnection.ts:31-50 | one wrap-and-mark step keeps every reference inside the arena |
| Connection.WrapEntityMetadata | lib/common/RLSConnection.ts:32-49 | one outer turn: a copy owned by the new connection is appended, its relations' owners are marked, and its index is returned |
| Connection.WrapEntityMetadatas | lib/common/RLSConnection.ts:29-52 | the outer forEach loop: the arena becomes `Rewire` of the originals, and the new list holds the copies' indices in order |
| Connection.RewireWrapsAt | lib/common/RLSConnection.ts:31-50 | the k-th copy is the k-th original metadata with the same name and relations, owned by the new connection |
| Connection.RewireWraps | lib/common/RLSConnection.ts:29-52 | the same, for every copy: same length, same order, every copy owned by the new connection |
| Connection.TailUnchanged | lib/common/RLSConnection.ts:31-50 | after one step, the metadata still to be visited keep their relations and the arena stays linked |
| Connection.ReferencedStep | lib/common/RLSConnection.ts:31-50 | an old object is referenced by the remaining metadata exactly when the first one's relations own it or the rest, in the updated arena, reference it |
| Connection.RewireKeepsAt | lib/common/RLSConnection.ts:44 | an old metadata object keeps its name and relations, and its owner becomes the new connection exactly when some rewired relation belongs to it |
| Connection.RewireKeeps | lib/common/RLSConnection.ts:44 | the same, for every old object: the original metadata is changed in exactly those places |
| Connection.RewireStaysLinked | lib/common/RLSConnection.ts:29-52 | after rewiring, the arena is still well linked, so the original connection's metadata list can be rewired again |
| Connection.RLSConnection.constructor | lib/common/RLSConnection.ts:17-61 | copied fields equal the original's; tenant and actor come from the options; the metadata is rewired as `Rewire`; a fresh driver carries the same ids and the original driver's fields, and points back to this connection |
| Connection.RLSConnection.CreateQueryRunner | lib/common/RLSConnection.ts:63-65 | a fresh master-mode runner of this connection's driver, whose tenant and actor, for a valid connection, equal the connection's |
| Connection.RLSConnection.Close | lib/common/RLSConnection.ts:67-71 | always fails with the fixed message and changes nothing |
| Scenarios.OpenRunner | lib/common/RLSConnection.ts:17-65 | a virtual connection's runner carries the given options, and the original connection stays usable for the next one |
| Scenarios.QueryOnce | lib/common/RLSPostgresQueryRunner.ts:28-37 | one query appends three log entries, the last being the caller's sql under the runner's settings, which stay in place afterwards |
| Scenarios.TwoTenantsShareOneConnection | test/common/RLSConnection.spec.ts:451-492 | two tenants' queries, one after the other on one connection: each caller's statement runs under its own tenant and actor, and the second tenant's settings are left behind |

## Left out

- The PostgreSQL server and its row-level-security policies are not modelled: `Engine` is a parameter, and only the session effect of a `set_config` of exactly the shape the runner sends is modelled (`SessionAfter`).
- Leasing and releasing a physical connection from the pool (`connect`/`release` of TypeORM's `PostgresQueryRunner`) are not modelled. The leased connection is the `databaseConnection` parameter of `Query`.
- Concurrency is not modelled: `Promise.all`, interleaving within one pool, and random delays. Whole queries run one after another (`RunAll`).
- The rewiring of `relationLoader` and `relationIdLoader`, `createEntityManager` and the `manager` field (lib/common/RLSConnection.ts:23-24, 59-60) are left out. They are TypeORM internals whose behaviour is not visible here.
- The base `Connection` constructor (`super(connection.options)`) and the prototype copying of `Object.assign` are not modelled. Only the copied plain fields appear, as opaque values.
- The copied relations are not separate objects: `RelationMetadata` is a value, so "each relation is a fresh copy" has nothing to say in the model. `MarkRelationOwners` states that the copied list equals the original.
- Connection.MarkRelationOwners: `wrappedRelation.entityMetadata` is the index of the shared object, so the write on line 44 is a write into the arena. The model captures this aliasing through the arena, not through object identity.
- The `connectedQueryRunners` array is a `seq` value, so sharing it by reference with the original driver is not modelled.
- The `= null` field initialisers are not modelled. Every constructor overwrites them before anything can read them.
- Tenancy.Render: only safe integers (|n| <= 2^53 - 1) render as JavaScript does. Beyond that JavaScript numbers are not exact, and from 1e21 up `${n}` prints exponent form (`1e+21`), while `Render` always prints every decimal digit. Exponent form holds no quote either, so isolation is not affected.
- JavaScript numbers are integers here: fractional ids, `NaN` and the like are not modelled. An `undefined` id (rendering `undefined`) is not modelled either.
- Connection.RLSConnection.CreateQueryRunner: the TypeORM `DataSource.createQueryRunner` it calls through `super` is modelled as the driver's `createQueryRunner("master")`, without the `manager` assignment.
- QueryRunner.UserStatementSeesOwnContext, QueryRunner.SequentialIsolation, QueryRunner.ContextOutlivesQuery, Scenarios.QueryOnce, Scenarios.TwoTenantsShareOneConnection: these require `LiteralSafe` ids, because the code interpolates ids without escaping. For other ids isolation does not hold (`QuotedValueIsMisread`).
- Postgres.ParseSetConfig: PostgreSQL reads a doubled quote `''` inside a literal as one escaped quote, and the model's reader does not. For the tenant id `a''b` PostgreSQL sets `a'b`, while `ParseSetConfig` returns `None` and `SessionAfter` leaves the session unchanged. `ParseValueSound`, `ParseNameAndValueSound` and `ParseSetConfigSound` are statements about the model's reader.
- Scenarios.TwoTenantsShareOneConnection: the final-session claim holds only when the caller's own statement is not itself a `set_config`.
- QueryRunner.ContextOutlivesQuery: the code sends no reset statement, so the settings outlive the query.
- The NestJS module and provider (lib/rls.module.ts, lib/rls.provider.ts) are left out: they are dependency-injection wiring.
- Some tests assert behaviour the code does not have, and those assertions are not modelled:
  - four statements per query, and `set "rls.tenant_id"` (test/util/helpers.ts);
  - a close message matching `/Cannot close virtual connection/`;
  - `destroy` throwing.
- Transactions and streams are left out: lib/ has no handling of its own for them and never sends a reset. In particular, a `query` run inside an explicit transaction that is later rolled back has its `set_config` values undone by PostgreSQL; `SessionAfter` keeps them.
