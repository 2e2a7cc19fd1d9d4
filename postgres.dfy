/** What the RLS classes stand on, reduced to the parts they touch: one
    physical PostgreSQL connection (its session settings and the statements
    sent on it), the text of a `set_config` call, TypeORM's entity metadata,
    its PostgresDriver and its DataSource. Everything here is outside
    lib/common; it is modelled only at the boundary the RLS classes use. */
module Postgres {
  import opened Wrappers

  /** A query parameter or a column value. */
  datatype Value = Text(s: string) | Int(i: int) | NullValue

  /** `params?: any[]`: absent when the caller passes none. */
  type Params = Option<seq<Value>>

  /** The rows a statement returns; the RLS classes never look inside. */
  datatype Rows = Rows(rows: seq<seq<Value>>)

  datatype DbError = DbError(message: string)

  /** Session-level configuration settings of one physical connection. */
  type Session = map<string, string>

  /** How the server answers a statement, given the settings in effect when it
      runs. Row-level-security evaluation happens inside; it is not modelled. */
  type Engine = (Session, string, Params) -> Result<Rows, DbError>

  /** One statement as sent on the connection, with the session settings it
      was evaluated against. */
  datatype Sent = Sent(sql: string, params: Params, context: Session)

  // ---------------------------------------------------------------------
  // set_config(setting_name, new_value, is_local) with is_local = false
  // (PostgreSQL 15 manual, section 9.27.1): the new value lasts for the rest
  // of the session.

  const SetConfigHead: string := "select set_config('"
  const SetConfigSep: string := "', '"
  const SetConfigTail: string := "', false)"

  /** The statement text built by string interpolation: nothing is escaped. */
  function SetConfigStatement(name: string, value: string): string
  {
    SetConfigHead + (name + (SetConfigSep + (value + SetConfigTail)))
  }

  /** Index of the first single quote of `s`, or `|s|` when it has none. */
  function QuoteIndex(s: string): (i: nat)
    ensures i <= |s|
    ensures forall j :: 0 <= j < i ==> s[j] != '\''
    ensures i < |s| ==> s[i] == '\''
  {
    if s == [] || s[0] == '\'' then 0 else 1 + QuoteIndex(s[1..])
  }

  /** How the server reads a statement of exactly the shape
      `select set_config('<name>', '<value>', false)`: the first quote after
      an opening one ends the literal. Any other text is not a set_config. */
  function ParseSetConfig(sql: string): Option<(string, string)>
  {
    if SetConfigHead <= sql then ParseNameAndValue(sql[|SetConfigHead|..]) else None
  }

  /** `<name>', '<value>', false)` */
  function ParseNameAndValue(rest: string): Option<(string, string)>
  {
    var i := QuoteIndex(rest);
    if SetConfigSep <= rest[i..] then
      match ParseValue(rest[i + |SetConfigSep|..])
      case Some(value) => Some((rest[..i], value))
      case None => None
    else None
  }

  /** `<value>', false)` */
  function ParseValue(tail: string): Option<string>
  {
    var j := QuoteIndex(tail);
    if tail[j..] == SetConfigTail then Some(tail[..j]) else None
  }

  lemma {:induction false} QuoteIndexAfter(a: string, b: string)
    requires '\'' !in a
    requires b != [] && b[0] == '\''
    ensures QuoteIndex(a + b) == |a|
  {
    if a != [] {
      assert (a + b)[1..] == a[1..] + b;
      QuoteIndexAfter(a[1..], b);
    }
  }

  lemma NoQuoteBeforeQuoteIndex(s: string)
    ensures '\'' !in s[..QuoteIndex(s)]
  {
    var p := s[..QuoteIndex(s)];
    assert forall k :: 0 <= k < |p| ==> p[k] == s[k];
  }

  /** A set_config call whose name and value hold no quote is read back as
      exactly that name and value. */
  lemma ParseSetConfigRoundTrip(name: string, value: string)
    requires '\'' !in name && '\'' !in value
    ensures ParseSetConfig(SetConfigStatement(name, value)) == Some((name, value))
  {
    var tail := value + SetConfigTail;
    QuoteIndexAfter(value, SetConfigTail);
    assert tail[|value|..] == SetConfigTail && tail[..|value|] == value;
    assert ParseValue(tail) == Some(value);
    var rest := name + (SetConfigSep + tail);
    QuoteIndexAfter(name, SetConfigSep + tail);
    assert rest[|name|..] == SetConfigSep + tail;
    assert rest[|name| + |SetConfigSep|..] == tail;
    assert rest[..|name|] == name;
    assert ParseNameAndValue(rest) == Some((name, value));
    var sql := SetConfigHead + rest;
    assert sql == SetConfigStatement(name, value);
    assert sql[|SetConfigHead|..] == rest;
  }

  lemma ParseValueSound(tail: string)
    requires ParseValue(tail).Some?
    ensures tail == ParseValue(tail).value + SetConfigTail && '\'' !in ParseValue(tail).value
  {
    var j := QuoteIndex(tail);
    assert tail == tail[..j] + tail[j..];
    NoQuoteBeforeQuoteIndex(tail);
  }

  lemma ParseNameAndValueSound(rest: string)
    requires ParseNameAndValue(rest).Some?
    ensures var parsed := ParseNameAndValue(rest).value;
            && rest == parsed.0 + (SetConfigSep + (parsed.1 + SetConfigTail))
            && '\'' !in parsed.0 && '\'' !in parsed.1
  {
    var i := QuoteIndex(rest);
    var afterName := rest[i..];
    var tail := rest[i + |SetConfigSep|..];
    assert tail == afterName[|SetConfigSep|..];
    ParseValueSound(tail);
    assert afterName == afterName[..|SetConfigSep|] + afterName[|SetConfigSep|..];
    assert afterName == SetConfigSep + tail;
    assert rest == rest[..i] + afterName;
    NoQuoteBeforeQuoteIndex(rest);
  }

  /** Conversely, whatever the server reads as a set_config is the statement
      built from that name and value, and neither holds a quote. */
  lemma ParseSetConfigSound(sql: string)
    requires ParseSetConfig(sql).Some?
    ensures var parsed := ParseSetConfig(sql).value;
            && sql == SetConfigStatement(parsed.0, parsed.1)
            && '\'' !in parsed.0 && '\'' !in parsed.1
  {
    var rest := sql[|SetConfigHead|..];
    ParseNameAndValueSound(rest);
    assert sql == sql[..|SetConfigHead|] + rest;
  }

  /** A value with a quote in it does not survive the trip: without escaping
      the server sees a different statement from the one intended. */
  lemma QuotedValueIsMisread(name: string, value: string)
    requires '\'' in value
    ensures ParseSetConfig(SetConfigStatement(name, value)) != Some((name, value))
  {
    if ParseSetConfig(SetConfigStatement(name, value)) == Some((name, value)) {
      ParseSetConfigSound(SetConfigStatement(name, value));
    }
  }

  /** The session settings after a statement: a successful set_config replaces
      one setting; anything else, and any failed statement, changes none. */
  function SessionAfter(s: Session, sql: string, answer: Result<Rows, DbError>): (r: Session)
    ensures answer.Failure? || ParseSetConfig(sql).None? ==> r == s
    ensures answer.Success? && ParseSetConfig(sql).Some? ==>
              var (name, value) := ParseSetConfig(sql).value;
              && r.Keys == s.Keys + {name} && r[name] == value
              && forall k :: k in s && k != name ==> r[k] == s[k]
  {
    match ParseSetConfig(sql)
    case Some((name, value)) => if answer.Success? then s[name := value] else s
    case None => s
  }

  /** The physical connection a query runner leases from the pool. Statements
      on it run one after another; its settings persist between them. */
  class PgConnection {
    const engine: Engine
    var session: Session
    var log: seq<Sent>

    constructor (engine: Engine)
      ensures this.engine == engine && session == map[] && log == []
    {
      this.engine := engine;
      session := map[];
      log := [];
    }

    /** Sends one statement and waits for its answer. */
    method Query(sql: string, params: Params) returns (r: Result<Rows, DbError>)
      modifies this
      ensures r == engine(old(session), sql, params)
      ensures session == SessionAfter(old(session), sql, r)
      ensures log == old(log) + [Sent(sql, params, old(session))]
    {
      r := engine(session, sql, params);
      log := log + [Sent(sql, params, session)];
      session := SessionAfter(session, sql, r);
    }
  }

  // ---------------------------------------------------------------------
  // TypeORM objects that RLSConnection and RLSPostgresDriver copy.

  datatype ReplicationMode = Master | Slave

  /** Connection options; opaque to the RLS classes. */
  datatype ConnectionOptions = ConnectionOptions(entries: map<string, string>)

  /** A relation of an entity; `entityMetadata` is the arena index of the
      entity metadata object the relation belongs to. */
  datatype RelationMetadata = RelationMetadata(propertyName: string, entityMetadata: nat)

  /** An entity metadata object: its name, its relations and the connection
      that owns it. */
  datatype EntityMetadata = EntityMetadata(name: string, relations: seq<RelationMetadata>, connection: object)

  /** Every entity metadata object there is, addressed by index: an index is
      an object reference, and writing a record is writing into that object. */
  class MetadataArena {
    var records: seq<EntityMetadata>

    constructor (records: seq<EntityMetadata>)
      ensures this.records == records
    {
      this.records := records;
    }
  }

  /** References stay inside the arena: every listed metadata and every
      relation's owning metadata is an object that exists. */
  ghost predicate WellLinked(records: seq<EntityMetadata>, metadatas: seq<nat>)
  {
    && (forall k :: 0 <= k < |metadatas| ==> metadatas[k] < |records|)
    && (forall i, r :: 0 <= i < |records| && r in records[i].relations ==> r.entityMetadata < |records|)
  }

  /** TypeORM's PostgresDriver, by the fields an RLSPostgresDriver copies. */
  class PostgresDriver {
    var connection: object
    var options: ConnectionOptions
    var database: string
    var connectedQueryRunners: seq<object>

    constructor (connection: object, options: ConnectionOptions, database: string)
      ensures this.connection == connection && this.options == options && this.database == database
      ensures connectedQueryRunners == []
    {
      this.connection := connection;
      this.options := options;
      this.database := database;
      connectedQueryRunners := [];
    }
  }

  /** TypeORM's DataSource (the original connection), by the fields an
      RLSConnection copies or rewires. */
  class DataSource {
    var name: string
    var options: ConnectionOptions
    var isInitialized: bool
    var namingStrategy: string
    var migrations: seq<string>
    var subscribers: seq<string>
    const metadataArena: MetadataArena
    var entityMetadatas: seq<nat>
    var driver: PostgresDriver

    constructor (name: string, options: ConnectionOptions, isInitialized: bool,
                 metadataArena: MetadataArena, entityMetadatas: seq<nat>, driver: PostgresDriver)
      ensures this.name == name && this.options == options && this.isInitialized == isInitialized
      ensures namingStrategy == "default" && migrations == [] && subscribers == []
      ensures this.metadataArena == metadataArena && this.entityMetadatas == entityMetadatas
      ensures this.driver == driver
    {
      this.name := name;
      this.options := options;
      this.isInitialized := isInitialized;
      namingStrategy := "default";
      migrations := [];
      subscribers := [];
      this.metadataArena := metadataArena;
      this.entityMetadatas := entityMetadatas;
      this.driver := driver;
    }
  }
}
