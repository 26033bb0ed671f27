/**
 * The resource table of the MongoDB resource manager as a value: a map from a resource id to
 * its record, and the effect of every operation of the manager on that map. The manager class
 * (module ResourceManagers) keeps one such table in a field and each of its methods is specified
 * by one of the functions below.
 */
module ResourceTable {
  import opened Results

  /** An already-built collection handle (a MongoCollection). Only its identity matters. */
  class Collection {}

  /** A connected client (a MongoClient), from which a database and a collection are selected. */
  class Client {}

  /** Connection and driver options, stored as given. */
  type Options = map<string, string>

  /** What the manager remembers about one resource id. */
  datatype Record = Record(
    handle: Option<Collection>,
    server: Option<string>,
    connectionOptions: Options,
    driverOptions: Options,
    database: Option<string>,
    collection: Option<string>)

  /** The record an id has before anything was set for it. */
  const Blank := Record(None, None, map[], map[], None, None)

  /** The `resources` table: at most one record per id. */
  type Table = map<string, Record>

  /** The failures the manager reports. */
  datatype Error =
    | InvalidArgument(typeName: string)   // setResource got neither a collection nor an array
    | UnknownResource(id: string)         // no record for the id
    | ConstructionFailed(cause: string)   // the driver could not connect or select
  {
    /** The manager throws InvalidArgumentException for the first kind and RuntimeException for the others. */
    predicate IsRuntimeException() {
      !InvalidArgument?
    }
  }

  // ---------------------------------------------------------------------------------------------
  // Configuration fields

  /** One configuration field together with the value a setter stores in it. */
  datatype Field =
    | Server(server: string)
    | ConnectionOptions(connectionOptions: Options)
    | DriverOptions(driverOptions: Options)
    | Database(database: string)
    | CollectionName(collection: string)

  datatype FieldKind = ServerKind | ConnectionOptionsKind | DriverOptionsKind | DatabaseKind | CollectionKind

  function Kind(f: Field): FieldKind {
    match f
    case Server(_) => ServerKind
    case ConnectionOptions(_) => ConnectionOptionsKind
    case DriverOptions(_) => DriverOptionsKind
    case Database(_) => DatabaseKind
    case CollectionName(_) => CollectionKind
  }

  /** Whether the getter of `f`'s field, asked about `r`, reports exactly the value `f` carries. */
  predicate Holds(r: Record, f: Field) {
    match f
    case Server(s) => r.server == Some(s)
    case ConnectionOptions(o) => r.connectionOptions == o
    case DriverOptions(o) => r.driverOptions == o
    case Database(s) => r.database == Some(s)
    case CollectionName(s) => r.collection == Some(s)
  }

  /** Two records agree on every configuration field. */
  predicate SameConfig(r: Record, r': Record) {
    && r.server == r'.server
    && r.connectionOptions == r'.connectionOptions
    && r.driverOptions == r'.driverOptions
    && r.database == r'.database
    && r.collection == r'.collection
  }

  /**
   * A field setter on one record: the field then reads back as given (options are replaced,
   * not merged), every other field and the cached handle stay as they were.
   */
  function Assign(r: Record, f: Field): (r': Record)
    ensures Holds(r', f)
    ensures r'.handle == r.handle
    ensures forall g :: Kind(g) != Kind(f) ==> (Holds(r', g) <==> Holds(r, g))
  {
    match f
    case Server(s) => r.(server := Some(s))
    case ConnectionOptions(o) => r.(connectionOptions := o)
    case DriverOptions(o) => r.(driverOptions := o)
    case Database(s) => r.(database := Some(s))
    case CollectionName(s) => r.(collection := Some(s))
  }

  /** The record of `id`, or the blank record when there is none yet. */
  function RecordOf(t: Table, id: string): Record {
    if id in t then t[id] else Blank
  }

  /**
   * setServer, setConnectionOptions, setDriverOptions, setDatabase and setCollection: the record
   * of `id` is created if it is absent, the field reads back as given, and neither the other
   * fields, nor the cached handle, nor any other id's record changes.
   */
  function PutField(t: Table, id: string, f: Field): (t': Table)
    ensures t'.Keys == t.Keys + {id}
    ensures forall other :: other in t && other != id ==> t'[other] == t[other]
    ensures Holds(t'[id], f) && t'[id].handle == RecordOf(t, id).handle
    ensures forall g :: Kind(g) != Kind(f) ==> (Holds(t'[id], g) <==> Holds(RecordOf(t, id), g))
  {
    t[id := Assign(RecordOf(t, id), f)]
  }

  // ---------------------------------------------------------------------------------------------
  // The argument of setResource

  /** A value inside a configuration array: a string, or an array of options. */
  datatype Entry = Text(text: string) | List(options: Options)

  /** What a caller may pass to setResource. */
  datatype Value =
    | CollectionObject(handle: Collection)      // an instance of MongoCollection
    | Array(entries: map<string, Entry>)        // a PHP array of configuration keys
    | Other(typeName: string)                   // any other object or scalar, e.g. a stdClass

  /** The configuration fields a setResource array supplies; `None` where it says nothing. */
  datatype Config = Config(
    server: Option<string>,
    connectionOptions: Option<Options>,
    driverOptions: Option<Options>,
    database: Option<string>,
    collection: Option<string>)

  /** setResource's argument once it has been classified. */
  datatype Setting = UseHandle(handle: Collection) | Configure(config: Config)

  const ServerKey := "server"
  const ConnectionOptionsKey := "connectionOptions"
  const DriverOptionsKey := "driverOptions"
  const DatabaseKey := "database"
  const CollectionKey := "collection"

  /** The keys setResource reads from an array. */
  const RecognisedKeys := {ServerKey, ConnectionOptionsKey, DriverOptionsKey, DatabaseKey, CollectionKey}

  /** The array key that configures a field of kind `k`. */
  function KeyOf(k: FieldKind): string {
    match k
    case ServerKind => ServerKey
    case ConnectionOptionsKind => ConnectionOptionsKey
    case DriverOptionsKind => DriverOptionsKey
    case DatabaseKind => DatabaseKey
    case CollectionKind => CollectionKey
  }

  /** The array entry that sets `f`'s field to `f`'s value. */
  function EntryOf(f: Field): Entry {
    match f
    case Server(s) => Text(s)
    case ConnectionOptions(o) => List(o)
    case DriverOptions(o) => List(o)
    case Database(s) => Text(s)
    case CollectionName(s) => Text(s)
  }

  /** Whether an entry has the shape a field of kind `k` takes: options for the two option fields, text otherwise. */
  predicate Fits(k: FieldKind, e: Entry) {
    if k == ConnectionOptionsKind || k == DriverOptionsKind then e.List? else e.Text?
  }

  /** Whether `c` says something about the field of kind `k`. */
  predicate Touches(c: Config, k: FieldKind) {
    match k
    case ServerKind => c.server.Some?
    case ConnectionOptionsKind => c.connectionOptions.Some?
    case DriverOptionsKind => c.driverOptions.Some?
    case DatabaseKind => c.database.Some?
    case CollectionKind => c.collection.Some?
  }

  /** Whether `c` sets `f`'s field to exactly `f`'s value. */
  predicate Supplies(c: Config, f: Field) {
    match f
    case Server(s) => c.server == Some(s)
    case ConnectionOptions(o) => c.connectionOptions == Some(o)
    case DriverOptions(o) => c.driverOptions == Some(o)
    case Database(s) => c.database == Some(s)
    case CollectionName(s) => c.collection == Some(s)
  }

  function TextAt(m: map<string, Entry>, key: string): Option<string> {
    if key in m && m[key].Text? then Some(m[key].text) else None
  }

  function OptionsAt(m: map<string, Entry>, key: string): Option<Options> {
    if key in m && m[key].List? then Some(m[key].options) else None
  }

  /**
   * The configuration an array supplies: a field is supplied exactly when the array holds its
   * key with a value of the right shape, and then with that value; every other key is ignored.
   */
  function ConfigOf(m: map<string, Entry>): (c: Config)
    ensures forall k :: Touches(c, k) <==> KeyOf(k) in m && Fits(k, m[KeyOf(k)])
    ensures forall f :: Supplies(c, f) <==> KeyOf(Kind(f)) in m && m[KeyOf(Kind(f))] == EntryOf(f)
  {
    Config(TextAt(m, ServerKey), OptionsAt(m, ConnectionOptionsKey), OptionsAt(m, DriverOptionsKey),
           TextAt(m, DatabaseKey), TextAt(m, CollectionKey))
  }

  /**
   * setResource's type check: a collection is used as the handle, an array as configuration,
   * and anything else is refused with InvalidArgumentException naming its type.
   */
  function Decode(v: Value): (r: Result<Setting, Error>)
    ensures r.Failure? <==> v.Other?
    ensures r.Failure? ==> r.error == InvalidArgument(v.typeName) && !r.error.IsRuntimeException()
    ensures v.CollectionObject? ==> r == Success(UseHandle(v.handle))
    ensures v.Array? ==> r == Success(Configure(ConfigOf(v.entries)))
  {
    match v
    case CollectionObject(h) => Success(UseHandle(h))
    case Array(m) => Success(Configure(ConfigOf(m)))
    case Other(name) => Failure(InvalidArgument(name))
  }

  /**
   * A configuration array applied to a record: every field it supplies reads back as supplied,
   * every field it does not mention keeps its value, and the cached handle is dropped so that
   * the next getResource builds a fresh one.
   */
  function Merge(r: Record, c: Config): (r': Record)
    ensures r'.handle.None?
    ensures forall f :: Supplies(c, f) ==> Holds(r', f)
    ensures forall f :: !Touches(c, Kind(f)) ==> (Holds(r', f) <==> Holds(r, f))
  {
    Record(None,
      if c.server.Some? then c.server else r.server,
      c.connectionOptions.GetOr(r.connectionOptions),
      c.driverOptions.GetOr(r.driverOptions),
      if c.database.Some? then c.database else r.database,
      if c.collection.Some? then c.collection else r.collection)
  }

  /**
   * A successful setResource: the record of `id` exists afterwards; a handle replaces only the
   * cached handle, a configuration is merged into the record; no other id's record changes.
   */
  function Install(t: Table, id: string, s: Setting): (t': Table)
    ensures t'.Keys == t.Keys + {id}
    ensures forall other :: other in t && other != id ==> t'[other] == t[other]
    ensures s.UseHandle? ==> t'[id].handle == Some(s.handle) && SameConfig(t'[id], RecordOf(t, id))
    ensures s.Configure? ==> t'[id] == Merge(RecordOf(t, id), s.config)
  {
    match s
    case UseHandle(h) => t[id := RecordOf(t, id).(handle := Some(h))]
    case Configure(c) => t[id := Merge(RecordOf(t, id), c)]
  }

  // ---------------------------------------------------------------------------------------------
  // Building a handle through the driver

  /**
   * The MongoDB driver, which this model does not implement: `connect` opens a client from the
   * server (unset means the driver's default), the connection options and the driver options;
   * `select` picks a database and a collection of a client. Either may fail with a message.
   */
  datatype Driver = Driver(
    connect: (Option<string>, Options, Options) -> Result<Client, string>,
    select: (Client, string, string) -> Result<Collection, string>)

  /**
   * One construction attempt from a record's configuration: one connect with the stored server
   * and options, then one select with the stored names, unset as "". It succeeds exactly when
   * both steps do, with the selected collection; otherwise it fails with the first failure.
   */
  function Build(r: Record, d: Driver): (b: Result<Collection, string>)
    ensures b.Success? <==>
      && d.connect(r.server, r.connectionOptions, r.driverOptions).Success?
      && d.select(d.connect(r.server, r.connectionOptions, r.driverOptions).value,
                  r.database.GetOr(""), r.collection.GetOr("")).Success?
    ensures b.Success? ==>
      b == d.select(d.connect(r.server, r.connectionOptions, r.driverOptions).value,
                    r.database.GetOr(""), r.collection.GetOr(""))
    ensures d.connect(r.server, r.connectionOptions, r.driverOptions).Failure? ==>
      b == Failure(d.connect(r.server, r.connectionOptions, r.driverOptions).error)
    ensures d.connect(r.server, r.connectionOptions, r.driverOptions).Success? && b.Failure? ==>
      b == d.select(d.connect(r.server, r.connectionOptions, r.driverOptions).value,
                    r.database.GetOr(""), r.collection.GetOr(""))
  {
    match d.connect(r.server, r.connectionOptions, r.driverOptions)
    case Failure(e) => Failure(e)
    case Success(client) => d.select(client, r.database.GetOr(""), r.collection.GetOr(""))
  }

  /** What getResource returns, and the table it leaves behind. */
  datatype Fetched = Fetched(result: Result<Collection, Error>, table: Table)

  /**
   * getResource: an unknown id fails with RuntimeException; a cached handle is returned as it is,
   * without asking the driver; otherwise one construction attempt is made, and its handle is
   * cached and returned, or its failure is reported as RuntimeException. A failure never changes
   * the table, and a success changes nothing but the handle of `id`.
   */
  function Fetch(t: Table, id: string, d: Driver): (f: Fetched)
    ensures id !in t ==> f.result == Failure(UnknownResource(id))
    ensures id in t && t[id].handle.Some? ==> f.result == Success(t[id].handle.value)
    ensures id in t && t[id].handle.None? ==>
      match Build(t[id], d)
      case Success(h) => f.result == Success(h)
      case Failure(e) => f.result == Failure(ConstructionFailed(e))
    ensures f.result.Failure? ==> f.result.error.IsRuntimeException() && f.table == t
    ensures f.result.Success? ==>
      && f.table.Keys == t.Keys
      && (forall other :: other in t && other != id ==> f.table[other] == t[other])
      && f.table[id].handle == Some(f.result.value)
      && SameConfig(f.table[id], t[id])
  {
    if id !in t then
      Fetched(Failure(UnknownResource(id)), t)
    else
      match t[id].handle
      case Some(h) => Fetched(Success(h), t)
      case None =>
        match Build(t[id], d)
        case Failure(e) => Fetched(Failure(ConstructionFailed(e)), t)
        case Success(h) => Fetched(Success(h), t[id := t[id].(handle := Some(h))])
  }

  // ---------------------------------------------------------------------------------------------
  // Properties of single operations

  /** A field setter followed by the same field's getter gives back the value set, for every field. */
  lemma SetGetRoundTrip(t: Table, id: string, f: Field)
    ensures id in PutField(t, id, f)
    ensures Holds(PutField(t, id, f)[id], f)
    ensures Kind(f) == ServerKind ==> PutField(t, id, f)[id].server == Some(f.server)
    ensures Kind(f) == ConnectionOptionsKind ==> PutField(t, id, f)[id].connectionOptions == f.connectionOptions
    ensures Kind(f) == DriverOptionsKind ==> PutField(t, id, f)[id].driverOptions == f.driverOptions
    ensures Kind(f) == DatabaseKind ==> PutField(t, id, f)[id].database == Some(f.database)
    ensures Kind(f) == CollectionKind ==> PutField(t, id, f)[id].collection == Some(f.collection)
  {
  }

  /** A handle given to setResource is what getResource returns, the very same object. */
  lemma HandleRoundTrip(t: Table, id: string, h: Collection, d: Driver)
    ensures Fetch(Install(t, id, UseHandle(h)), id, d).result == Success(h)
  {
  }

  /** `setResource(id, ['server' => s])` makes getServer(id) report `s`. */
  lemma ServerArrayRoundTrip(t: Table, id: string, s: string)
    ensures Decode(Array(map[ServerKey := Text(s)])).Success?
    ensures Install(t, id, Decode(Array(map[ServerKey := Text(s)])).value)[id].server == Some(s)
  {
  }

  /** Keys the manager does not recognise make no difference to the configuration. */
  lemma UnknownKeyIgnored(m: map<string, Entry>, key: string, e: Entry)
    requires key !in RecognisedKeys
    ensures ConfigOf(m[key := e]) == ConfigOf(m)
  {
  }

  /** An array with only unknown keys, such as `['foo' => 'bar']`, still creates the record. */
  lemma AnyArrayRegisters(t: Table, id: string, m: map<string, Entry>)
    ensures Decode(Array(m)).Success? && id in Install(t, id, Decode(Array(m)).value)
  {
  }

  /** Asking for the handle again returns the same object and changes nothing. */
  lemma FetchIdempotent(t: Table, id: string, d: Driver, d': Driver)
    requires Fetch(t, id, d).result.Success?
    ensures Fetch(Fetch(t, id, d).table, id, d') == Fetched(Fetch(t, id, d).result, Fetch(t, id, d).table)
  {
  }

  /**
   * A failed construction leaves the record registered with its configuration intact, so the
   * caller may fix the configuration and try again.
   */
  lemma FailedBuildKeepsRecord(t: Table, id: string, d: Driver)
    requires id in t
    requires Fetch(t, id, d).result.Failure?
    ensures Fetch(t, id, d).result.error == ConstructionFailed(Build(t[id], d).error)
    ensures id in Fetch(t, id, d).table && Fetch(t, id, d).table[id] == t[id]
  {
  }
}
