# MongoDB resource manager of laminas-cache, modelled in Dafny

`Laminas\Cache\Storage\Adapter\MongoDbResourceManager` is a registry of MongoDB collection
handles keyed by a resource id. For each id it keeps one record: an optional, already-built
collection handle, the server, the connection options, the driver options, the database name
and the collection name. Callers register a ready-made `MongoCollection` or a configuration
array with `setResource`, set single fields with `setServer`, `setConnectionOptions`,
`setDriverOptions`, `setDatabase` and `setCollection`, read them back with the matching getters,
ask `hasResource`, and call `getResource`. That call returns the cached handle, or connects
through the MongoDB driver, selects the database and the collection, caches the result and
returns it.

The behaviour modelled is the one that test/Storage/Adapter/MongoDbResourceManagerTest.php
pins down. MongoDbResourceManager.php itself is not part of this model. Where the test leaves
a case open, the model makes its own choice, listed below with its reason.

Files:

- `results.dfy`: module `Results`, with `Option`, `Result` and `Outcome`.
- `resource_table.dfy`: module `ResourceTable`. The `resources` table as a value
  (`map<string, Record>`), and one function for the effect of each manager operation on it:
  `PutField` for the field setters, `Decode` and `Install` for `setResource`, `Fetch` for
  `getResource`. Also the lemmas about single operations.
- `resource_trace.dfy`: module `ResourceTrace`. Sequences of calls (`Run`) and the inductive
  lemmas about them. An id has a record exactly when some call registered it. Records are never lost. A call for one id leaves other ids alone. A
  cached handle survives field setters. A handle is built at most once. The last write of a
  field wins.
- `resource_manager.dfy`: module `ResourceManagers`. The class `MongoDbResourceManager`, whose
  field `resources` the methods update in place. Each mutating method's `ensures` equates the
  new table with the matching `ResourceTable` function applied to the old one.
- `manager_tests.dfy`: module `ResourceManagerTests`. One method per PHPUnit case, asserting
  what that case asserts.

Modelling decisions:

- The collection handle (`MongoCollection`) and the client (`MongoClient`) are empty classes:
  only their identity matters, so PHPUnit's `assertSame` becomes reference equality.
- The driver is a parameter of `getResource`: a `Driver` value of two functions. In a
  sequence of calls (`ResourceTrace.Op`), each getResource carries its own driver, so the
  network may answer differently from one call to the next. `connect` takes
  the server, the connection options and the driver options. `select` takes a client, a
  database name and a collection name. Each returns a `Result`, so an unreachable server is a
  `Failure`. An unset server is passed as `None`, meaning the driver's default. An unset
  database or collection name is passed as `""`.
- The argument of `setResource` is a `Value`: a `CollectionObject`, an `Array` of entries, or
  `Other` (any other object or scalar, such as the test's `stdClass`). `Decode` classifies it
  before the table is touched.
- The recognised array keys are `server`, `connectionOptions`, `driverOptions`, `database` and
  `collection`. A recognised key is taken only when its value has the right shape: text for
  names, an option list for options. Every other key is ignored, because the test at
  test/Storage/Adapter/MongoDbResourceManagerTest.php:85-92 registers `['foo' => 'bar']`
  without an error.
- An array passed to `setResource` is merged into the record: the fields it supplies are
  replaced and the others are kept. It also drops the cached handle, so the next `getResource`
  builds a new one from the new configuration. A handle passed to `setResource` replaces only
  the cached handle. The test only calls `setResource` on a new manager, so merging and
  replacing cannot be told apart there; merging is the choice that keeps the single-field
  setters and the array form consistent (both leave unmentioned fields alone).
- The field setters never drop a cached handle: once built, a handle is reused until an
  accepted `setResource` on the same id. The test never sets a field after a handle exists.
  The model keeps the cache so that `getResource` builds a handle at most once per record
  (`ResourceTrace.BuiltAtMostOnce`) and so that a handle given to `setResource` is returned
  unchanged (test :115-117) whatever fields are set afterwards. Rebuilding after a field change
  is listed under "Left out".
- The exceptions are values of `Error`. `InvalidArgument` stands for InvalidArgumentException.
  `UnknownResource` and `ConstructionFailed` stand for RuntimeException
  (`Error.IsRuntimeException`). `setResource` returns an `Outcome`, not `$this`.
- A getter on an id without a record fails with `UnknownResource`, the same RuntimeException
  that getResource raises for such an id (test :94-102). The test never calls a getter on an
  unknown id; failing is chosen over returning a default so that every accessor treats an
  unknown id alike.

## Model

| member | source | states |
|---|---|---|
| ResourceManagers.MongoDbResourceManager.constructor | test/Storage/Adapter/MongoDbResourceManagerTest.php:36-41 | a new manager's resource table is empty |
| ResourceManagers.MongoDbResourceManager.HasResource | test/Storage/Adapter/MongoDbResourceManagerTest.php:78-92 | true exactly when the id has a record; being a function, it reads the table and never builds a handle |
| ResourceManagers.MongoDbResourceManager.SetResource | test/Storage/Adapter/MongoDbResourceManagerTest.php:39-76 | refuses exactly the non-collection, non-array values with InvalidArgument, leaving the table unchanged; otherwise the new table is `Install` of the decoded setting |
| ResourceManagers.MongoDbResourceManager.GetResource | test/Storage/Adapter/MongoDbResourceManagerTest.php:94-151 | the returned result and the new table are exactly those of `Fetch` on the old table with the given driver |
| ResourceManagers.MongoDbResourceManager.SetServer | test/Storage/Adapter/MongoDbResourceManagerTest.php:171-178 | the new table is `PutField` with the server |
| ResourceManagers.MongoDbResourceManager.GetServer | test/Storage/Adapter/MongoDbResourceManagerTest.php:171-178 | RuntimeException (UnknownResource) for an id without a record; otherwise the stored server, unset as None |
| ResourceManagers.MongoDbResourceManager.SetConnectionOptions | test/Storage/Adapter/MongoDbResourceManagerTest.php:162-169 | the new table is `PutField` with the connection options |
| ResourceManagers.MongoDbResourceManager.GetConnectionOptions | test/Storage/Adapter/MongoDbResourceManagerTest.php:162-169 | UnknownResource for an id without a record; otherwise the stored connection options |
| ResourceManagers.MongoDbResourceManager.SetDriverOptions | test/Storage/Adapter/MongoDbResourceManagerTest.php:180-187 | the new table is `PutField` with the driver options |
| ResourceManagers.MongoDbResourceManager.GetDriverOptions | test/Storage/Adapter/MongoDbResourceManagerTest.php:180-187 | UnknownResource for an id without a record; otherwise the stored driver options |
| ResourceManagers.MongoDbResourceManager.SetDatabase | test/Storage/Adapter/MongoDbResourceManagerTest.php:189-196 | the new table is `PutField` with the database name |
| ResourceManagers.MongoDbResourceManager.GetDatabase | test/Storage/Adapter/MongoDbResourceManagerTest.php:189-196 | UnknownResource for an id without a record; otherwise the stored database name |
| ResourceManagers.MongoDbResourceManager.SetCollection | test/Storage/Adapter/MongoDbResourceManagerTest.php:153-160 | the new table is `PutField` with the collection name |
| ResourceManagers.MongoDbResourceManager.GetCollection | test/Storage/Adapter/MongoDbResourceManagerTest.php:153-160 | UnknownResource for an id without a record; otherwise the stored collection name |
| ResourceTable.Assign | test/Storage/Adapter/MongoDbResourceManagerTest.php:153-196 | after a field setter the field reads back as given; every field of another kind reads back as before; the cached handle is kept |
| ResourceTable.PutField | test/Storage/Adapter/MongoDbResourceManagerTest.php:128-131 | a setter creates the record when absent; the field reads back as given; other fields, the handle and every other id's record are unchanged |
| ResourceTable.ConfigOf | test/Storage/Adapter/MongoDbResourceManagerTest.php:61-66 | an array supplies a field exactly when it holds that field's key with a value of the right shape, and then it supplies that value; nothing else is taken from it |
| ResourceTable.Decode | test/Storage/Adapter/MongoDbResourceManagerTest.php:69-76 | fails exactly for values that are neither a collection nor an array, with InvalidArgument naming the type (not a RuntimeException); a collection becomes the handle; an array becomes its configuration |
| ResourceTable.Merge | test/Storage/Adapter/MongoDbResourceManagerTest.php:61-66 | every field the array supplies reads back as supplied; every field it does not mention keeps its value; the cached handle is dropped |
| ResourceTable.Install | test/Storage/Adapter/MongoDbResourceManagerTest.php:52-66 | an accepted setResource registers the id and leaves other ids alone; a handle changes only the handle; an array is merged into the configuration |
| ResourceTable.Build | test/Storage/Adapter/MongoDbResourceManagerTest.php:108-113 | one connect with the stored server (unset as None) and options, then one select with the stored database and collection names (unset as ""); succeeds exactly when both steps do, with the selected collection; otherwise the first failure is the result |
| ResourceTable.Fetch | test/Storage/Adapter/MongoDbResourceManagerTest.php:94-151 | an unknown id gives UnknownResource; a cached handle is returned as is; otherwise the driver's handle is returned, or its failure as ConstructionFailed; a failure is a RuntimeException and leaves the table unchanged; a success registers the returned handle for the id and changes nothing else |
| ResourceTable.SetGetRoundTrip | test/Storage/Adapter/MongoDbResourceManagerTest.php:153-196 | for each of the five fields, `setX(id, v)` then `getX(id)` gives `v` |
| ResourceTable.HandleRoundTrip | test/Storage/Adapter/MongoDbResourceManagerTest.php:52-54 | after `setResource(id, h)` with a collection, `getResource(id)` returns that same object `h`, whatever the driver |
| ResourceTable.ServerArrayRoundTrip | test/Storage/Adapter/MongoDbResourceManagerTest.php:61-66 | `setResource(id, ['server' => s])` is accepted, and afterwards the stored server is `s` |
| ResourceTable.UnknownKeyIgnored | test/Storage/Adapter/MongoDbResourceManagerTest.php:89 | adding an unrecognised key to an array does not change the configuration it supplies |
| ResourceTable.AnyArrayRegisters | test/Storage/Adapter/MongoDbResourceManagerTest.php:85-92 | every array, even `['foo' => 'bar']`, is accepted and registers the id |
| ResourceTable.FetchIdempotent | test/Storage/Adapter/MongoDbResourceManagerTest.php:115-117 | after a successful getResource, asking again, with any driver, returns the same object and changes nothing |
| ResourceTable.FailedBuildKeepsRecord | test/Storage/Adapter/MongoDbResourceManagerTest.php:136-151 | a failed construction is ConstructionFailed carrying the driver's failure, and the record stays registered and unchanged |
| ResourceTrace.RecordsPersist | test/Storage/Adapter/MongoDbResourceManagerTest.php:85-92 | once an id has a record, it has one after any sequence of calls |
| ResourceTrace.SetterRegisters | test/Storage/Adapter/MongoDbResourceManagerTest.php:128-131 | after any sequence containing a field setter or an accepted setResource for an id, hasResource(id) holds |
| ResourceTrace.OthersUntouched | test/Storage/Adapter/MongoDbResourceManagerTest.php:78-83 | calls that name other ids neither create, change nor remove the id's record |
| ResourceTrace.NeverRegistered | test/Storage/Adapter/MongoDbResourceManagerTest.php:78-83 | an id without a record stays without one through every sequence of calls none of which registers it (refused setResource and getResource calls on the id included) |
| ResourceTrace.RegisteredExactly | test/Storage/Adapter/MongoDbResourceManagerTest.php:78-92 | after any sequence of calls, hasResource(id) holds exactly when the id had a record at the start or some call registered it |
| ResourceTrace.UnregisteredIdUnknown | test/Storage/Adapter/MongoDbResourceManagerTest.php:94-102 | on a new manager, after calls none of which registers the id, the id has no record and getResource fails with UnknownResource |
| ResourceTrace.RefusedThenFetchedStaysUnknown | test/Storage/Adapter/MongoDbResourceManagerTest.php:69-102 | on a new manager, a refused `setResource("foo", stdClass)` followed by `getResource("foo")` leaves "foo" unknown |
| ResourceTrace.HandleSticky | test/Storage/Adapter/MongoDbResourceManagerTest.php:115-117 | a cached handle survives every sequence of calls without an accepted setResource on that id |
| ResourceTrace.BuiltAtMostOnce | test/Storage/Adapter/MongoDbResourceManagerTest.php:120-134 | after one successful getResource, a later getResource before an accepted setResource on the id returns the same object, whatever drivers the intermediate calls and the later call are given |
| ResourceTrace.FieldKept | test/Storage/Adapter/MongoDbResourceManagerTest.php:153-196 | a field keeps its value through every sequence of calls that does not write that field of that id |
| ResourceTrace.LastWriteWins | test/Storage/Adapter/MongoDbResourceManagerTest.php:153-196 | `setX(id, v)` followed by calls that do not write X of the id leaves getX(id) giving `v` |

## Left out

- The MongoDB driver and the network: `new MongoClient(...)`, `selectCollection` and the
  connection attempt are the `Driver` parameter. The model does not say which servers are
  reachable.
- Connect timeouts such as `connectTimeoutMS`: these belong to the driver. Option values are
  strings in a `map<string, string>` and are stored as given. PHP's integer option values are
  written as strings.
- The environment-variable and extension checks in `setUp`, and the PHP version check that
  picks `Mongo` or `MongoClient`: these are host concerns.
- PHPUnit's reflection on the `resources` attribute (`assertAttributeEmpty`): the table field
  is read directly, as `resources == map[]`.
- Locking and concurrent access: every call is modelled as one atomic step.
- The cache-storage adapter that uses the handle: it is not part of this model.
- Rebuilding a cached handle after a field setter: the model keeps the cached handle until an
  accepted `setResource` on the id, so changing the server of an id whose handle was built
  has no effect on the handle.
- Removing a record: the manager's surface here has no such operation, so records are never
  dropped (`ResourceTrace.RecordsPersist`).
- A recognised array key whose value has the wrong shape is ignored, because the test leaves
  that case open. For example, `server` may hold an option list.
