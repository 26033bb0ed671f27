/**
 * Laminas\Cache\Storage\Adapter\MongoDbResourceManager: one mutable `resources` table, updated
 * in place by the setters and by getResource, which caches the handle it builds. Every method
 * is specified by the matching function of module ResourceTable.
 */
module ResourceManagers {
  import opened Results
  import opened ResourceTable

  class MongoDbResourceManager {
    /** The registered resources, by id. */
    var resources: Table

    /** A new manager knows no resource. */
    constructor ()
      ensures resources == map[]
    {
      resources := map[];
    }

    /** hasResource: whether `id` has a record; it never builds anything. */
    function HasResource(id: string): (b: bool)
      reads this
      ensures b <==> id in resources
    {
      id in resources
    }

    /**
     * setResource: a MongoCollection becomes the cached handle of `id`, an array is merged into
     * the configuration of `id`; anything else is refused with InvalidArgumentException and
     * leaves the table as it was.
     */
    method SetResource(id: string, resource: Value) returns (r: Outcome<Error>)
      modifies this
      ensures r.Fail? <==> resource.Other?
      ensures r.Fail? ==> r.error == InvalidArgument(resource.typeName) && resources == old(resources)
      ensures r.Pass? ==> resources == Install(old(resources), id, Decode(resource).value)
    {
      match Decode(resource) {
        case Failure(e) =>
          r := Fail(e);
        case Success(UseHandle(h)) =>
          resources := resources[id := RecordOf(resources, id).(handle := Some(h))];
          r := Pass;
        case Success(Configure(c)) =>
          resources := resources[id := Merge(RecordOf(resources, id), c)];
          r := Pass;
      }
    }

    /**
     * getResource: the cached handle of `id`, or a new one from one connect-and-select attempt
     * through `driver`, cached before it is returned; RuntimeException for an unknown id or a
     * driver failure, which leave the table as it was.
     */
    method GetResource(id: string, driver: Driver) returns (r: Result<Collection, Error>)
      modifies this
      ensures Fetched(r, resources) == Fetch(old(resources), id, driver)
    {
      if id !in resources {
        return Failure(UnknownResource(id));
      }
      var record := resources[id];
      if record.handle.Some? {
        return Success(record.handle.value);
      }
      var client := driver.connect(record.server, record.connectionOptions, record.driverOptions);
      if client.Failure? {
        return Failure(ConstructionFailed(client.error));
      }
      var collection := driver.select(client.value, record.database.GetOr(""), record.collection.GetOr(""));
      if collection.Failure? {
        return Failure(ConstructionFailed(collection.error));
      }
      resources := resources[id := record.(handle := Some(collection.value))];
      r := Success(collection.value);
    }

    /** setServer: creates the record if needed and stores the server as given. */
    method SetServer(id: string, server: string)
      modifies this
      ensures resources == PutField(old(resources), id, Server(server))
    {
      resources := resources[id := RecordOf(resources, id).(server := Some(server))];
    }

    /** getServer: RuntimeException for an unknown id; otherwise the stored server, unset as `None`. */
    function GetServer(id: string): (r: Result<Option<string>, Error>)
      reads this
      ensures id !in resources ==> r == Failure(UnknownResource(id))
      ensures id in resources ==> r == Success(resources[id].server)
    {
      if id in resources then Success(resources[id].server) else Failure(UnknownResource(id))
    }

    /** setConnectionOptions: creates the record if needed and replaces the connection options. */
    method SetConnectionOptions(id: string, options: Options)
      modifies this
      ensures resources == PutField(old(resources), id, ConnectionOptions(options))
    {
      resources := resources[id := RecordOf(resources, id).(connectionOptions := options)];
    }

    /** getConnectionOptions: RuntimeException for an unknown id; otherwise the stored options, empty when unset. */
    function GetConnectionOptions(id: string): (r: Result<Options, Error>)
      reads this
      ensures id !in resources ==> r == Failure(UnknownResource(id))
      ensures id in resources ==> r == Success(resources[id].connectionOptions)
    {
      if id in resources then Success(resources[id].connectionOptions) else Failure(UnknownResource(id))
    }

    /** setDriverOptions: creates the record if needed and replaces the driver options. */
    method SetDriverOptions(id: string, options: Options)
      modifies this
      ensures resources == PutField(old(resources), id, DriverOptions(options))
    {
      resources := resources[id := RecordOf(resources, id).(driverOptions := options)];
    }

    /** getDriverOptions: RuntimeException for an unknown id; otherwise the stored options, empty when unset. */
    function GetDriverOptions(id: string): (r: Result<Options, Error>)
      reads this
      ensures id !in resources ==> r == Failure(UnknownResource(id))
      ensures id in resources ==> r == Success(resources[id].driverOptions)
    {
      if id in resources then Success(resources[id].driverOptions) else Failure(UnknownResource(id))
    }

    /** setDatabase: creates the record if needed and stores the database name as given. */
    method SetDatabase(id: string, database: string)
      modifies this
      ensures resources == PutField(old(resources), id, Database(database))
    {
      resources := resources[id := RecordOf(resources, id).(database := Some(database))];
    }

    /** getDatabase: RuntimeException for an unknown id; otherwise the stored database name, unset as `None`. */
    function GetDatabase(id: string): (r: Result<Option<string>, Error>)
      reads this
      ensures id !in resources ==> r == Failure(UnknownResource(id))
      ensures id in resources ==> r == Success(resources[id].database)
    {
      if id in resources then Success(resources[id].database) else Failure(UnknownResource(id))
    }

    /** setCollection: creates the record if needed and stores the collection name as given. */
    method SetCollection(id: string, collection: string)
      modifies this
      ensures resources == PutField(old(resources), id, CollectionName(collection))
    {
      resources := resources[id := RecordOf(resources, id).(collection := Some(collection))];
    }

    /** getCollection: RuntimeException for an unknown id; otherwise the stored collection name, unset as `None`. */
    function GetCollection(id: string): (r: Result<Option<string>, Error>)
      reads this
      ensures id !in resources ==> r == Failure(UnknownResource(id))
      ensures id in resources ==> r == Success(resources[id].collection)
    {
      if id in resources then Success(resources[id].collection) else Failure(UnknownResource(id))
    }
  }
}
