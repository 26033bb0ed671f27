/**
 * The scenarios of test/Storage/Adapter/MongoDbResourceManagerTest.php, one method each, verified
 * against the manager's contracts. Each starts from a new manager, as the test's setUp does.
 * The connect string, database and collection names the tests read from the environment are
 * parameters, and so is the driver; what the tests expect of a live server is a precondition
 * on the driver.
 */
module ResourceManagerTests {
  import opened Results
  import opened ResourceTable
  import opened ResourceManagers

  method SetResourceAlreadyCreated(resource: Collection, driver: Driver) {
    var manager := new MongoDbResourceManager();
    assert manager.resources == map[];
    var outcome := manager.SetResource("foo", CollectionObject(resource));
    assert outcome == Pass;
    var got := manager.GetResource("foo", driver);
    assert got == Success(resource);
  }

  method SetResourceArray() {
    var manager := new MongoDbResourceManager();
    assert manager.resources == map[];
    var server := "mongodb://test:1234";
    var outcome := manager.SetResource("foo", Array(map[ServerKey := Text(server)]));
    assert outcome == Pass;
    assert Supplies(ConfigOf(map[ServerKey := Text(server)]), Server(server));
    assert manager.GetServer("foo") == Success(Some(server));
  }

  method SetResourceThrowsException() {
    var manager := new MongoDbResourceManager();
    var outcome := manager.SetResource("foo", Other("stdClass"));
    assert outcome.Fail? && outcome.error == InvalidArgument("stdClass");
    assert !outcome.error.IsRuntimeException();
  }

  method HasResourceEmpty() {
    var manager := new MongoDbResourceManager();
    assert !manager.HasResource("foo");
  }

  method HasResourceSet() {
    var manager := new MongoDbResourceManager();
    var outcome := manager.SetResource("foo", Array(map["foo" := Text("bar")]));
    assert manager.HasResource("foo");
  }

  method GetResourceNotSet(driver: Driver) {
    var manager := new MongoDbResourceManager();
    assert !manager.HasResource("foo");
    var got := manager.GetResource("foo", driver);
    assert got.Failure? && got.error.IsRuntimeException();
  }

  method GetResourceInitialized(resource: Collection, driver: Driver) {
    var manager := new MongoDbResourceManager();
    var outcome := manager.SetResource("foo", CollectionObject(resource));
    var got := manager.GetResource("foo", driver);
    assert got == Success(resource);
  }

  method GetResourceNewResource(server: string, database: string, collection: string, driver: Driver)
    requires driver.connect(Some(server), map["connectTimeoutMS" := "5"], map[]).Success?
    requires driver.select(driver.connect(Some(server), map["connectTimeoutMS" := "5"], map[]).value,
                           database, collection).Success?
  {
    var manager := new MongoDbResourceManager();
    manager.SetServer("foo", server);
    manager.SetConnectionOptions("foo", map["connectTimeoutMS" := "5"]);
    manager.SetDatabase("foo", database);
    manager.SetCollection("foo", collection);
    var got := manager.GetResource("foo", driver);
    assert got.Success?;
    // the built handle is cached: asking again gives the same object
    var again := manager.GetResource("foo", driver);
    assert again == got;
  }

  method GetResourceUnknownServerThrowsException(database: string, collection: string, driver: Driver)
    requires driver.connect(Some("mongodb://unknown.unknown"), map["connectTimeoutMS" := "5"], map[]).Failure?
  {
    var manager := new MongoDbResourceManager();
    manager.SetServer("foo", "mongodb://unknown.unknown");
    manager.SetConnectionOptions("foo", map["connectTimeoutMS" := "5"]);
    manager.SetDatabase("foo", database);
    manager.SetCollection("foo", collection);
    var got := manager.GetResource("foo", driver);
    assert got.Failure? && got.error.IsRuntimeException();
    // the record stays registered and readable
    assert manager.HasResource("foo");
    assert manager.GetServer("foo") == Success(Some("mongodb://unknown.unknown"));
  }

  method GetSetCollection() {
    var manager := new MongoDbResourceManager();
    manager.SetCollection("testResource", "testCollection");
    assert manager.GetCollection("testResource") == Success(Some("testCollection"));
  }

  method GetSetConnectionOptions() {
    var manager := new MongoDbResourceManager();
    var options := map["test1" := "option1", "test2" := "option2"];
    manager.SetConnectionOptions("testResource", options);
    assert manager.GetConnectionOptions("testResource") == Success(options);
  }

  method GetSetServer() {
    var manager := new MongoDbResourceManager();
    manager.SetServer("testResource", "testServer");
    assert manager.GetServer("testResource") == Success(Some("testServer"));
  }

  method GetSetDriverOptions() {
    var manager := new MongoDbResourceManager();
    var options := map["test1" := "option1", "test2" := "option2"];
    manager.SetDriverOptions("testResource", options);
    assert manager.GetDriverOptions("testResource") == Success(options);
  }

  method GetSetDatabase() {
    var manager := new MongoDbResourceManager();
    manager.SetDatabase("testResource", "testDatabase");
    assert manager.GetDatabase("testResource") == Success(Some("testDatabase"));
  }
}
