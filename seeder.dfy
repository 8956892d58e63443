/** `seedMongoDB` of cli-tool/src/seed.js: open a client, empty the target
    collection, insert the data, report how many documents were inserted,
    and close the client whatever happened.
    The server is a class whose state is the documents of every collection;
    the client is a class with an open/closed state. What the network and
    the server decide (whether connecting, deleting or inserting fails) is an
    input: `SeedFaults`. */
module SeedDatabase {
  import opened Errors

  /** A collection on the server: database name and collection name. */
  datatype Namespace = Namespace(db: string, collection: string)

  /** An `insertMany` that fails after inserting the first `inserted`
      documents (an ordered bulk insert stops at the first failure). */
  datatype InsertFault = InsertFault(inserted: nat, error: JsError)

  /** Which step of a seeding run fails, if any. */
  datatype SeedFaults = SeedFaults(
    connect: Option<JsError>, deleteMany: Option<JsError>, insertMany: Option<InsertFault>)

  const NoFaults: SeedFaults := SeedFaults(None, None, None)

  function Min(a: nat, b: nat): nat {
    if a <= b then a else b
  }

  /** The database server: the documents of every collection, in insertion
      order. A collection never written to holds no documents. */
  class Cluster<D> {
    var collections: map<Namespace, seq<D>>

    constructor ()
      ensures collections == map[]
    {
      collections := map[];
    }

    function Documents(ns: Namespace): seq<D>
      reads this
    {
      if ns in collections then collections[ns] else []
    }
  }

  /** `new MongoClient(uri)`: a client for the server `uri` designates. */
  class MongoClient<D> {
    const uri: string
    const server: Cluster<D>
    var connected: bool
    var closed: bool

    constructor (uri: string, server: Cluster<D>)
      ensures this.uri == uri && this.server == server
      ensures !connected && !closed
    {
      this.uri := uri;
      this.server := server;
      connected := false;
      closed := false;
    }

    /** `client.connect()`. */
    method Connect(fault: Option<JsError>) returns (r: Outcome<()>)
      requires !closed
      modifies this
      ensures !closed
      ensures fault.None? ==> r == Ok(()) && connected
      ensures fault.Some? ==> r == Fail(fault.value) && connected == old(connected)
    {
      if fault.Some? {
        return Fail(fault.value);
      }
      connected := true;
      return Ok(());
    }

    /** `db.collection(name).deleteMany({})`: the empty filter matches every
        document; the result is how many were deleted. */
    method DeleteMany(ns: Namespace, fault: Option<JsError>) returns (r: Outcome<nat>)
      requires connected && !closed
      modifies server
      ensures fault.None? ==>
        r == Ok(|old(server.Documents(ns))|) && server.collections == old(server.collections)[ns := []]
      ensures fault.Some? ==>
        r == Fail(fault.value) && server.collections == old(server.collections)
    {
      if fault.Some? {
        return Fail(fault.value);
      }
      var count := |server.Documents(ns)|;
      server.collections := server.collections[ns := []];
      return Ok(count);
    }

    /** `db.collection(name).insertMany(docs)`: the documents are appended in
        order; the result is the inserted count. On a failure the documents
        before the failing one stay inserted. */
    method InsertMany(ns: Namespace, docs: seq<D>, fault: Option<InsertFault>) returns (r: Outcome<nat>)
      requires connected && !closed
      modifies server
      ensures fault.None? ==>
        r == Ok(|docs|) &&
        server.collections == old(server.collections)[ns := old(server.Documents(ns)) + docs]
      ensures fault.Some? ==>
        r == Fail(fault.value.error) &&
        server.collections ==
          old(server.collections)[ns := old(server.Documents(ns)) + docs[..Min(fault.value.inserted, |docs|)]]
    {
      var before := server.Documents(ns);
      if fault.Some? {
        server.collections := server.collections[ns := before + docs[..Min(fault.value.inserted, |docs|)]];
        return Fail(fault.value.error);
      }
      server.collections := server.collections[ns := before + docs];
      return Ok(|docs|);
    }

    /** `client.close()`. */
    method Close()
      modifies this
      ensures closed && !connected
    {
      connected := false;
      closed := true;
    }
  }

  /** What a seeding run leaves in the target collection, given what was
      there before. */
  function SeededContents<D>(before: seq<D>, data: seq<D>, faults: SeedFaults): seq<D> {
    if faults.connect.Some? || faults.deleteMany.Some? then before
    else if faults.insertMany.Some? then data[..Min(faults.insertMany.value.inserted, |data|)]
    else data
  }

  /** What a seeding run returns or throws. */
  function SeedResult<D>(data: seq<D>, faults: SeedFaults): Outcome<nat> {
    if faults.connect.Some? then Fail(faults.connect.value)
    else if faults.deleteMany.Some? then Fail(faults.deleteMany.value)
    else if faults.insertMany.Some? then Fail(faults.insertMany.value.error)
    else Ok(|data|)
  }

  /** `seedMongoDB(uri, dbName, collectionName, data)`. The client it creates
      is returned so that its final state can be stated: it is closed on
      every path. Only the target collection changes. */
  method SeedMongoDB<D>(server: Cluster<D>, uri: string, dbName: string, collectionName: string,
                        data: seq<D>, faults: SeedFaults)
    returns (r: Outcome<nat>, client: MongoClient<D>)
    modifies server
    ensures fresh(client) && client.server == server && client.uri == uri
    ensures client.closed && !client.connected
    ensures r == SeedResult(data, faults)
    ensures server.Documents(Namespace(dbName, collectionName)) ==
      SeededContents(old(server.Documents(Namespace(dbName, collectionName))), data, faults)
    ensures faults.connect.Some? || faults.deleteMany.Some? ==>
      server.collections == old(server.collections)
    ensures faults.connect.None? && faults.deleteMany.None? ==>
      server.collections == old(server.collections)[Namespace(dbName, collectionName) :=
        SeededContents(old(server.Documents(Namespace(dbName, collectionName))), data, faults)]
  {
    var ns := Namespace(dbName, collectionName);
    client := new MongoClient(uri, server);
    // try
    var connected := client.Connect(faults.connect);
    if connected.Fail? {
      r := Fail(connected.error);
    } else {
      var deleted := client.DeleteMany(ns, faults.deleteMany);
      if deleted.Fail? {
        r := Fail(deleted.error);
      } else {
        r := client.InsertMany(ns, data, faults.insertMany);
        assert data[..|data|] == data;
      }
    }
    // finally
    client.Close();
  }

  /** Without faults, seeding returns the size of the data and the
      collection holds exactly the data, whatever it held before. */
  lemma SeedReplacesContents<D>(before: seq<D>, data: seq<D>)
    ensures SeedResult(data, NoFaults) == Ok(|data|)
    ensures SeededContents(before, data, NoFaults) == data
  {
  }

  /** Seeding succeeds exactly when no step fails, and a successful run
      leaves exactly the data behind. */
  lemma SeedSucceedsIffNoFault<D>(before: seq<D>, data: seq<D>, faults: SeedFaults)
    ensures SeedResult(data, faults).Ok? <==> faults == NoFaults
    ensures SeedResult(data, faults).Ok? ==> SeededContents(before, data, faults) == data
  {
  }

  /** A failed run leaves either the old contents (connecting or deleting
      failed) or a prefix of the data (inserting failed), never a mixture of
      old and new documents. */
  lemma FailedSeedLeavesOldOrPrefix<D>(before: seq<D>, data: seq<D>, faults: SeedFaults)
    ensures SeededContents(before, data, faults) == before ||
            SeededContents(before, data, faults) <= data
  {
  }

  /** Seeding twice leaves only the second run's data (a re-seed does not
      accumulate documents). */
  lemma ReseedKeepsOnlyNewData<D>(before: seq<D>, first: seq<D>, second: seq<D>)
    ensures SeededContents(SeededContents(before, first, NoFaults), second, NoFaults) == second
  {
  }

  /** Two runs on a shared server: after the second, the collection holds
      only the new data and both clients are closed. */
  method SeedTwice<D>(server: Cluster<D>, uri: string, dbName: string, collectionName: string,
                      first: seq<D>, second: seq<D>)
    returns (count: Outcome<nat>)
    modifies server
    ensures count == Ok(|second|)
    ensures server.Documents(Namespace(dbName, collectionName)) == second
  {
    var _, c1 := SeedMongoDB(server, uri, dbName, collectionName, first, NoFaults);
    var c2;
    count, c2 := SeedMongoDB(server, uri, dbName, collectionName, second, NoFaults);
    assert c1.closed && c2.closed;
  }
}
