/** The seeder's environment check (`loadEnv`) and its verbose listing of the
    loaded variables (`displayEnvironmentVariables`), cli-tool/src/seed.js. */
module SeedEnv {
  import opened Errors

  /** The process environment: a variable is either absent or holds a string. */
  type Env = map<string, string>

  /** The five variables the seeder needs. */
  datatype Var = MongoUri | DbName | CollectionName | MongoUsername | MongoPassword

  function Name(v: Var): string {
    match v
    case MongoUri => "MONGO_URI"
    case DbName => "DB_NAME"
    case CollectionName => "COLLECTION_NAME"
    case MongoUsername => "MONGO_USERNAME"
    case MongoPassword => "MONGO_PASSWORD"
  }

  /** The order in which `loadEnv` checks the variables. */
  const RequiredVars: seq<Var> := [MongoUri, DbName, CollectionName, MongoUsername, MongoPassword]

  const MissingPrefix: string := "Missing required environment variables: "

  /** JavaScript falsiness of `process.env[key]`: undefined or the empty string. */
  predicate IsMissing(env: Env, key: string) {
    key !in env || env[key] == ""
  }

  /** The value of a variable, read only once it is known to be present. */
  function Get(env: Env, key: string): string {
    if key in env then env[key] else ""
  }

  /** The object `loadEnv` returns. */
  datatype EnvVars = EnvVars(
    mongoUri: string, dbName: string, collectionName: string,
    mongoUsername: string, mongoPassword: string)

  /** Reference definition: the names of the missing variables of `vars`,
      in the order of `vars`. */
  function MissingNames(env: Env, vars: seq<Var>): seq<string> {
    if vars == [] then []
    else
      MissingNames(env, vars[..|vars| - 1]) +
      (if IsMissing(env, Name(vars[|vars| - 1])) then [Name(vars[|vars| - 1])] else [])
  }

  /** `Array.prototype.join`: the parts with `sep` between neighbours. */
  function Join(parts: seq<string>, sep: string): string {
    if |parts| == 0 then ""
    else if |parts| == 1 then parts[0]
    else parts[0] + sep + Join(parts[1..], sep)
  }

  function MissingMessage(missing: seq<string>): string {
    MissingPrefix + Join(missing, ", ")
  }

  /** The first half of `loadEnv`: the five checks, one per variable in the
      fixed order, each pushing the name of a missing variable. */
  method CollectMissing(env: Env) returns (missingVars: seq<string>)
    ensures missingVars == MissingNames(env, RequiredVars)
  {
    missingVars := [];
    var i := 0;
    while i < |RequiredVars|
      invariant 0 <= i <= |RequiredVars|
      invariant missingVars == MissingNames(env, RequiredVars[..i])
    {
      var v := RequiredVars[i];
      MissingNamesSnoc(env, RequiredVars[..i], v);
      assert RequiredVars[..i] + [v] == RequiredVars[..i + 1];
      if IsMissing(env, Name(v)) {
        missingVars := missingVars + [Name(v)];
      }
      i := i + 1;
    }
    assert RequiredVars[..i] == RequiredVars;
  }

  /** `loadEnv`: throw when any variable is missing, naming them all,
      otherwise return the five values. */
  method LoadEnv(env: Env) returns (r: Outcome<EnvVars>)
    ensures r.Fail? <==> exists v: Var :: IsMissing(env, Name(v))
    ensures r.Fail? ==>
      r.error == JsError(PlainError, MissingMessage(MissingNames(env, RequiredVars)))
    ensures r.Ok? ==> forall v: Var :: Name(v) in env && env[Name(v)] != ""
    ensures r.Ok? ==>
      r.value == EnvVars(Get(env, "MONGO_URI"), Get(env, "DB_NAME"),
                         Get(env, "COLLECTION_NAME"), Get(env, "MONGO_USERNAME"),
                         Get(env, "MONGO_PASSWORD"))
  {
    var missingVars := CollectMissing(env);
    MissingNamesExactly(env, RequiredVars);
    EveryVarRequired();
    if |missingVars| > 0 {
      return Fail(JsError(PlainError, MissingMessage(missingVars)));
    }
    return Ok(EnvVars(Get(env, "MONGO_URI"), Get(env, "DB_NAME"),
                      Get(env, "COLLECTION_NAME"), Get(env, "MONGO_USERNAME"),
                      Get(env, "MONGO_PASSWORD")));
  }

  /** One more check appends that variable's contribution. */
  lemma MissingNamesSnoc(env: Env, vars: seq<Var>, v: Var)
    ensures MissingNames(env, vars + [v]) ==
      MissingNames(env, vars) + (if IsMissing(env, Name(v)) then [Name(v)] else [])
  {
    assert (vars + [v])[..|vars|] == vars;
  }

  /** A variable of `vars` is listed exactly when it is missing, and nothing
      else is listed. */
  lemma {:induction false} MissingNamesExactly(env: Env, vars: seq<Var>)
    ensures forall v :: v in vars ==> (Name(v) in MissingNames(env, vars) <==> IsMissing(env, Name(v)))
    ensures forall n :: n in MissingNames(env, vars) ==> exists v :: v in vars && n == Name(v)
    ensures MissingNames(env, vars) == [] <==> forall v :: v in vars ==> !IsMissing(env, Name(v))
  {
    if vars != [] {
      var init, last := vars[..|vars| - 1], vars[|vars| - 1];
      MissingNamesExactly(env, init);
      assert vars == init + [last];
      forall v | v in vars
        ensures Name(v) in MissingNames(env, vars) <==> IsMissing(env, Name(v))
      {
        if v != last { assert v in init; }
      }
    }
  }

  /** The names keep the checking order: a listed name comes from an earlier
      variable than every name listed after it. */
  lemma {:induction false} MissingNamesInOrder(env: Env, vars: seq<Var>, i: nat, j: nat)
    requires i < j < |MissingNames(env, vars)|
    ensures exists a, b ::
      0 <= a < b < |vars| && Name(vars[a]) == MissingNames(env, vars)[i] && Name(vars[b]) == MissingNames(env, vars)[j]
  {
    var init, last := vars[..|vars| - 1], vars[|vars| - 1];
    var m, m0 := MissingNames(env, vars), MissingNames(env, init);
    assert m == m0 + (if IsMissing(env, Name(last)) then [Name(last)] else []);
    if j < |m0| {
      MissingNamesInOrder(env, init, i, j);
      var a, b :| 0 <= a < b < |init| && Name(init[a]) == m0[i] && Name(init[b]) == m0[j];
      assert Name(vars[a]) == m[i] && Name(vars[b]) == m[j];
    } else {
      MissingNamesExactly(env, init);
      assert m0[i] in m0;
      var v :| v in init && m0[i] == Name(v);
      var a :| 0 <= a < |init| && init[a] == v;
      assert Name(vars[a]) == m[i] && Name(vars[|vars| - 1]) == m[j];
    }
  }

  /** Every variable is among the checked ones. */
  lemma EveryVarRequired()
    ensures forall v: Var :: v in RequiredVars
  {
    forall v: Var ensures v in RequiredVars {
      match v
      case MongoUri => assert RequiredVars[0] == v;
      case DbName => assert RequiredVars[1] == v;
      case CollectionName => assert RequiredVars[2] == v;
      case MongoUsername => assert RequiredVars[3] == v;
      case MongoPassword => assert RequiredVars[4] == v;
    }
  }

  /** The filter over the first `i + 1` required variables. */
  lemma MissingNamesStep(env: Env, i: nat)
    requires i < |RequiredVars|
    ensures MissingNames(env, RequiredVars[..i + 1]) ==
      MissingNames(env, RequiredVars[..i]) +
      (if IsMissing(env, Name(RequiredVars[i])) then [Name(RequiredVars[i])] else [])
  {
    assert RequiredVars[..i + 1][..i] == RequiredVars[..i];
  }

  /** With only MONGO_URI set, the other four are missing, in order. */
  lemma MissingWhenOnlyUriSet()
    ensures MissingNames(map["MONGO_URI" := "mongodb://test_uri"], RequiredVars)
      == ["DB_NAME", "COLLECTION_NAME", "MONGO_USERNAME", "MONGO_PASSWORD"]
  {
    var env := map["MONGO_URI" := "mongodb://test_uri"];
    var names := ["DB_NAME", "COLLECTION_NAME", "MONGO_USERNAME", "MONGO_PASSWORD"];
    MissingNamesStep(env, 0);
    assert MissingNames(env, RequiredVars[..1]) == [];
    MissingNamesStep(env, 1);
    assert MissingNames(env, RequiredVars[..2]) == names[..1];
    MissingNamesStep(env, 2);
    assert MissingNames(env, RequiredVars[..3]) == names[..2];
    MissingNamesStep(env, 3);
    assert MissingNames(env, RequiredVars[..4]) == names[..3];
    MissingNamesStep(env, 4);
    assert RequiredVars[..5] == RequiredVars;
  }

  /** With only the credentials absent, both are missing, username first. */
  lemma MissingWhenCredentialsAbsent()
    ensures MissingNames(
      map["MONGO_URI" := "mongodb://test_uri", "DB_NAME" := "test_db",
          "COLLECTION_NAME" := "test_collection"], RequiredVars)
      == ["MONGO_USERNAME", "MONGO_PASSWORD"]
  {
    var env := map["MONGO_URI" := "mongodb://test_uri", "DB_NAME" := "test_db",
                    "COLLECTION_NAME" := "test_collection"];
    MissingNamesStep(env, 0);
    assert MissingNames(env, RequiredVars[..1]) == [];
    MissingNamesStep(env, 1);
    assert MissingNames(env, RequiredVars[..2]) == [];
    MissingNamesStep(env, 2);
    assert MissingNames(env, RequiredVars[..3]) == [];
    MissingNamesStep(env, 3);
    assert MissingNames(env, RequiredVars[..4]) == ["MONGO_USERNAME"];
    MissingNamesStep(env, 4);
    assert RequiredVars[..5] == RequiredVars;
  }

  /** Two missing names are joined with a comma and a space. */
  lemma MessageForMissingCredentials()
    ensures MissingMessage(["MONGO_USERNAME", "MONGO_PASSWORD"])
      == "Missing required environment variables: MONGO_USERNAME, MONGO_PASSWORD"
  {
    assert Join(["MONGO_USERNAME", "MONGO_PASSWORD"], ", ") == "MONGO_USERNAME" + ", " + "MONGO_PASSWORD";
  }

  /** The message for a single missing variable carries just its name. */
  lemma MessageForOneMissing()
    ensures MissingMessage(["COLLECTION_NAME"])
      == "Missing required environment variables: COLLECTION_NAME"
  {
  }

  // ---------------------------------------------------------------------
  // displayEnvironmentVariables

  const Header: string := "\nEnvironment Variables:"
  const Rule: string := "====================="
  const Footer: string := "=====================\n"
  const PasswordKey: string := "MONGO_PASSWORD"
  const Mask: string := "********"

  /** The value shown for an entry: the password is masked, nothing else is. */
  function DisplayValue(key: string, value: string): string {
    if key == PasswordKey then Mask else value
  }

  function FormatEntry(entry: (string, string)): string {
    entry.0 + ": " + DisplayValue(entry.0, entry.1)
  }

  /** The entry lines, one per entry, built from the front like the loop. */
  function EntryLines(entries: seq<(string, string)>): seq<string> {
    if entries == [] then []
    else EntryLines(entries[..|entries| - 1]) + [FormatEntry(entries[|entries| - 1])]
  }

  /** Everything `displayEnvironmentVariables` logs, one string per call. */
  function DisplayLines(entries: seq<(string, string)>): seq<string> {
    [Header, Rule] + EntryLines(entries) + [Footer]
  }

  /** The entries of the object `loadEnv` returns, in its property order. */
  function Entries(v: EnvVars): seq<(string, string)> {
    [("MONGO_URI", v.mongoUri), ("DB_NAME", v.dbName),
     ("COLLECTION_NAME", v.collectionName), ("MONGO_USERNAME", v.mongoUsername),
     ("MONGO_PASSWORD", v.mongoPassword)]
  }

  method DisplayEnvironmentVariables(entries: seq<(string, string)>) returns (lines: seq<string>)
    ensures lines == DisplayLines(entries)
  {
    lines := [Header, Rule];
    var i := 0;
    while i < |entries|
      invariant 0 <= i <= |entries|
      invariant lines == [Header, Rule] + EntryLines(entries[..i])
    {
      assert entries[..i + 1][..i] == entries[..i];
      lines := lines + [FormatEntry(entries[i])];
      i := i + 1;
    }
    assert entries[..i] == entries;
    lines := lines + [Footer];
  }

  lemma {:induction false} EntryLinesAt(entries: seq<(string, string)>)
    ensures |EntryLines(entries)| == |entries|
    ensures forall i :: 0 <= i < |entries| ==> EntryLines(entries)[i] == FormatEntry(entries[i])
  {
    if entries != [] {
      var init := entries[..|entries| - 1];
      EntryLinesAt(init);
      forall i | 0 <= i < |entries|
        ensures EntryLines(entries)[i] == FormatEntry(entries[i])
      {
        if i < |init| { assert init[i] == entries[i]; }
      }
    }
  }

  /** The shape of the listing: a header, a rule, one `key: value` line per
      entry in entry order with only the password masked, a closing rule. */
  lemma DisplayShape(entries: seq<(string, string)>)
    ensures |DisplayLines(entries)| == |entries| + 3
    ensures DisplayLines(entries)[0] == "\nEnvironment Variables:"
    ensures DisplayLines(entries)[1] == "====================="
    ensures DisplayLines(entries)[|entries| + 2] == "=====================\n"
    ensures forall i :: 0 <= i < |entries| ==>
      DisplayLines(entries)[i + 2] == entries[i].0 + ": " +
        (if entries[i].0 == "MONGO_PASSWORD" then "********" else entries[i].1)
  {
    EntryLinesAt(entries);
  }

  /** The listing of loaded variables shows the URI and masks the password. */
  lemma DisplayOfLoaded(v: EnvVars)
    ensures |DisplayLines(Entries(v))| == 8
    ensures DisplayLines(Entries(v))[2] == "MONGO_URI: " + v.mongoUri
    ensures DisplayLines(Entries(v))[6] == "MONGO_PASSWORD: ********"
  {
    DisplayShape(Entries(v));
    assert Entries(v)[0] == ("MONGO_URI", v.mongoUri);
    assert Entries(v)[4] == ("MONGO_PASSWORD", v.mongoPassword);
  }
}
