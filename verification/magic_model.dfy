/** `MagicModel`: picks the compute backend from the model's
    `genai_config.json` and binds the native library for it. */
module MagicModel {
  import opened Wrappers
  import opened Exceptions
  import opened Platform
  import NativeLibraryLoader
  import NativeMethodsHelper

  /** A parsed JSON document, as the LINQ-to-JSON tokens see it. Scalars and
      `null` are all `JValue`s. */
  datatype Json =
    | JNull
    | JBool(b: bool)
    | JNumber(n: int)
    | JString(s: string)
    | JArray(items: seq<Json>)
    | JObject(members: map<string, Json>)

  /** `token?[key]`: a missing token (None) short-circuits to None; an object
      yields the property value or None; an array rejects a string key; any
      other value has no children. */
  function Child(token: Option<Json>, key: string): Result<Option<Json>, Exception> {
    match token
    case None => Success(None)
    case Some(JObject(m)) => Success(if key in m then Some(m[key]) else None)
    case Some(JArray(_)) => Failure(Argument("Accessed JArray values with invalid key value"))
    case Some(_) => Failure(InvalidOperation("Cannot access child value on JValue"))
  }

  /** `JToken.HasValues`. */
  predicate HasValues(token: Json) {
    match token
    case JArray(items) => |items| > 0
    case JObject(m) => |m| > 0
    case _ => false
  }

  /** `token.First as JObject`: the first array element when it is an object;
      the first child of an object is a property, never an object. */
  function FirstAsObject(token: Json): Option<map<string, Json>>
    requires HasValues(token)
  {
    match token
    case JArray(items) => if items[0].JObject? then Some(items[0].members) else None
    case _ => None
  }

  /** The key path the library reads the provider options from. */
  const ProviderOptionsPath: seq<string> := ["model", "decoder", "session_options", "provider_options"]

  /** The value reached from `token` by following `path` through objects
      only; None when a key is missing or a step meets anything but an
      object. */
  function PathValue(token: Json, path: seq<string>): Option<Json>
    decreases |path|
  {
    if |path| == 0 then Some(token)
    else match token
      case JObject(m) => if path[0] in m then PathValue(m[path[0]], path[1..]) else None
      case _ => None
  }

  /** `token` is an object, and so is every value met along `path` before its
      last key, as far as the keys are present: the indexers of a
      null-conditional chain over `path` throw nothing. A JSON `null` is a
      value, not a missing token, so it breaks the chain. */
  predicate LookupsSucceed(token: Json, path: seq<string>)
    decreases |path|
  {
    && token.JObject?
    && (|path| <= 1 || path[0] !in token.members || LookupsSucceed(token.members[path[0]], path[1..]))
  }

  /** The lookups succeed and find either no provider options, options
      without values, or a first entry that is an object naming neither
      `dml` nor `cuda`. */
  predicate SelectsCpu(config: Option<Json>) {
    && config.Some?
    && LookupsSucceed(config.value, ProviderOptionsPath)
    && var options := PathValue(config.value, ProviderOptionsPath);
    && (options.None? || !HasValues(options.value)
        || (options.value.JArray? && options.value.items[0].JObject?
            && "dml" !in options.value.items[0].members && "cuda" !in options.value.items[0].members))
  }

  /** The document's first provider entry is an object holding `key`. */
  predicate FirstEntryHas(config: Option<Json>, key: string) {
    && config.Some?
    && var options := PathValue(config.value, ProviderOptionsPath);
    && options.Some? && options.value.JArray? && |options.value.items| > 0
    && options.value.items[0].JObject? && key in options.value.items[0].members
  }

  /** The provider options are present and non-empty, but their first child is
      not an object (an object's first child is a property; an array's may be
      any value). */
  predicate FirstEntryNotObject(config: Option<Json>) {
    && config.Some?
    && var options := PathValue(config.value, ProviderOptionsPath);
    && options.Some? && HasValues(options.value)
    && (options.value.JObject? || !options.value.items[0].JObject?)
  }

  /** `json["model"]?["decoder"]?["session_options"]?["provider_options"]` on
      an object root; the root's own lookup cannot throw. */
  function ProviderOptions(root: map<string, Json>): Result<Option<Json>, Exception> {
    var model := if "model" in root then Some(root["model"]) else None;
    var decoder :- Child(model, "decoder");
    var sessionOptions :- Child(decoder, "session_options");
    Child(sessionOptions, "provider_options")
  }

  /** The decision on the provider options found: the first entry decides,
      and no options, or options without values, mean CPU. */
  function BackendFor(providerOptions: Option<Json>): (r: Result<HardwareType, Exception>)
    ensures r.Success? ==> !r.value.Undefined?
  {
    if providerOptions.Some? && HasValues(providerOptions.value) then
      match FirstAsObject(providerOptions.value)
      case None => Failure(NullReference)
      case Some(first) =>
        if "dml" in first then Success(Dml)
        else if "cuda" in first then Success(Cuda)
        else Success(Cpu)
    else Success(Cpu)
  }

  /** `GetHardwareType` for the contents of `genai_config.json` (None when the
      file is missing). A root that is not an object is rejected by the parser.
      The result is always one of the three named backends. */
  function GetHardwareType(config: Option<Json>): (r: Result<HardwareType, Exception>)
    ensures config.None? ==>
              r == Failure(FileNotFound("The genai_config.json file was not found in the directory."))
    ensures config.Some? && !config.value.JObject? ==> r.Failure?
    ensures r.Success? ==> !r.value.Undefined?
  {
    if config.None? then Failure(FileNotFound("The genai_config.json file was not found in the directory."))
    else if !config.value.JObject? then Failure(External("Error reading JObject from JsonReader"))
    else
      var providerOptions :- ProviderOptions(config.value.members);
      BackendFor(providerOptions)
  }

  /** The chain of lookups finds options exactly where the path through
      objects leads, and finds those very options. */
  lemma ProviderOptionsFollowPath(root: map<string, Json>)
    ensures ProviderOptions(root).Success? && ProviderOptions(root).value.Some?
            <==> PathValue(JObject(root), ProviderOptionsPath).Some?
    ensures PathValue(JObject(root), ProviderOptionsPath).Some? ==>
              ProviderOptions(root) == Success(PathValue(JObject(root), ProviderOptionsPath))
    ensures ProviderOptions(root).Success? <==> LookupsSucceed(JObject(root), ProviderOptionsPath)
  {
    var path := ProviderOptionsPath;
    assert path[0] == "model" && path[1..][0] == "decoder" && path[1..][1..][0] == "session_options";
    assert path[1..][1..][1..][0] == "provider_options" && |path[1..][1..][1..][1..]| == 0;
  }

  /** The selection rule over any document: `dml` is chosen exactly when the
      first provider entry names it, `cuda` exactly when it names `cuda` but
      not `dml`, and a first entry that is not an object is dereferenced as
      null. */
  lemma BackendFollowsFirstEntry(config: Option<Json>)
    ensures GetHardwareType(config) == Success(Dml) <==> FirstEntryHas(config, "dml")
    ensures GetHardwareType(config) == Success(Cuda)
            <==> FirstEntryHas(config, "cuda") && !FirstEntryHas(config, "dml")
    ensures GetHardwareType(config) == Failure(NullReference) <==> FirstEntryNotObject(config)
    ensures GetHardwareType(config) == Success(Cpu) <==> SelectsCpu(config)
  {
    if config.Some? && config.value.JObject? {
      ProviderOptionsFollowPath(config.value.members);
    }
  }

  /** A `null` where the path expects an object throws, as any non-object
      value there does: `"session_options": null` is an error, not CPU. */
  lemma NullOnPathThrows(root: map<string, Json>, model: map<string, Json>, decoder: map<string, Json>)
    ensures var doc := JObject(root["model" := JObject(model["decoder" := JObject(decoder[
              "session_options" := JNull])])]);
            GetHardwareType(Some(doc)) == Failure(InvalidOperation("Cannot access child value on JValue"))
  {
    var d := decoder["session_options" := JNull];
    var m := model["decoder" := JObject(d)];
    var r := root["model" := JObject(m)];
    assert r["model"] == JObject(m) && m["decoder"] == JObject(d) && d["session_options"] == JNull;
    assert ProviderOptions(r) == Failure(InvalidOperation("Cannot access child value on JValue"));
  }

  /** In a document built around `providerOptions`, the chain of lookups
      finds them. */
  lemma OptionsOfConfigWith(root: map<string, Json>, model: map<string, Json>, decoder: map<string, Json>,
                            session: map<string, Json>, providerOptions: Json)
    ensures ProviderOptions(ConfigWith(root, model, decoder, session, providerOptions).members)
            == Success(Some(providerOptions))
  {
  }

  /** A configuration document whose provider options are `providerOptions`,
      with any other keys beside the path at every level. */
  function ConfigWith(root: map<string, Json>, model: map<string, Json>, decoder: map<string, Json>,
                      session: map<string, Json>, providerOptions: Json): Json {
    JObject(root["model" := JObject(model["decoder" := JObject(decoder["session_options" :=
      JObject(session["provider_options" := providerOptions])])])])
  }

  /** The backend follows the first provider entry alone: `dml` wins over
      `cuda`, and an entry with neither means CPU. */
  lemma FirstEntryDecides(root: map<string, Json>, model: map<string, Json>, decoder: map<string, Json>,
                          session: map<string, Json>, first: map<string, Json>, rest: seq<Json>)
    ensures var r := GetHardwareType(Some(ConfigWith(root, model, decoder, session, JArray([JObject(first)] + rest))));
      r == Success(if "dml" in first then Dml else if "cuda" in first then Cuda else Cpu)
  {
    OptionsOfConfigWith(root, model, decoder, session, JArray([JObject(first)] + rest));
  }

  /** Entries after the first never affect the result. */
  lemma LaterEntriesIgnored(root: map<string, Json>, model: map<string, Json>, decoder: map<string, Json>,
                            session: map<string, Json>, first: Json, rest1: seq<Json>, rest2: seq<Json>)
    ensures GetHardwareType(Some(ConfigWith(root, model, decoder, session, JArray([first] + rest1))))
            == GetHardwareType(Some(ConfigWith(root, model, decoder, session, JArray([first] + rest2))))
  {
    if first.JObject? {
      FirstEntryDecides(root, model, decoder, session, first.members, rest1);
      FirstEntryDecides(root, model, decoder, session, first.members, rest2);
    } else {
      NonObjectFirstEntryFails(root, model, decoder, session, first, rest1);
      NonObjectFirstEntryFails(root, model, decoder, session, first, rest2);
    }
  }

  /** A first entry that is not an object is a null dereference, not CPU; so
      is a non-empty object given in place of the list. */
  lemma NonObjectFirstEntryFails(root: map<string, Json>, model: map<string, Json>, decoder: map<string, Json>,
                                 session: map<string, Json>, first: Json, rest: seq<Json>)
    requires !first.JObject?
    ensures GetHardwareType(Some(ConfigWith(root, model, decoder, session, JArray([first] + rest))))
            == Failure(NullReference)
    ensures |session| > 0 ==>
              GetHardwareType(Some(ConfigWith(root, model, decoder, map[], JObject(session))))
              == Failure(NullReference)
  {
    OptionsOfConfigWith(root, model, decoder, session, JArray([first] + rest));
    OptionsOfConfigWith(root, model, decoder, map[], JObject(session));
  }

  /** Whenever the provider options hold no values (an empty list, an empty
      object, a scalar or `null`), the backend is CPU. */
  lemma EmptyOptionsMeanCpu(root: map<string, Json>, model: map<string, Json>, decoder: map<string, Json>,
                            session: map<string, Json>, providerOptions: Json)
    requires !HasValues(providerOptions)
    ensures GetHardwareType(Some(ConfigWith(root, model, decoder, session, providerOptions))) == Success(Cpu)
  {
    OptionsOfConfigWith(root, model, decoder, session, providerOptions);
  }

  /** A document in which the lookups find no provider options selects CPU. */
  lemma NoOptionsMeanCpu(root: map<string, Json>)
    requires ProviderOptions(root) == Success(None)
    ensures GetHardwareType(Some(JObject(root))) == Success(Cpu)
  {
  }

  /** Wherever the path to the provider options ends early, the backend is
      CPU. */
  lemma MissingOptionsMeanCpu(root: map<string, Json>, model: map<string, Json>, decoder: map<string, Json>,
                              session: map<string, Json>)
    ensures "model" !in root ==> GetHardwareType(Some(JObject(root))) == Success(Cpu)
    ensures "decoder" !in model ==>
              GetHardwareType(Some(JObject(root["model" := JObject(model)]))) == Success(Cpu)
    ensures "session_options" !in decoder ==>
              GetHardwareType(Some(JObject(root["model" := JObject(model["decoder" := JObject(decoder)])])))
              == Success(Cpu)
    ensures "provider_options" !in session ==>
              GetHardwareType(Some(JObject(root["model" := JObject(model["decoder" := JObject(decoder[
                "session_options" := JObject(session)])])]))) == Success(Cpu)
  {
    if "model" !in root {
      NoOptionsMeanCpu(root);
    }
    if "decoder" !in model {
      var r := root["model" := JObject(model)];
      assert r["model"] == JObject(model);
      NoOptionsMeanCpu(r);
    }
    if "session_options" !in decoder {
      var m := model["decoder" := JObject(decoder)];
      var r := root["model" := JObject(m)];
      assert r["model"] == JObject(m) && m["decoder"] == JObject(decoder);
      NoOptionsMeanCpu(r);
    }
    if "provider_options" !in session {
      var d := decoder["session_options" := JObject(session)];
      var m := model["decoder" := JObject(d)];
      var r := root["model" := JObject(m)];
      assert r["model"] == JObject(m) && m["decoder"] == JObject(d) && d["session_options"] == JObject(session);
      NoOptionsMeanCpu(r);
    }
  }

  /** What the constructor leaves behind when it succeeds: the backend and the
      native library chosen for it. */
  datatype LoadedModel = LoadedModel(hardware: HardwareType, libraryPath: Path)

  /** The constructor up to the native model creation: the backend is fixed
      first, then the native-methods instance resolves the library for exactly
      that backend. The library always lies in that backend's folder. */
  function CreateModel(config: Option<Json>, baseDirectory: Path, host: Host, build: BuildFlavor,
                       fileExists: Path -> bool): (r: Result<LoadedModel, Exception>)
    ensures GetHardwareType(config).Failure? ==> r == Failure(GetHardwareType(config).error)
    ensures GetHardwareType(config).Success? ==>
              var library := NativeMethodsHelper.SetLibraryPath(GetHardwareType(config).value, baseDirectory,
                                                                host, build, fileExists);
              && (r.Success? <==> library.Success?)
              && (library.Failure? ==> r.error == library.error)
              && (library.Success? ==> r.value.libraryPath == library.value)
    ensures r.Success? ==> GetHardwareType(config) == Success(r.value.hardware)
    ensures r.Success? ==> |r.value.libraryPath| > |baseDirectory|
                           && r.value.libraryPath[|baseDirectory|]
                              == NativeMethodsHelper.ExpectedBackendFolder(r.value.hardware)
    ensures r.Failure? ==> !r.error.ArgumentOutOfRange?
  {
    var hardware :- GetHardwareType(config);
    var libraryPath :- NativeMethodsHelper.SetLibraryPath(hardware, baseDirectory, host, build, fileExists);
    Success(LoadedModel(hardware, libraryPath))
  }
}
