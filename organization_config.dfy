/** Per-tenant settings and the store that loads them (the module
    `config.organization_config`).

    `json.loads`, the environment variable and the file system are inputs:
    the environment variable is `Unset` or `Set(text, parsed)`, where `parsed`
    is what `json.loads(text)` gives, and the file system is a map from the
    paths that exist to what reading and parsing them gives. */
module OrganizationConfig {

  import opened Wrappers
  import opened JsonValue
  import Text

  const DefaultApiVersion: string := "2024-08-01-preview"
  const DefaultDeployment: string := "gpt-4o"
  const DefaultEmbeddingDeployment: string := "text-embedding-3-small"
  const DefaultEmbeddingApiVersion: string := "2023-05-15"

  /** Fields the source copies from the raw value without checking their type
      keep the raw value; the endpoint must be a string, since it is stripped. */
  datatype AzureOpenAIConfig = AzureOpenAIConfig(
    apiKey: Json,
    endpoint: string,
    apiVersion: Json,
    deployment: Json,
    embeddingDeployment: Json)

  datatype AzureSearchConfig = AzureSearchConfig(
    apiKey: Json,
    endpoint: string,
    indexName: Json,
    embeddingApiVersion: Json)

  /** The `important_doc_ids` dict that `from_dict` builds: always exactly the
      keys "general", "business" and "quality". */
  datatype ImportantDocIds = ImportantDocIds(general: Json, business: Json, quality: Json)

  datatype OrganizationSettings = OrganizationSettings(
    name: string,
    azureOpenAI: AzureOpenAIConfig,
    azureSearch: AzureSearchConfig,
    importantDocIds: ImportantDocIds)

  /** The exceptions `from_dict` and `_load_from_data` can raise: an
      `AttributeError`/`TypeError` on a value that is not a dict, a `KeyError`,
      an `AttributeError` on an endpoint that is not a string; and a
      `json.JSONDecodeError` (or unreadable file) for a source. */
  datatype ConfigError =
    | NotADict(what: string)
    | MissingKey(key: string)
    | NotAString(key: string)
    | InvalidJson

  /** `list(...)` or `.extend(...)` on a stored doc-id value that is not
      iterable raises `TypeError`. */
  datatype DocIdsError = NotIterable(category: string)

  const EmptyList: Json := JArr([])

  // ---------------------------------------------------------------------------
  // OrganizationSettings.from_dict

  /** The two accepted shapes of `important_doc_ids`: a list (legacy, all of it
      is "general") or a dict (only the three known categories are kept). */
  function ParseImportantDocIds(raw: Json): (r: Result<ImportantDocIds, ConfigError>)
    ensures raw.JArr? ==> r == Ok(ImportantDocIds(raw, EmptyList, EmptyList))
    ensures raw.JObj? ==> r.Ok?
    ensures !raw.JArr? && !raw.JObj? ==> r.Err?
  {
    match raw
    case JArr(_) => Ok(ImportantDocIds(raw, EmptyList, EmptyList))
    case JObj(m) =>
      Ok(ImportantDocIds(
        GetOr(m, "general", EmptyList),
        GetOr(m, "business", EmptyList),
        GetOr(m, "quality", EmptyList)))
    case _ => Err(NotADict("important_doc_ids"))
  }

  /** The `"endpoint"` member of `section`, which must be a string. */
  function Endpoint(section: map<string, Json>): Result<string, ConfigError> {
    if "endpoint" !in section then Err(MissingKey("endpoint"))
    else if !section["endpoint"].JStr? then Err(NotAString("endpoint"))
    else Ok(Text.RStrip(section["endpoint"].s, {'/'}))
  }

  function ParseAzureOpenAI(raw: Json): Result<AzureOpenAIConfig, ConfigError> {
    if !raw.JObj? then Err(NotADict("azure_openai"))
    else
      var ao := raw.fields;
      if "api_key" !in ao then Err(MissingKey("api_key"))
      else
        var endpoint :- Endpoint(ao);
        Ok(AzureOpenAIConfig(
          ao["api_key"],
          endpoint,
          GetOr(ao, "api_version", JStr(DefaultApiVersion)),
          GetOr(ao, "deployment", JStr(DefaultDeployment)),
          GetOr(ao, "embedding_deployment", JStr(DefaultEmbeddingDeployment))))
  }

  function ParseAzureSearch(raw: Json): Result<AzureSearchConfig, ConfigError> {
    if !raw.JObj? then Err(NotADict("azure_search"))
    else
      var as_ := raw.fields;
      if "api_key" !in as_ then Err(MissingKey("api_key"))
      else
        var endpoint :- Endpoint(as_);
        if "index_name" !in as_ then Err(MissingKey("index_name"))
        else
          Ok(AzureSearchConfig(
            as_["api_key"],
            endpoint,
            as_["index_name"],
            GetOr(as_, "embedding_api_version", JStr(DefaultEmbeddingApiVersion))))
  }

  /** `OrganizationSettings.from_dict(name, data)`, in the source's order of
      evaluation: doc ids, then `azure_openai`, then `azure_search`. */
  function FromDict(name: string, data: Json): (r: Result<OrganizationSettings, ConfigError>)
    ensures r.Ok? ==> r.value.name == name
  {
    if !data.JObj? then Err(NotADict("data"))
    else
      var docIds :- ParseImportantDocIds(GetOr(data.fields, "important_doc_ids", EmptyList));
      if "azure_openai" !in data.fields then Err(MissingKey("azure_openai"))
      else
        var azureOpenAI :- ParseAzureOpenAI(data.fields["azure_openai"]);
        if "azure_search" !in data.fields then Err(MissingKey("azure_search"))
        else
          var azureSearch :- ParseAzureSearch(data.fields["azure_search"]);
          Ok(OrganizationSettings(name, azureOpenAI, azureSearch, docIds))
  }

  /** A provider section `from_dict` accepts: a dict holding every key of
      `required` and a string endpoint. */
  predicate SectionOk(raw: Json, required: set<string>) {
    raw.JObj? && required <= raw.fields.Keys
    && "endpoint" in raw.fields && raw.fields["endpoint"].JStr?
  }

  /** The raw tenant objects `from_dict` accepts, stated without reference to it. */
  predicate AcceptedTenant(data: Json) {
    && data.JObj?
    && (var docs := GetOr(data.fields, "important_doc_ids", EmptyList); docs.JArr? || docs.JObj?)
    && "azure_openai" in data.fields
    && SectionOk(data.fields["azure_openai"], {"api_key", "endpoint"})
    && "azure_search" in data.fields
    && SectionOk(data.fields["azure_search"], {"api_key", "endpoint", "index_name"})
  }

  /** `from_dict` succeeds exactly on the accepted shape: a missing
      `api_key`, `endpoint` or `index_name`, a section that is not a dict, a
      non-string endpoint or a doc-id value of the wrong shape all fail. */
  lemma FromDictSucceedsIff(name: string, data: Json)
    ensures FromDict(name, data).Ok? <==> AcceptedTenant(data)
  {
  }

  /** What a successful `from_dict` stores: both endpoints stripped of every
      trailing '/', the raw api keys and index name, and the documented
      defaults for every optional field that is absent. */
  lemma FromDictFields(name: string, data: Json)
    requires FromDict(name, data).Ok?
    ensures var s := FromDict(name, data).value;
      var ao := data.fields["azure_openai"].fields;
      var as_ := data.fields["azure_search"].fields;
      && s.azureOpenAI.apiKey == ao["api_key"]
      && s.azureOpenAI.endpoint <= ao["endpoint"].s
      && (s.azureOpenAI.endpoint == [] || s.azureOpenAI.endpoint[|s.azureOpenAI.endpoint| - 1] != '/')
      && (forall i | |s.azureOpenAI.endpoint| <= i < |ao["endpoint"].s| :: ao["endpoint"].s[i] == '/')
      && s.azureOpenAI.apiVersion == GetOr(ao, "api_version", JStr("2024-08-01-preview"))
      && s.azureOpenAI.deployment == GetOr(ao, "deployment", JStr("gpt-4o"))
      && s.azureOpenAI.embeddingDeployment == GetOr(ao, "embedding_deployment", JStr("text-embedding-3-small"))
      && s.azureSearch.apiKey == as_["api_key"]
      && s.azureSearch.endpoint <= as_["endpoint"].s
      && (s.azureSearch.endpoint == [] || s.azureSearch.endpoint[|s.azureSearch.endpoint| - 1] != '/')
      && (forall i | |s.azureSearch.endpoint| <= i < |as_["endpoint"].s| :: as_["endpoint"].s[i] == '/')
      && s.azureSearch.indexName == as_["index_name"]
      && s.azureSearch.embeddingApiVersion == GetOr(as_, "embedding_api_version", JStr("2023-05-15"))
  {
  }

  /** A list-shaped (or absent) `important_doc_ids` becomes "general", with
      "business" and "quality" empty. */
  lemma ListShapedDocIds(name: string, data: Json, ids: seq<Json>)
    requires FromDict(name, data).Ok?
    requires GetOr(data.fields, "important_doc_ids", EmptyList) == JArr(ids)
    ensures FromDict(name, data).value.importantDocIds == ImportantDocIds(JArr(ids), JArr([]), JArr([]))
  {
  }

  /** A dict-shaped `important_doc_ids` keeps only the three known
      categories, each defaulting to the empty list; other keys are dropped. */
  lemma DictShapedDocIds(name: string, data: Json, m: map<string, Json>)
    requires FromDict(name, data).Ok?
    requires GetOr(data.fields, "important_doc_ids", EmptyList) == JObj(m)
    ensures var d := FromDict(name, data).value.importantDocIds;
      && d.general == (if "general" in m then m["general"] else JArr([]))
      && d.business == (if "business" in m then m["business"] else JArr([]))
      && d.quality == (if "quality" in m then m["quality"] else JArr([]))
  {
  }

  // ---------------------------------------------------------------------------
  // OrganizationSettings.get_important_docs_for_profile

  /** `get_important_docs_for_profile(profile_type)`: a fresh list holding the
      "general" ids followed by those of the "business" or "quality"
      category when that is the profile asked for. */
  function GetImportantDocsForProfile(s: OrganizationSettings, profileType: Option<string>)
    : (r: Result<seq<Json>, DocIdsError>)
    ensures r.Ok? ==> PyList(s.importantDocIds.general).Some? && PyList(s.importantDocIds.general).value <= r.value
    ensures profileType != Some("business") && profileType != Some("quality") && r.Ok? ==>
      r.value == PyList(s.importantDocIds.general).value
  {
    var docs := s.importantDocIds;
    match PyList(docs.general)
    case None => Err(NotIterable("general"))
    case Some(general) =>
      if profileType == Some("business") then
        match PyList(docs.business)
        case None => Err(NotIterable("business"))
        case Some(extra) => Ok(general + extra)
      else if profileType == Some("quality") then
        match PyList(docs.quality)
        case None => Err(NotIterable("quality"))
        case Some(extra) => Ok(general + extra)
      else Ok(general)
  }

  /** The category list a profile adds after "general": none for any profile
      other than "business" and "quality", `None` among them. */
  function ProfileCategory(docs: ImportantDocIds, profileType: Option<string>): Json {
    if profileType == Some("business") then docs.business
    else if profileType == Some("quality") then docs.quality
    else JArr([])
  }

  /** When the stored values are lists, the result is "general" followed by
      the profile's own list, order and duplicates kept. */
  lemma DocsForProfileConcatenates(s: OrganizationSettings, profileType: Option<string>,
                                   general: seq<Json>, extra: seq<Json>)
    requires s.importantDocIds.general == JArr(general)
    requires ProfileCategory(s.importantDocIds, profileType) == JArr(extra)
    ensures GetImportantDocsForProfile(s, profileType) == Ok(general + extra)
    ensures |general + extra| == |general| + |extra|
  {
    assert general + [] == general;
  }

  /** Parsing followed by resolution: a legacy list gives that list for every
      profile. */
  lemma ListShapeResolvesToGeneral(name: string, data: Json, ids: seq<Json>, profileType: Option<string>)
    requires FromDict(name, data).Ok?
    requires GetOr(data.fields, "important_doc_ids", EmptyList) == JArr(ids)
    ensures GetImportantDocsForProfile(FromDict(name, data).value, profileType) == Ok(ids)
  {
    ListShapedDocIds(name, data, ids);
    assert ids + [] == ids;
  }

  /** Parsing followed by resolution for a dict of lists: "general" then the
      profile's category, a missing category counting as empty. */
  lemma DictShapeResolves(name: string, data: Json, general: seq<Json>, business: seq<Json>)
    requires FromDict(name, data).Ok?
    requires GetOr(data.fields, "important_doc_ids", EmptyList)
             == JObj(map["general" := JArr(general), "business" := JArr(business)])
    ensures GetImportantDocsForProfile(FromDict(name, data).value, Some("business")) == Ok(general + business)
    ensures GetImportantDocsForProfile(FromDict(name, data).value, Some("quality")) == Ok(general)
    ensures GetImportantDocsForProfile(FromDict(name, data).value, None) == Ok(general)
  {
    assert general + [] == general;
  }

  // ---------------------------------------------------------------------------
  // OrganizationConfigManager

  /** `_config_paths()`, tried in this order. */
  const ConfigPaths: seq<string> := [
    "config/organizations.json",
    "app/config/organizations.json",
    "/app/config/organizations.json"
  ]

  /** What reading and `json.loads`-ing a source gives. */
  datatype Parsed = Unparseable | Parsed(value: Json)

  /** The `TENANTS_CONFIG_JSON` variable: unset, or its text together with
      what `json.loads` makes of it. */
  datatype EnvVar = Unset | Set(text: string, parsed: Parsed)

  predicate KeysAreNames(m: map<string, OrganizationSettings>) {
    forall k | k in m :: m[k].name == k
  }

  /** The tenants `_load_from_data`'s loop stores: every entry whose
      `from_dict` succeeds, under its own name; the failing ones are skipped
      and do not affect their siblings. */
  function LoadedTenants(orgs: map<string, Json>): (r: map<string, OrganizationSettings>)
    ensures forall k :: k in r <==> k in orgs && FromDict(k, orgs[k]).Ok?
    ensures KeysAreNames(r)
  {
    map k | k in orgs && FromDict(k, orgs[k]).Ok? :: FromDict(k, orgs[k]).value
  }

  /** The effect of `_load_from_data(data)`: the tenants it adds, or the error
      it raises before adding any. */
  function DataTenants(data: Json): (r: Result<map<string, OrganizationSettings>, ConfigError>)
    ensures r.Err? ==> r.error.NotADict?
    ensures r.Ok? ==> KeysAreNames(r.value)
    ensures r.Ok? && r.value != map[] ==>
      && data.JObj? && "organizations" in data.fields && data.fields["organizations"].JObj?
      && r.value.Keys <= data.fields["organizations"].fields.Keys
  {
    if !data.JObj? then Err(NotADict("data"))
    else
      var orgs := GetOr(data.fields, "organizations", JObj(map[]));
      if Falsy(orgs) then Ok(map[])
      else if !orgs.JObj? then Err(NotADict("organizations"))
      else Ok(LoadedTenants(orgs.fields))
  }

  function SourceTenants(p: Parsed): Result<map<string, OrganizationSettings>, ConfigError> {
    match p
    case Unparseable => Err(InvalidJson)
    case Parsed(v) => DataTenants(v)
  }

  /** The environment variable is used when it is non-empty and both parses
      and loads. */
  predicate EnvLoads(env: EnvVar) {
    env.Set? && env.text != [] && SourceTenants(env.parsed).Ok?
  }

  /** A file is used when it exists and both parses and loads. */
  predicate FileLoads(fs: map<string, Parsed>, path: string) {
    path in fs && SourceTenants(fs[path]).Ok?
  }

  /** The tenants of the first file of `paths` that loads; none if none does. */
  function LoadFromFiles(paths: seq<string>, fs: map<string, Parsed>): (r: map<string, OrganizationSettings>)
    ensures KeysAreNames(r)
  {
    if paths == [] then map[]
    else if FileLoads(fs, paths[0]) then SourceTenants(fs[paths[0]]).value
    else LoadFromFiles(paths[1..], fs)
  }

  /** What `_load` stores: the environment source if it loads, else the
      files in order. */
  function Loaded(env: EnvVar, fs: map<string, Parsed>): (r: map<string, OrganizationSettings>)
    ensures KeysAreNames(r)
  {
    if EnvLoads(env) then SourceTenants(env.parsed).value else LoadFromFiles(ConfigPaths, fs)
  }

  /** A loading environment source is final, even when it yields no tenant:
      the files are not consulted. */
  lemma EnvSourceIsFinal(env: EnvVar, fs1: map<string, Parsed>, fs2: map<string, Parsed>)
    requires EnvLoads(env)
    ensures Loaded(env, fs1) == Loaded(env, fs2) == SourceTenants(env.parsed).value
  {
  }

  /** The first file in order that loads wins; every earlier one failed. */
  lemma {:induction false} FirstLoadingFileWins(paths: seq<string>, fs: map<string, Parsed>, i: nat)
    requires i < |paths| && FileLoads(fs, paths[i])
    requires forall j | 0 <= j < i :: !FileLoads(fs, paths[j])
    ensures LoadFromFiles(paths, fs) == SourceTenants(fs[paths[i]]).value
    decreases i
  {
    if i > 0 {
      assert !FileLoads(fs, paths[0]);
      FirstLoadingFileWins(paths[1..], fs, i - 1);
    }
  }

  /** Files that do not load contribute nothing. */
  lemma {:induction false} NoFileLoads(paths: seq<string>, fs: map<string, Parsed>)
    requires forall j | 0 <= j < |paths| :: !FileLoads(fs, paths[j])
    ensures LoadFromFiles(paths, fs) == map[]
  {
    if paths != [] {
      assert !FileLoads(fs, paths[0]);
      NoFileLoads(paths[1..], fs);
    }
  }

  /** When no source loads, the store stays empty. */
  lemma NoSourceLeavesStoreEmpty(env: EnvVar, fs: map<string, Parsed>)
    requires !EnvLoads(env)
    requires forall p | p in ConfigPaths :: !FileLoads(fs, p)
    ensures Loaded(env, fs) == map[]
  {
    NoFileLoads(ConfigPaths, fs);
  }

  /** A failing environment source falls through to the files; a file that
      fails hands over to the next one. */
  lemma EnvFailureFallsThrough(env: EnvVar, fs: map<string, Parsed>)
    requires !EnvLoads(env)
    ensures Loaded(env, fs) == LoadFromFiles(ConfigPaths, fs)
    ensures !FileLoads(fs, ConfigPaths[0]) ==> Loaded(env, fs) == LoadFromFiles(ConfigPaths[1..], fs)
  {
  }

  function Restrict(m: map<string, Json>, keys: set<string>): map<string, Json> {
    map k | k in m && k in keys :: m[k]
  }

  /** Taking one more key of `m` into the restriction adds exactly its entry. */
  lemma RestrictAdd(m: map<string, Json>, keys: set<string>, k: string)
    requires k in m
    ensures Restrict(m, keys + {k}) == Restrict(m, keys)[k := m[k]]
  {
  }

  /** Loading one more entry adds its settings when `from_dict` succeeds and
      nothing otherwise. */
  lemma LoadedTenantsAdd(orgs: map<string, Json>, k: string, v: Json)
    requires k !in orgs
    ensures LoadedTenants(orgs[k := v]) ==
      if FromDict(k, v).Ok? then LoadedTenants(orgs)[k := FromDict(k, v).value]
      else LoadedTenants(orgs)
  {
    var r := FromDict(k, v);
    var after := LoadedTenants(orgs[k := v]);
    var expected := if r.Ok? then LoadedTenants(orgs)[k := r.value] else LoadedTenants(orgs);
    assert after.Keys == expected.Keys;
  }

  /** One iteration of `_load_from_data`'s loop: storing entry `k` when its
      `from_dict` succeeds extends what the earlier iterations stored. */
  lemma LoadStep(store: map<string, OrganizationSettings>, orgs: map<string, Json>,
                 done: set<string>, k: string)
    requires k in orgs && k !in done
    ensures var before := store + LoadedTenants(Restrict(orgs, done));
      var after := store + LoadedTenants(Restrict(orgs, done + {k}));
      after == if FromDict(k, orgs[k]).Ok? then before[k := FromDict(k, orgs[k]).value] else before
  {
    RestrictAdd(orgs, done, k);
    LoadedTenantsAdd(Restrict(orgs, done), k, orgs[k]);
  }

  class OrganizationConfigManager {
    var organizations: map<string, OrganizationSettings>

    /** Every stored key is its settings' name. */
    ghost predicate Valid()
      reads this
    {
      KeysAreNames(organizations)
    }

    /** `OrganizationConfigManager()`: an empty store, then `_load`. */
    constructor (env: EnvVar, fs: map<string, Parsed>)
      ensures organizations == Loaded(env, fs)
      ensures Valid()
    {
      organizations := map[];
      new;
      Load(env, fs);
    }

    /** `_load_from_data(data)`: adds the tenants of `data` or raises before
        adding any. */
    method LoadFromData(data: Json) returns (raised: Option<ConfigError>)
      requires Valid()
      modifies this
      ensures Valid()
      ensures raised.None? <==> DataTenants(data).Ok?
      ensures raised.Some? ==> raised.value == DataTenants(data).error
      ensures organizations == if raised.None? then old(organizations) + DataTenants(data).value
                               else old(organizations)
    {
      if !data.JObj? {
        return Some(NotADict("data"));
      }
      var orgs := GetOr(data.fields, "organizations", JObj(map[]));
      if Falsy(orgs) {
        assert organizations == old(organizations) + map[];
        return None;
      }
      if !orgs.JObj? {
        return Some(NotADict("organizations"));
      }
      var pending := orgs.fields.Keys;
      ghost var done: set<string> := {};
      assert organizations == old(organizations) + LoadedTenants(Restrict(orgs.fields, done));
      while pending != {}
        invariant pending + done == orgs.fields.Keys && pending !! done
        invariant organizations == old(organizations) + LoadedTenants(Restrict(orgs.fields, done))
        decreases pending
      {
        var orgName :| orgName in pending;
        var settings := FromDict(orgName, orgs.fields[orgName]);
        LoadStep(old(organizations), orgs.fields, done, orgName);
        if settings.Ok? {
          organizations := organizations[orgName := settings.value];
        }
        pending := pending - {orgName};
        done := done + {orgName};
      }
      assert Restrict(orgs.fields, done) == orgs.fields;
      return None;
    }

    /** `_load()`: the environment source first, then each file in order;
        the first source that loads ends loading. */
    method Load(env: EnvVar, fs: map<string, Parsed>)
      requires Valid()
      modifies this
      ensures Valid()
      ensures organizations == old(organizations) + Loaded(env, fs)
    {
      if env.Set? && env.text != [] {
        if env.parsed.Parsed? {
          var raised := LoadFromData(env.parsed.value);
          if raised.None? {
            return;
          }
        }
      }
      for i := 0 to |ConfigPaths|
        invariant organizations == old(organizations)
        invariant LoadFromFiles(ConfigPaths[i..], fs) == Loaded(env, fs)
      {
        var path := ConfigPaths[i];
        if path in fs && fs[path].Parsed? {
          var raised := LoadFromData(fs[path].value);
          if raised.None? {
            return;
          }
        }
        assert ConfigPaths[i..][1..] == ConfigPaths[i + 1..];
      }
    }

    /** `get_organization(name)`: the stored settings, or `None`. */
    method GetOrganization(orgName: string) returns (org: Option<OrganizationSettings>)
      requires Valid()
      ensures org.Some? <==> orgName in organizations
      ensures org.Some? ==> org.value == organizations[orgName] && org.value.name == orgName
    {
      if orgName in organizations {
        org := Some(organizations[orgName]);
      } else {
        org := None;
      }
    }

    /** `get_all_organizations()`: a copy of the store. Maps are values, so a
        caller changing the copy cannot change the store. */
    method GetAllOrganizations() returns (all: map<string, OrganizationSettings>)
      ensures all == organizations
    {
      all := organizations;
    }
  }

  // ---------------------------------------------------------------------------
  // Worked examples

  function ExampleSection(withEndpoint: bool): Json {
    var base := map["api_key" := JStr("k"), "index_name" := JStr("idx")];
    JObj(if withEndpoint then base["endpoint" := JStr("https://x.example/")] else base)
  }

  /** A tenant with `general: ["g1"]` and `business: ["b1", "b2"]` resolves
      the "business" profile to `["g1", "b1", "b2"]`. */
  lemma BusinessDocsExample()
    ensures var data := JObj(map[
        "important_doc_ids" := JObj(map["general" := JArr([JStr("g1")]),
                                        "business" := JArr([JStr("b1"), JStr("b2")])]),
        "azure_openai" := ExampleSection(true),
        "azure_search" := ExampleSection(true)]);
      && FromDict("acme", data).Ok?
      && GetImportantDocsForProfile(FromDict("acme", data).value, Some("business"))
         == Ok([JStr("g1"), JStr("b1"), JStr("b2")])
  {
    var data := JObj(map[
        "important_doc_ids" := JObj(map["general" := JArr([JStr("g1")]),
                                        "business" := JArr([JStr("b1"), JStr("b2")])]),
        "azure_openai" := ExampleSection(true),
        "azure_search" := ExampleSection(true)]);
    assert FromDict("acme", data).Ok? by {
      FromDictSucceedsIff("acme", data);
    }
    DictShapeResolves("acme", data, [JStr("g1")], [JStr("b1"), JStr("b2")]);
    assert [JStr("g1")] + [JStr("b1"), JStr("b2")] == [JStr("g1"), JStr("b1"), JStr("b2")];
  }

  /** A tenant whose `azure_openai` lacks `endpoint` is skipped, while a
      sibling in the same source still loads. */
  lemma MissingEndpointSkipsOnlyThatTenant()
    ensures var orgs := map[
        "acme" := JObj(map["azure_openai" := JObj(map["api_key" := JStr("k")]),
                           "azure_search" := ExampleSection(true)]),
        "beta" := JObj(map["azure_openai" := ExampleSection(true),
                           "azure_search" := ExampleSection(true)])];
      && FromDict("acme", orgs["acme"]) == Err(MissingKey("endpoint"))
      && LoadedTenants(orgs).Keys == {"beta"}
  {
    var orgs := map[
        "acme" := JObj(map["azure_openai" := JObj(map["api_key" := JStr("k")]),
                           "azure_search" := ExampleSection(true)]),
        "beta" := JObj(map["azure_openai" := ExampleSection(true),
                           "azure_search" := ExampleSection(true)])];
    assert FromDict("acme", orgs["acme"]) == Err(MissingKey("endpoint"));
    FromDictSucceedsIff("beta", orgs["beta"]);
    var loaded := LoadedTenants(orgs);
    assert "beta" in loaded && "acme" !in loaded;
    assert loaded.Keys == {"beta"} by {
      assert orgs.Keys == {"acme", "beta"};
    }
  }
}
