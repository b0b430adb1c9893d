# Multi-tenant configuration core of agent-os, in Dafny

This project models the part of the agent-os service that decides which
organization (tenant) a request belongs to and with which settings it runs:

- **Tenant settings** (`config/organization_config.py`). `from_dict` turns the
  raw JSON object of one tenant into `OrganizationSettings`. It requires the
  Azure OpenAI and Azure Search credentials, strips trailing slashes from both
  endpoints and fills in the defaults. It accepts `important_doc_ids` either as
  a list or as a dict of per-profile lists. `get_important_docs_for_profile`
  returns the "general" ids followed by those of the "business" or "quality"
  profile.
- **The tenant store** (`OrganizationConfigManager`). It loads all tenants once:
  first from the `TENANTS_CONFIG_JSON` environment variable, then from three
  file paths in order. The first source that loads wins. A tenant that fails to
  parse is skipped without affecting its siblings.
- **The request context** (`config/organization_context.py`). It is a single
  slot holding the current tenant's settings or `None`.
- **The middleware** (`middleware/organization_middleware.py`). It resolves
  the tenant id from the `X-Tenant` header, or else from `X-Organization`, and
  strips it. It binds that tenant's settings, or `None` (simple mode), runs the
  downstream handler and clears the slot on every exit path.
- **The knowledge upload route** (`app/routes/knowledge.py`). It enforces the
  request limits (1 to 5 files) and classifies each file: extension, then the
  15 MiB size limit, then the storage outcome. It counts what was ingested.
- **The profile factories** (`agents/core/profile.py`, `agents/profile.py`):
  a closed dispatch from `ProfileType` to a profile object.

The modules follow the source files: `OrganizationConfig`,
`OrganizationContext`, `OrganizationMiddleware`, `Knowledge`, `CoreProfile` and
`FlatProfile` (with `ProfileTypes` for the enum). `Wrappers`, `Text` (Python's
`strip`, `rstrip` and `lower`) and `JsonValue` (the values `json.loads` returns)
support them. The store, the context slot and the middleware are classes whose
methods update fields, as in the source. Settings, JSON values and upload
results are datatypes.

I/O becomes input to the model:

- What `json.loads` gives for the environment variable is passed in, and so is
  which config files exist and what reading them gives.
- Each upload carries its content length and how three steps end: the
  temporary-file write, `knowledge.insert` and the temporary-file removal.
- The downstream handler is a function of the settings it reads from the
  context slot. Its outcome therefore shows what was bound while it ran.

Where the code and the design intent differ, the model follows the code:

- `rstrip("/")` removes every trailing slash, not just one.
- A whitespace-only `X-Tenant` is truthy, so the code never falls back to
  `X-Organization` and returns `None`.
- A missing required field raises a plain `KeyError`, and the loader catches
  it for that tenant only.
- An unknown profile raises `ValueError`.

## Model

| member | source | states |
|---|---|---|
| `Text.RStrip` | agent-os/config/organization_config.py:67 | `rstrip(chars)` gives the longest prefix not ending in one of `chars`, and every character removed is in `chars` |
| `Text.Strip` | agent-os/middleware/organization_middleware.py:24 | `strip()` gives an empty result exactly when every character is whitespace; otherwise neither end is whitespace |
| `Text.StripIsLStripThenRStrip` | agent-os/middleware/organization_middleware.py:24 | stripping both ends equals stripping the start and then the end |
| `Text.StripIdempotent` | agent-os/middleware/organization_middleware.py:24 | a stripped string strips to itself |
| `OrganizationConfig.ParseImportantDocIds` | agent-os/config/organization_config.py:55-63 | a list becomes "general" with "business" and "quality" empty; a dict is accepted; any other value is an error |
| `OrganizationConfig.FromDict` | agent-os/config/organization_config.py:53-84 | a successful parse carries the tenant name it was given |
| `OrganizationConfig.FromDictSucceedsIff` | agent-os/config/organization_config.py:54-78 | `from_dict` succeeds exactly when the data is a dict, the doc ids are absent, a list or a dict, and both provider sections are dicts with `api_key` and a string `endpoint` (plus `index_name` for search); a missing `api_key`, `endpoint` or `index_name` fails |
| `OrganizationConfig.FromDictFields` | agent-os/config/organization_config.py:64-78 | a parsed tenant keeps the raw api keys and index name; both endpoints are the raw value minus all trailing '/'; absent optional fields default to 2024-08-01-preview, gpt-4o, text-embedding-3-small and 2023-05-15 |
| `OrganizationConfig.ListShapedDocIds` | agent-os/config/organization_config.py:55-57 | a list-shaped or absent `important_doc_ids` gives general = that list and empty business and quality |
| `OrganizationConfig.DictShapedDocIds` | agent-os/config/organization_config.py:58-63 | a dict-shaped `important_doc_ids` keeps only general, business and quality, each defaulting to the empty list; other keys are dropped |
| `OrganizationConfig.GetImportantDocsForProfile` | agent-os/config/organization_config.py:42-51 | a result always starts with the whole "general" list, and for any profile other than "business" and "quality" (`None` included) it is exactly that list |
| `OrganizationConfig.DocsForProfileConcatenates` | agent-os/config/organization_config.py:42-51 | for list values, the result is general followed by the business list (profile "business"), the quality list (profile "quality") or nothing (any other profile, `None` included), with order and duplicates kept |
| `OrganizationConfig.ListShapeResolvesToGeneral` | agent-os/config/organization_config.py:42-57 | parsing a legacy list and then resolving any profile gives exactly that list |
| `OrganizationConfig.DictShapeResolves` | agent-os/config/organization_config.py:42-63 | parsing `{general: G, business: B}` and then resolving gives G+B for "business", and G for "quality" and for no profile |
| `OrganizationConfig.BusinessDocsExample` | agent-os/config/organization_config.py:42-63 | general ["g1"] and business ["b1","b2"] resolve to ["g1","b1","b2"] for "business" |
| `OrganizationConfig.MissingEndpointSkipsOnlyThatTenant` | agent-os/config/organization_config.py:124-133 | a tenant without `azure_openai.endpoint` fails with a missing-key error and is skipped, while its valid sibling loads |
| `OrganizationConfig.DataTenants` | agent-os/config/organization_config.py:124-133 | `_load_from_data` raises only "not a dict" errors; the tenants it adds have keys equal to their names, and any tenant at all comes from a dict-valued `organizations` that holds its key |
| `OrganizationConfig.LoadedTenants` | agent-os/config/organization_config.py:128-133 | the loop stores a key exactly when it is in the source and its `from_dict` succeeds, and every stored key is its settings' name |
| `OrganizationConfig.LoadedTenantsAdd` | agent-os/config/organization_config.py:128-133 | adding one new entry to the source adds its settings under its key when `from_dict` succeeds, and nothing otherwise |
| `OrganizationConfig.LoadStep` | agent-os/config/organization_config.py:128-133 | one loop iteration stores the entry's settings when `from_dict` succeeds and leaves the store unchanged otherwise |
| `OrganizationConfig.LoadFromFiles` | agent-os/config/organization_config.py:113-122 | the files' contribution keeps every stored key equal to its settings' name |
| `OrganizationConfig.Loaded` | agent-os/config/organization_config.py:101-122 | whatever source wins, every stored key equals its settings' name |
| `OrganizationConfig.EnvSourceIsFinal` | agent-os/config/organization_config.py:102-108 | a non-empty environment variable that parses and loads decides the store whatever the files hold, even with zero tenants |
| `OrganizationConfig.EnvFailureFallsThrough` | agent-os/config/organization_config.py:103-121 | when the environment source is unset, empty or fails, the files decide; a first file that fails hands over to the rest |
| `OrganizationConfig.FirstLoadingFileWins` | agent-os/config/organization_config.py:113-119 | when every earlier path fails, the first path that exists and loads gives the store |
| `OrganizationConfig.NoSourceLeavesStoreEmpty` | agent-os/config/organization_config.py:113-122 | when neither the environment variable nor any file loads, the store is empty |
| `OrganizationConfig.OrganizationConfigManager.constructor` | agent-os/config/organization_config.py:90-92 | a new manager holds exactly what `_load` yields from the given sources, with keys equal to names |
| `OrganizationConfig.OrganizationConfigManager.LoadFromData` | agent-os/config/organization_config.py:124-133 | keeps the store's invariant; on success the store gains the source's loadable tenants; it fails (store unchanged) exactly when the data is not a dict or `organizations` is truthy but not a dict; a falsy `organizations` adds nothing |
| `OrganizationConfig.OrganizationConfigManager.Load` | agent-os/config/organization_config.py:101-122 | keeps the store's invariant, and the store gains exactly the tenants of the first source that loads, the environment variable first and then the files in order |
| `OrganizationConfig.OrganizationConfigManager.GetOrganization` | agent-os/config/organization_config.py:135-136 | returns the stored settings, whose name is the key asked for, or `None` exactly when the key is absent |
| `OrganizationConfig.OrganizationConfigManager.GetAllOrganizations` | agent-os/config/organization_config.py:138-139 | returns the whole store as a value, so changing the result cannot change the store |
| `OrganizationContext.ContextSlot.constructor` | agent-os/config/organization_context.py:10-13 | the slot starts as `None` |
| `OrganizationContext.ContextSlot.SetCurrentOrganization` | agent-os/config/organization_context.py:16-17 | the slot afterwards holds exactly the value set, settings or `None` |
| `OrganizationContext.ContextSlot.GetCurrentOrganization` | agent-os/config/organization_context.py:20-21 | returns exactly what the slot holds |
| `OrganizationContext.ContextSlot.ClearCurrentOrganization` | agent-os/config/organization_context.py:24-25 | always callable, and leaves `None` |
| `OrganizationContext.SlotProtocol` | agent-os/config/organization_context.py:10-25 | get with nothing set is `None`; get after set is the value set; get after clearing twice is `None` |
| `OrganizationMiddleware.HeaderGet` | agent-os/middleware/organization_middleware.py:23 | a header lookup finds nothing exactly when no header name matches, ignoring ASCII case; otherwise it returns the value of the first matching header |
| `OrganizationMiddleware.GetTenantId` | agent-os/middleware/organization_middleware.py:21-24 | an id is produced only when `X-Tenant` or `X-Organization` is a non-empty string, and it is non-empty with no whitespace at either end |
| `OrganizationMiddleware.TenantIdIsStripped` | agent-os/middleware/organization_middleware.py:24 | a resolved tenant id is non-empty, has no surrounding whitespace and is its own strip |
| `OrganizationMiddleware.TenantHeaderDecides` | agent-os/middleware/organization_middleware.py:23-24 | a non-empty `X-Tenant` alone decides: its stripped value, or `None` when it is whitespace only, with no fallback |
| `OrganizationMiddleware.OrganizationHeaderFallsBack` | agent-os/middleware/organization_middleware.py:23-24 | with `X-Tenant` absent or empty, the stripped `X-Organization` is used, or `None` when that is absent or blank |
| `OrganizationMiddleware.NoHeadersNoTenantId` | agent-os/middleware/organization_middleware.py:21-24 | a request with neither header has no tenant id |
| `OrganizationMiddleware.Binding` | agent-os/middleware/organization_middleware.py:33-42 | settings are bound exactly when the id is present and stored, and they are then the stored settings themselves |
| `OrganizationMiddleware.BindingIsTheNamedTenant` | agent-os/middleware/organization_middleware.py:33-40 | settings are bound exactly when the id is present and stored, and they are exactly the stored settings of that id, whose name is the id; an unknown id binds `None` |
| `OrganizationMiddleware.NoTenantIdIgnoresStore` | agent-os/middleware/organization_middleware.py:33-42 | without a tenant id the binding is `None` whatever the store holds |
| `OrganizationMiddleware.OrganizationMiddleware.Dispatch` | agent-os/middleware/organization_middleware.py:30-45 | the downstream handler runs on exactly the bound settings, its outcome (response or exception) is returned unchanged, and the slot is `None` afterwards on both paths |
| `Knowledge.AllowedExtensionShape` | agent-os/app/routes/knowledge.py:15 | each allowed extension is a dot followed by at least one character, none of them a dot |
| `Knowledge.AllowedFileIff` | agent-os/app/routes/knowledge.py:20-21 | a file is allowed exactly when its name is longer than, and ends (ignoring ASCII case) with, one of .pdf, .docx, .md, .txt, .csv |
| `Knowledge.AllowedFile` | agent-os/app/routes/knowledge.py:20-21 | an allowed file's name ends in a suffix of at least three characters with a non-empty stem before it |
| `Knowledge.DocumentsFor` | agent-os/app/routes/knowledge.py:49-93 | as written, each upload yields one entry, or two ("ok" and then an error), all naming the file |
| `Knowledge.UnnamedUploadIsRejected` | agent-os/app/routes/knowledge.py:49-50 | a missing or empty filename becomes "unnamed" and is rejected as a disallowed type |
| `Knowledge.DisallowedFileIsNeverRead` | agent-os/app/routes/knowledge.py:50-58 | a disallowed file gets one error entry that does not depend on its content or any storage outcome |
| `Knowledge.SizeLimitIsInclusive` | agent-os/app/routes/knowledge.py:61-69 | content of exactly 15·1024·1024 bytes passes; one byte more fails with the 15 MB message |
| `Knowledge.StorageFailureIsReported` | agent-os/app/routes/knowledge.py:71-93 | a failing write or insert gives one error entry carrying the exception's message and nothing ingested |
| `Knowledge.EntriesOfOneUpload` | agent-os/app/routes/knowledge.py:48-93 | each upload gives entries naming it, one "ok" exactly when it is inserted, and a second entry only when it was inserted and its temporary file could not be removed |
| `Knowledge.OkEntriesAreIngestedFiles` | agent-os/app/routes/knowledge.py:81-83 | the "ok" entries are exactly the inserted files, so there are at most as many as files |
| `Knowledge.OneEntryPerFileWhenCleanupSucceeds` | agent-os/app/routes/knowledge.py:48-93 | while every temporary file is removed cleanly, there is one entry per file, in input order |
| `Knowledge.UploadOne` | agent-os/app/routes/knowledge.py:49-93 | one pass of the loop body appends exactly that upload's entries and counts the file as ingested exactly when it is inserted, which is exactly when an "ok" entry is appended |
| `Knowledge.KnowledgeUpload` | agent-os/app/routes/knowledge.py:29-95 | fails with 400 exactly for zero files or more than 5; otherwise returns the per-file entries in order, with `ingested` equal to the number of "ok" entries and of inserted files |
| `Knowledge.CleanupFailureAddsSecondEntry` | agent-os/app/routes/knowledge.py:80-93 | as written, an inserted file whose temporary file cannot be removed gets two entries: "ok" and then an error |
| `Knowledge.IntendedDocumentFor` | agent-os/app/routes/knowledge.py:48-93 | the corrected entry names the file and is "ok" exactly when the file is inserted |
| `Knowledge.IntendedReportOnePerFile` | agent-os/app/routes/knowledge.py:48-93 | the corrected report has exactly one entry per file, in input order |
| `Knowledge.IntendedOkEntriesAreIngestedFiles` | agent-os/app/routes/knowledge.py:81-83 | the corrected report's "ok" entries are exactly the inserted files |
| `Knowledge.IntendedAgreesWhenCleanupSucceeds` | agent-os/app/routes/knowledge.py:80-93 | the corrected report equals the one as written whenever every temporary file is removed cleanly |
| `CoreProfile.ContentCreatorProfileType` | agent-os/agents/content_creator/profile.py:12-13 | the content-creator profile reports `CONTENT_CREATOR` |
| `CoreProfile.CreateProfile` | agent-os/agents/core/profile.py:33-41 | `CONTENT_CREATOR` yields the content-creator profile and `HUMANIZER` the humanizer profile; with the two-member enum the `ValueError` branch is unreachable |
| `CoreProfile.CreateProfileRoundTrip` | agent-os/agents/core/profile.py:35-41 | the content-creator profile the factory builds reports `CONTENT_CREATOR`, and distinct types give distinct profiles |
| `FlatProfile.GetProfileType` | agent-os/agents/profile.py:33-34 | the flat content-creator profile reports `CONTENT_CREATOR` |
| `FlatProfile.GetInstructions` | agent-os/agents/profile.py:36-69 | the instructions are one fixed, non-empty text |
| `FlatProfile.CreateProfile` | agent-os/agents/profile.py:72-76 | succeeds exactly for `CONTENT_CREATOR`, with a profile that reports the type asked for; any other type gives the error naming it |

## Findings

| source | as written | input that shows it | evidently intended | confidence | as-written member | corrected member |
|---|---|---|---|---|---|---|
| agent-os/app/routes/knowledge.py:80-93 | The `finally` that removes the temporary file runs after "ok" has been appended. If that removal raises, the outer `except` appends a second, "error" entry for the same file. | One upload "a.pdf", 10 bytes, whose write and insert succeed and whose temporary-file removal raises "busy". | One status entry per uploaded document. | low; not executed | `Knowledge.CleanupFailureAddsSecondEntry` | `Knowledge.IntendedReportOnePerFile` |

## Left out

- Per-request isolation of the `ContextVar` across concurrent requests is not modelled; the model has one sequential slot.
- JSON text parsing, reading the environment and checking and reading files are not modelled; their results are inputs.
- Logging is not modelled.
- JSON numbers are integers. A float (such as `0.0` for `organizations`, which Python treats as falsy) is outside the model.
- `GetImportantDocsForProfile`: a category stored as a dict is an error in the model. Python would list the dict's keys in insertion order, and the model's objects do not keep that order. Strings and lists behave as in Python; `None`, booleans and numbers raise `TypeError` in both.
- The non-dict branch of `get_important_docs_for_profile` (lines 44-45) cannot be reached from `from_dict`, which always builds a dict, so it is not modelled.
- Error messages are kept as kinds, not texts. One reason: the disallowed-type message joins a set in hash order.
- `Knowledge.AllowedFile` lower-cases ASCII letters only. Python's `str.lower()` is Unicode-aware, but no non-ASCII character lowers to a letter used in the allowed extensions, so the outcome is the same.
- Path suffixes follow the rule where a trailing dot gives no suffix. Newer Python versions give "." instead; that is not an allowed extension either way.
- `upload.read()` raising, the temporary file's contents and its name are not modelled.
- Header values are taken as already-decoded strings; Starlette decodes them as latin-1.
- agent-os/agents/profile_type.py, the enum the flat factory uses, is not part of this model. The model assumes the same two members as agent-os/agents/core/profile_type.py.
- agent-os/agents/humanizer/profile.py is not part of this model, so the humanizer profile is kept only as an identity. Its `get_profile_type` and instructions are not modelled.
- The instruction prompt texts are not modelled; a placeholder constant stands for them.
- The outbound GitHub client, the UI, the agent and team definitions, the model factory, the database and knowledge singletons, and the database wait script are not modelled. They are I/O or hand configuration to external libraries.
