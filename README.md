# APTESS payload catalogue, payload manager, profiles and agent access — a Dafny model

This project models the core logic of the APTESS payload tooling and proves properties about it.

**Payloads plugin.**
- `PayloadsService` is the in-memory catalogue. It holds a primary map from id to record, per-facet posting sets and a word index.
  - `_upsert_item` applies defaults and then only adds index memberships.
  - `_match_filters` intersects the posting sets (AND semantics).
  - `list_payloads` sorts, using the severity ordinal for `severity`, and then slices a page.
  - `facets` reports per-key counts.
  - `handle_yaml_import` and `load_from_disk` apply a manifest all-or-nothing.
- `validate_payload_item` and `validate_manifest` check manifests.
- `PayloadsAPI` covers the command built for a dispatched payload, the download URL, the executor, the per-agent dispatch loop, the in-place `batch_actions`, `list_agents`, `history`, the CSV export row and the status `dispatch` answers with.

**Payload manager plugin.**
- The `Payload` object: constructor defaults, `store` with its one-time `" (2)"` rename, the validators and the display lookups.
- Its service: the `get_payloads` filter, `create_payload`, `update_payload`, `_load_payload_from_yaml`, the YAML and artifact path layout, and the export id filter.

**Profiles.** The `Profile` object: constructor defaults and extras, `store`, `search_tags` and the schema enumerations.

**Agent access.** The agent/operation access rule, the group filter and the accessible-operations loop, as `test_backend_logic.py` writes them out.

**How Python is represented.**
- Python values are `Values.Value`.
- An exception Python would raise is an explicit `Fault` outcome.
- The clock, uuids, the `unique` hash, file facts (md5 and size of a written file) and the orchestration services (`rest_svc`, `data_svc`) are parameters or oracles.
- Objects the source updates in place are classes:
  - `Service.PayloadsService`;
  - `PayloadObject.Payload` and its `PayloadRam`;
  - `Profiles.Profile` and its `ProfileRam`.
- Each class's methods are proved against specification functions over values.

**Modules.**

| module | file |
|---|---|
| `Wrappers` | `wrappers.dfy` |
| `Strings` | `strings.dfy` |
| `Values` | `values.dfy` |
| `Schemas` | `schemas.dfy` |
| `Catalogue` (specification of the catalogue) | `catalogue.dfy` |
| `Service` (the catalogue class) | `service.dfy` |
| `Api` | `api.dfy` |
| `PayloadObject` | `payload.dfy` |
| `PayloadManager` | `payload_manager.dfy` |
| `Profiles` | `profile.dfy` |
| `AgentAccess` | `access.dfy` |

`BaseObject.retrieve` and `BaseObject.update` are not part of this model. Their behaviour is taken as follows:
- `retrieve` returns the first stored object whose `unique` equals the key.
- `update` is given as the `UpdateRule` parameter:
  - `Overwrite` assigns every value;
  - `SkipFalsy` skips falsy scalars;
  - under both rules, lists are always assigned.

## Model

| member | source | states |
|---|---|---|
| Schemas.CheckRequired | plugins/payloads/app/schemas.py:13-16 | one `missing required field: k` message per required field that is absent or falsy, in the order of the required list |
| Schemas.CheckOs | plugins/payloads/app/schemas.py:21-27 | a list `os` gives one message per member outside {windows, linux, darwin}; any other shape gives `os must be a list`; an unhashable member raises |
| Schemas.CheckTactics | plugins/payloads/app/schemas.py:29-35 | one message per tactic whose `str()` is not `TA` and four digits; a non-list gives `tactics must be a list` |
| Schemas.CheckArgs | plugins/payloads/app/schemas.py:48-52 | one message per arg with a missing or falsy key, one per truthy type outside the five allowed; truthy args that are not a list of dicts raise |
| Schemas.ValidatePayloadItem | plugins/payloads/app/schemas.py:11-54 | the messages are those of the seven rules in source order, and the call raises exactly when Python would: a non-dict item, a truthy non-string md5, an unhashable os member or severity, or args that are not a list of dicts |
| Schemas.ItemAcceptedIff | plugins/payloads/app/schemas.py:11-54 | an item gets no message exactly when all nine required fields are truthy, md5 is 32 lowercase hex digits, os and tactics are lists of allowed values, severity is allowed, the source has its path or URL and every arg has a key and an allowed type |
| Schemas.MissingFieldReported | plugins/payloads/app/schemas.py:13-16 | each required field is reported missing once when falsy and never otherwise |
| Schemas.Md5Reported | plugins/payloads/app/schemas.py:18-19 | exactly one md5 message when md5 is truthy and malformed, none otherwise (so a missing md5 gives only the missing-field message) |
| Schemas.OsReported | plugins/payloads/app/schemas.py:21-27 | the number of os messages is the number of disallowed members for a list and exactly one `must be a list` message otherwise |
| Schemas.TacticsReported | plugins/payloads/app/schemas.py:29-35 | the number of tactic messages is the number of malformed tactics for a list and exactly one `must be a list` message otherwise |
| Schemas.SeverityReported | plugins/payloads/app/schemas.py:37-39 | one severity message exactly when severity is truthy and outside {low, medium, high, critical} |
| Schemas.SourceReported | plugins/payloads/app/schemas.py:41-45 | a local source without `source_path` and a url source without `download_url` each give one message; no other source value gives one |
| Schemas.ArgsReported | plugins/payloads/app/schemas.py:48-52 | the key message occurs once per arg lacking a key, and the arg messages number the key-less args plus the args with a bad type |
| Schemas.ValidateManifest | plugins/payloads/app/schemas.py:57-69 | the loop computes the report of the manifest specification: a truthy non-list `items` gives ok=false, items=0 and one error at index -1 |
| Schemas.ValidateEntries | plugins/payloads/app/schemas.py:62-68 | the loop over the entries ends with the tally of the entries: the accepted count and the error list, or raises when validating an entry raises |
| Schemas.EntriesCount | plugins/payloads/app/schemas.py:62-68 | valid entries plus error entries add up to the number of items |
| Schemas.EntriesErrorsValid | plugins/payloads/app/schemas.py:63-66 | each error entry names an item with messages and carries those messages joined by `; ` |
| Schemas.EntriesSorted | plugins/payloads/app/schemas.py:63-66 | error entries come in increasing index order |
| Schemas.EntriesCover | plugins/payloads/app/schemas.py:63-66 | every invalid item has an error entry |
| Schemas.ManifestMeaning | plugins/payloads/app/schemas.py:57-69 | `ok` holds exactly when every item validates, and `items` counts the valid ones |
| Catalogue.WithDefaults | plugins/payloads/app/service.py:41-48 | falsy name becomes the id, falsy severity `medium`, falsy status `active`, falsy updated_at the given time; every other field is kept |
| Catalogue.FacetStepsOk | plugins/payloads/app/service.py:52-64 | the facet loops complete exactly when os, file_type, tags, status and severity have the shapes that can be indexed |
| Catalogue.UpsertOkIff | plugins/payloads/app/service.py:38-68 | an upsert completes exactly when the item's id and indexed fields are string-shaped |
| Catalogue.UpsertIndexes | plugins/payloads/app/service.py:50-64 | after an upsert the record is stored under its id and the id is posted under every os value, every `str(tactic)`, a truthy file_type, every tag, its status and its severity |
| Catalogue.UpsertGrows | plugins/payloads/app/service.py:50-68 | an upsert never removes a stored id or a posting: re-upserting leaves old memberships in place |
| Catalogue.UpsertConsistent | plugins/payloads/app/service.py:38-68 | an upsert keeps every posted id a stored id |
| Catalogue.TokenizeMeaning | plugins/payloads/app/service.py:70-71 | tokens are non-empty, lower-case and space-free, and their concatenation is the lower-cased text without whitespace |
| Catalogue.TokenizeJoin | plugins/payloads/app/service.py:66-68 | every token of a part is a token of the space-joined text |
| Catalogue.UpsertWords | plugins/payloads/app/service.py:66-68 | every token of the name, the description and each tag maps to the id in the word index |
| Catalogue.UpsertStores | plugins/payloads/app/service.py:38-50 | a completed upsert stores exactly the defaulted item under its id |
| Catalogue.MeetMeaning | plugins/payloads/app/service.py:102-105 | the intersection holds exactly the ids in every set |
| Catalogue.ConstraintsEmpty | plugins/payloads/app/service.py:76-101 | there is nothing to intersect exactly when the query has no search token and no non-empty facet filter |
| Catalogue.MatchMeaning | plugins/payloads/app/service.py:73-105 | an unconstrained query matches exactly the stored ids; otherwise an id matches exactly when it is posted under every search token and every requested value of every facet (AND) |
| Catalogue.MatchWithinStore | plugins/payloads/app/service.py:73-105 | in a consistent catalogue every matched id is stored |
| Catalogue.SeverityKey | plugins/payloads/app/service.py:112-119 | the severity sort key is low 0, medium 1, high 2, critical 3 and 1 for anything else, ignoring case |
| Catalogue.PageWindow | plugins/payloads/app/service.py:121-125 | a page holds at most `size` ids, is empty past the end, and is otherwise the slice from `(page-1)*size` |
| Catalogue.AcceptedManifestItems | plugins/payloads/app/service.py:144-147 | a manifest that validates has a list of items, each well formed |
| Catalogue.UpsertAllStores | plugins/payloads/app/service.py:145-147 | applying all items keeps every stored id and stores every item's id |
| Catalogue.UpsertAllConsistent | plugins/payloads/app/service.py:145-147 | applying a list of items keeps the catalogue consistent |
| Catalogue.ImportRejected | plugins/payloads/app/service.py:139-148 | a manifest that does not validate imports nothing, leaves the catalogue unchanged and reports at least one failure |
| Catalogue.ImportAccepted | plugins/payloads/app/service.py:139-148 | a valid manifest imports every item, reports no failure and stores every item's id |
| Catalogue.ImportConsistent | plugins/payloads/app/service.py:139-148 | an import keeps the catalogue consistent |
| Catalogue.LoadDocAccepts | plugins/payloads/app/service.py:29-36 | a document changes the catalogue only when it is a dict whose manifest validates |
| Catalogue.LoadConsistent | plugins/payloads/app/service.py:21-36 | loading any sequence of documents keeps the catalogue consistent |
| Catalogue.UpsertAllStops | plugins/payloads/app/service.py:145-147 | once an item raises, the items after it change nothing |
| Service.PayloadsService.constructor | plugins/payloads/app/service.py:15-19 | a new catalogue is empty and consistent |
| Service.PayloadsService.IndexFacets | plugins/payloads/app/service.py:50-64 | the loops add exactly the postings of the facet specification and touch nothing else |
| Service.PayloadsService.AddWords | plugins/payloads/app/service.py:67-68 | the id is added to the word set of every token and to nothing else |
| Service.PayloadsService.Upsert | plugins/payloads/app/service.py:38-68 | the new state and outcome are those of the upsert specification |
| Service.PayloadsService.UpsertItems | plugins/payloads/app/service.py:145-147 | upserting items in order gives the state of the specification, stopping at the first that raises |
| Service.Intersect | plugins/payloads/app/service.py:102-105 | the loop computes the intersection of all the sets |
| Service.PayloadsService.MatchFilters | plugins/payloads/app/service.py:73-105 | the matched ids are those of the match specification |
| Service.SortIds | plugins/payloads/app/service.py:120 | the result is a duplicate-free ordering of exactly the given ids, sorted by key, descending when asked |
| Service.PayloadsService.SortKeys | plugins/payloads/app/service.py:111-119 | the keys of the matched ids; raises exactly when a matched id has no record |
| Service.PayloadsService.ListPayloads | plugins/payloads/app/service.py:107-126 | raises exactly when a matched id is missing or the keys cannot be compared; otherwise the order holds exactly the matched ids, sorted, the items are the page of that order and `total` is the number matched |
| Service.PayloadsService.CountFacet | plugins/payloads/app/service.py:132-136 | one count per key of the facet, keys strictly increasing, each the size of the matched ids intersected with the key's postings |
| Service.PayloadsService.Facets | plugins/payloads/app/service.py:128-137 | every facet gets those counts over the ids matched by the search alone, facet filters ignored |
| Service.PayloadsService.HandleYamlImport | plugins/payloads/app/service.py:139-148 | the state and result are those of the import specification (all-or-nothing) |
| Service.PayloadsService.LoadFromDisk | plugins/payloads/app/service.py:21-36 | the state is that of the load specification over the documents found |
| Api.BuildCommand | plugins/payloads/app/payloads_api.py:181-202 | never empty; on windows starts with the TEMP assignment and Invoke-WebRequest, on any other platform with the `/tmp` curl and chmod prefix |
| Api.WindowsSuffixExactlyOne | plugins/payloads/app/payloads_api.py:182-193 | the windows command ends with exactly one of the four run statements, the one the file type selects (exe, ps1, py, other) |
| Api.UnixSuffixExactlyOne | plugins/payloads/app/payloads_api.py:194-202 | any other platform's command ends with exactly one of the three run statements, the one the file type selects (sh, py, other) |
| Api.DownloadUrl | plugins/payloads/app/payloads_api.py:175-179 | a url source uses `download_url` as given; any other source uses the base without trailing slashes, then `/plugin/payloads/<pid>/download` |
| Api.DownloadUrlJoin | plugins/payloads/app/payloads_api.py:178-179 | the base keeps no trailing slash and exactly one `/` joins it to the path |
| Api.FileTypeOf | plugins/payloads/app/payloads_api.py:180 | the file type is lower-cased, empty when missing or falsy, and a truthy non-string raises |
| Api.ChooseExecutor | plugins/payloads/app/payloads_api.py:219-221 | powershell on windows, bash otherwise, if listed; else the agent's first executor; else the default |
| Api.ExecutorAvailable | plugins/payloads/app/payloads_api.py:219-221 | an agent with any executors is always given one it has |
| Api.AgentStepsResults | plugins/payloads/app/payloads_api.py:210-224 | one result per agent id, in order, and an `agent not found` result exactly for the paws the locate oracle does not know |
| Api.AgentStepsCalls | plugins/payloads/app/payloads_api.py:211-224 | every command issued targets the created operation and one of the requested paws |
| Api.DispatchMeaning | plugins/payloads/app/payloads_api.py:166-225 | an unknown id returns `not found` before any call; a missing operation id follows exactly the one create call; a started dispatch named the operation `payload-<pid>`, reports the operation id `create_operation` answered for that request, and has one result per agent id |
| Api.DispatchSingle | plugins/payloads/app/payloads_api.py:166-225 | the loop's result and oracle calls are those of the dispatch specification |
| Api.DispatchStatus | plugins/payloads/app/payloads_api.py:280-285 | `not found` gives 400, a failed operation 500, a started dispatch 200 |
| Api.SetStatus | plugins/payloads/app/payloads_api.py:137-146 | found items get the new status in place, nothing else changes, `affected` counts the found ids and each other id gets exactly one `not found` error |
| Api.DeleteIds | plugins/payloads/app/payloads_api.py:147-154 | stored ids are removed from the primary map only, the indices are untouched, `affected` counts them and each other id gets one error |
| Api.BatchActions | plugins/payloads/app/payloads_api.py:130-164 | the ids are deduplicated; enable/disable and delete behave as above; dispatch leaves the catalogue unchanged and returns what `DispatchEach` returns for the deduplicated ids, with the same `args`, `targets` and `mode` defaults; an unknown action is rejected with no change and no call |
| Api.DispatchEach | plugins/payloads/app/payloads_api.py:155-162 | raises exactly when dispatching one of the ids raises; otherwise each id comes back exactly once, paired with what `_dispatch_single` returns for it, and the calls are the single dispatches' calls one after the other in the order of the results |
| Api.BatchCallsSnoc | plugins/payloads/app/payloads_api.py:157-160 | the calls of one more dispatched id come after those of the ids before it |
| Api.DeleteThenListRaises | plugins/payloads/app/payloads_api.py:147-151 | after a delete, a query on a facet key still holding the deleted id makes `list_payloads` raise |
| Api.KeptAgentsMeaning | plugins/payloads/app/payloads_api.py:235-243 | the kept rows are exactly the rows of agents passing the search and online filters |
| Api.ListAgents | plugins/payloads/app/payloads_api.py:227-247 | the page is the slice of the kept agents from `(page-1)*size`, with `total` the number kept |
| Api.History | plugins/payloads/app/payloads_api.py:287-296 | the plugin's operations among the last 200, newest first |
| Api.PluginOpsMeaning | plugins/payloads/app/payloads_api.py:291-294 | exactly the operations whose name starts with `payload-` are kept |
| Api.HistoryWindow | plugins/payloads/app/payloads_api.py:292 | at most 200 operations are looked at: all of them when there are at most 200, else the last 200 |
| Api.CsvRow | plugins/payloads/app/payloads_api.py:106-118 | ten cells in header order, scalar cells taken from the record, the os and tags cells their comma-joins and the tactics cell the comma-join of their `str()`; the row fails exactly when one of these joins raises |
| Api.CsvOsRoundTrip | plugins/payloads/app/payloads_api.py:112 | splitting the os cell on commas gives back the os list when the list is non-empty and no entry contains a comma (`','.join([])` splits to `['']`) |
| Api.ExportSelect | plugins/payloads/app/payloads_api.py:84-85 | at most one record per requested id, every record one of a requested stored id, and with every requested id stored the records in request order |
| Api.ExportSelectKept | plugins/payloads/app/payloads_api.py:85 | the export is the requested ids that are stored, in request order, each replaced by its record |
| Api.ExportSelectMeaning | plugins/payloads/app/payloads_api.py:85 | the ids kept are an order-preserving sub-list of the request holding exactly the stored ones, every stored requested id has its record exported, and position by position the export holds their records |
| PayloadObject.InitialDefaults | plugins/payloadmanager/app/c_payload.py:71-97 | an empty id becomes the fresh id, missing lists become empty, the access field is set exactly when truthy, and the name, threat level and plugin are kept |
| PayloadObject.Payload.constructor | plugins/payloadmanager/app/c_payload.py:71-97 | the new object's fields are the defaulted arguments |
| PayloadObject.Merge | plugins/payloadmanager/app/c_payload.py:112-126 | an update never changes the id, access or creation date |
| PayloadObject.MergeSelf | plugins/payloadmanager/app/c_payload.py:112-126 | storing an object onto an equal one changes nothing |
| PayloadObject.MergeOverwrite | plugins/payloadmanager/app/c_payload.py:112-126 | under plain assignment the fourteen updated fields come from the new object and the rest are kept |
| PayloadObject.MergeSkipFalsy | plugins/payloadmanager/app/c_payload.py:112-126 | when falsy values are skipped, a falsy new scalar leaves the old one and lists are replaced |
| PayloadObject.FindId | plugins/payloadmanager/app/c_payload.py:101 | the first stored payload with the id, or none when no stored payload has it |
| PayloadObject.FindIdAppend | plugins/payloadmanager/app/c_payload.py:109-110 | after appending a payload with a new id, the lookup finds the appended one |
| PayloadObject.Payload.Store | plugins/payloadmanager/app/c_payload.py:99-127 | a new id appends exactly this object, renamed with `" (2)"` when its name is taken (raising on a `None` name that collides); an existing id leaves the list as it was and merges this object's fields into the stored one, returning it; nothing else changes |
| PayloadObject.Payload.Append | plugins/payloadmanager/app/c_payload.py:102-110 | the append-with-rename branch on its own |
| PayloadObject.Payload.CopyInto | plugins/payloadmanager/app/c_payload.py:112-127 | the stored object's fields become the merge of old and new |
| PayloadObject.StoreRenamesOnce | plugins/payloadmanager/app/c_payload.py:104-110 | worked example of `Payload.Store`'s contract: storing three payloads named `n` gives `n`, `n (2)`, `n (2)`, because the rename is not re-checked |
| PayloadObject.StoreNamed | plugins/payloadmanager/app/c_payload.py:99-110 | a named payload with a new id is appended, renamed exactly when its name is taken |
| PayloadObject.PlatformsAndLevelsAgainstManifest | plugins/payloadmanager/app/c_payload.py:59-62 | the supported platforms equal the manifest's allowed os values, the threat levels are the capitalised manifest severities, and no threat level passes both checks |
| PayloadObject.ThreatLevelColor | plugins/payloadmanager/app/c_payload.py:190-198 | the colour is `is-light` exactly when the level is not one of the four |
| PayloadObject.ThreatLevelColorsDistinct | plugins/payloadmanager/app/c_payload.py:192-197 | distinct levels get distinct colours |
| PayloadObject.TacticDisplayName | plugins/payloadmanager/app/c_payload.py:164-179 | an unknown slug is title-cased |
| PayloadObject.UnknownTacticDisplayStable | plugins/payloadmanager/app/c_payload.py:179 | displaying an unknown tactic's display name again gives the same name |
| PayloadObject.PlatformDisplayName | plugins/payloadmanager/app/c_payload.py:181-188 | an unknown platform is title-cased |
| PayloadObject.FixId | plugins/payloadmanager/app/c_payload.py:39-43 | `id` is moved to `payload_id`, replacing any there; without `id` the data is unchanged; every other key is kept |
| PayloadManager.NameStem | plugins/payloadmanager/app/payloadmanager_svc.py:306 | the stem has the name's length and no spaces; a `None` name raises |
| PayloadManager.YamlPathLayout | plugins/payloadmanager/app/payloadmanager_svc.py:299-312 | the YAML path is `dir/<first platform or windows>/<first tactic or execution>/<stem>.yml` |
| PayloadManager.PayloadDirLayout | plugins/payloadmanager/app/payloadmanager_svc.py:309 | joining relative components gives slash-separated segments |
| PayloadManager.YamlPathAbsoluteName | plugins/payloadmanager/app/payloadmanager_svc.py:306-310 | a name whose lower-cased form starts with `/` discards the directory: the path is the stem alone |
| PayloadManager.InferredTypeOfDefaultArtifact | plugins/payloadmanager/app/payloadmanager_svc.py:131-133 | when the file type is falsy the artifact is `<stem>.bin` and the inferred type is `bin`, or empty when the stem is only dots |
| PayloadManager.ExtensionOfBin | plugins/payloadmanager/app/payloadmanager_svc.py:133 | the extension of `<stem>.bin` is `.bin`, unless the stem is only dots |
| PayloadManager.CheckRequired | plugins/payloadmanager/app/payloadmanager_svc.py:116-119 | no field is reported exactly when all five are truthy; otherwise the first falsy one in order is named |
| PayloadManager.MatchesMeaning | plugins/payloadmanager/app/payloadmanager_svc.py:233-253 | a payload matches exactly when it shares a platform and a tactic with active filters, has the threat level asked for and contains the search text in its name or description, ignoring case; a missing name or description that must be searched raises |
| PayloadManager.FilterSpecMeaning | plugins/payloadmanager/app/payloadmanager_svc.py:228-258 | the filter raises exactly when some payload's match raises; otherwise it keeps exactly the matching payloads, as an order-preserving sub-list of the list |
| PayloadManager.GetPayloads | plugins/payloadmanager/app/payloadmanager_svc.py:222-264 | no filter returns everything, the loop returns the filtered list in order, and an exception returns an empty list |
| PayloadManager.FilterSpecFaultExtends | plugins/payloadmanager/app/payloadmanager_svc.py:262-264 | a single payload whose match raises makes the whole call return an empty list |
| PayloadManager.ExportSelection | plugins/payloadmanager/app/payloadmanager_svc.py:317-319 | with ids, the payloads whose id is listed, all of them and in order; without ids, all payloads |
| PayloadManager.ExportRename | plugins/payloadmanager/app/payloadmanager_svc.py:328-329 | `payload_id` moves to `id`, and a record without `payload_id` raises |
| PayloadManager.ExportThenFixId | plugins/payloadmanager/app/payloadmanager_svc.py:328-329 | the export renaming and the loader's `fix_id` are inverse to each other |
| PayloadManager.LoadedAttributes | plugins/payloadmanager/app/payloadmanager_svc.py:82-91 | only a non-empty list whose first element is a dict is loaded; `id` becomes `payload_id`, else the given `payload_id` is kept, else a fresh one is used |
| PayloadManager.ArgsOf | plugins/payloadmanager/app/payloadmanager_svc.py:122 | the constructor call completes exactly when every known field has a shape it accepts, and passes name and threat level through |
| PayloadManager.WithAttr | plugins/payloadmanager/app/payloadmanager_svc.py:166-168 | a key `hasattr` rejects changes nothing; the setter-less property `unique` (c_payload.py:67-68) raises; setting `payload_id` sets the id; any other key keeps it |
| PayloadManager.PatchIgnoresUnknownKeys | plugins/payloadmanager/app/payloadmanager_svc.py:166-168 | a patch made only of unknown keys leaves the payload unchanged |
| PayloadManager.PatchUnknownKeyAppended | plugins/payloadmanager/app/payloadmanager_svc.py:166-168 | an unknown key anywhere in a patch has no effect |
| PayloadManager.ApplyPatchFaultExtends | plugins/payloadmanager/app/payloadmanager_svc.py:166-168 | once a patch entry raises, the whole update raises |
| PayloadManager.WithUpload | plugins/payloadmanager/app/payloadmanager_svc.py:171-178 | an upload sets the artifact path from the name and layout, keeps a truthy file type, and raises on a `None` name |
| PayloadManager.UpdatePayload | plugins/payloadmanager/app/payloadmanager_svc.py:154-190 | an unknown id raises; otherwise the stored object becomes the update specification of its old fields and is returned; when the patch applies, the object holds the patched, uploaded and time-stamped record even if saving then raises; no other payload changes |
| PayloadManager.UpdateObject | plugins/payloadmanager/app/payloadmanager_svc.py:165-183 | on the found object: succeeds exactly when the update specification does, and the object then holds that specification's record; on a raise after the patch it holds the record `update_payload` had built by then |
| PayloadManager.UpdateSpecMeaning | plugins/payloadmanager/app/payloadmanager_svc.py:165-183 | an update raises exactly when the patch raises or leaves no name, since the upload path and the YAML path of `_get_payload_yaml_path` (line 306) need it; otherwise the record is the patched one with the new modification time and, with an upload, its path, md5 and size |
| PayloadManager.SetAttributes | plugins/payloadmanager/app/payloadmanager_svc.py:166-168 | the attribute loop succeeds exactly when the patch applies, and the object then holds the patched record |
| PayloadManager.SaveUpload | plugins/payloadmanager/app/payloadmanager_svc.py:171-178 | saving an upload sets the artifact path, its md5 and size, and the type inferred from the extension only when the type was falsy, as the upload step of the creation and update specifications says |
| PayloadManager.SetUploaded | plugins/payloadmanager/app/payloadmanager_svc.py:173-178 | the path, digest and size replace the old ones, the file type is kept when truthy and inferred from the path otherwise, and no other attribute changes |
| PayloadManager.CreatedRecordMeaning | plugins/payloadmanager/app/payloadmanager_svc.py:112-138 | with the required fields present, creation succeeds exactly when the fields are well shaped; both dates are the given time, the name is non-empty, a given id is kept, and an upload sets the file path and md5 |
| PayloadManager.CreatePayload | plugins/payloadmanager/app/payloadmanager_svc.py:112-152 | a missing required field raises with no change; otherwise the built record is stored as `store` does (appended and renamed on collision, or merged into the existing object) and no other payload changes |
| PayloadManager.BuildPayload | plugins/payloadmanager/app/payloadmanager_svc.py:116-138 | the object built is fresh and holds the created record, and building fails exactly when the record cannot be created |
| PayloadManager.Construct | plugins/payloadmanager/app/payloadmanager_svc.py:122-138 | from well-shaped data, a fresh object holding the created record |
| PayloadManager.LoadedRecordMeaning | plugins/payloadmanager/app/payloadmanager_svc.py:82-101 | a record is loaded exactly when the document is accepted and well shaped; found file facts fill only a falsy md5 or size; without a file the record is the constructor's |
| PayloadManager.LoadPayloadFromYaml | plugins/payloadmanager/app/payloadmanager_svc.py:76-110 | a rejected document changes nothing; an accepted one is stored as `store` does, and no other payload changes |
| PayloadManager.BuildLoaded | plugins/payloadmanager/app/payloadmanager_svc.py:85-101 | the object built is fresh and holds the loaded record |
| Profiles.SchemaErrors | app/objects/c_profile.py:18-27 | risk, platform and tactic are each flagged exactly when a value lies outside its enumeration |
| Profiles.TacticNamesMatchSchema | app/objects/c_profile.py:19-21 | the schema's tactic names are exactly the display names of the payload manager's eleven tactic slugs |
| Profiles.PlatformsAndRisksAgainstSchema | app/objects/c_profile.py:22-27 | every supported platform's display name is allowed, and `Critical` is the one threat level the profile risks do not allow |
| Profiles.ProfileInitialDefaults | app/objects/c_profile.py:36-51 | a falsy id becomes the fresh id, missing lists become empty, a falsy risk becomes `Low`, a missing description becomes empty, extras are kept, and access is RED unless an extra sets it |
| Profiles.Profile.constructor | app/objects/c_profile.py:36-51 | the new profile's fields are the defaulted arguments and extras |
| Profiles.Profile.SetExtras | app/objects/c_profile.py:50-51 | every extra becomes an attribute unchanged, an `access` extra overrides RED, and the named fields are untouched |
| Profiles.MergeProfile | app/objects/c_profile.py:62-67 | an update never changes the id, file type, access or extras |
| Profiles.MergeProfileRules | app/objects/c_profile.py:62-67 | exactly name, file name, platform, description, tactic and risk are updated, under either rule |
| Profiles.MergeProfileSelf | app/objects/c_profile.py:62-67 | storing a profile onto an equal one changes nothing |
| Profiles.FindUnique | app/objects/c_profile.py:53-58 | the first profile whose hashed id equals the key, or none |
| Profiles.FindUniqueById | app/objects/c_profile.py:53-55 | with an injective hash, lookup by hashed id finds exactly profiles with that id |
| Profiles.FindUniqueAppend | app/objects/c_profile.py:59-61 | after appending a profile with a new id, the lookup finds it |
| Profiles.Profile.Store | app/objects/c_profile.py:57-68 | a new id appends this profile unchanged; an existing id merges into the stored one, returns it, and leaves the list and the other profiles unchanged |
| Profiles.StoreSameIdTwice | app/objects/c_profile.py:57-68 | worked example of `Profile.Store`'s contract: storing two profiles with one id keeps one entry, and the second profile's file type is not copied |
| Profiles.SearchTags | app/objects/c_profile.py:70-72 | a profile without a `tags` attribute raises, and a match needs a truthy tags value |
| Profiles.SearchTagsMeaning | app/objects/c_profile.py:70-72 | the match ignores the case of the value, an empty value matches exactly when there is a tag, and a tag list matches exactly when one tag does |
| AgentAccess.CanAccess | test_backend_logic.py:127-138 | an agent whose paw the operation lists always has access, and only an id list or a group can shut an agent out |
| AgentAccess.IdsDecide | test_backend_logic.py:128-132 | a non-empty id list decides by paw membership whatever the groups |
| AgentAccess.GroupDecides | test_backend_logic.py:133-135 | otherwise a non-empty group decides by equality whatever the paw |
| AgentAccess.OpenToAll | test_backend_logic.py:136-138 | with neither, every agent has access |
| AgentAccess.SelectMeaning | test_backend_logic.py:79-82 | a comprehension with a condition keeps exactly the satisfying elements, in order |
| AgentAccess.FilterAgentsByGroup | test_backend_logic.py:76-85 | at most the given agents, each one of them, and with a non-empty id list only agents it names |
| AgentAccess.FilterAgentsMeaning | test_backend_logic.py:76-85 | the group filter is an order-preserving sub-list holding exactly the agents the access check admits |
| AgentAccess.SimulateAddAgentToOperation | test_backend_logic.py:170-191 | the loop returns exactly, in order, the operations the access check admits the agent to |
| AgentAccess.AccessibleOps | test_backend_logic.py:170-191 | at most the given operations, each one of them and open to the agent |
| AgentAccess.AccessibleOpsMeaning | test_backend_logic.py:170-191 | an operation is accessible exactly when the group filter for it selects the agent |

## Left out
- I/O is not modelled: HTTP handling, directory walks, YAML parsing and dumping, zip export, `save_uploaded_file`, `download_payload`, `_save_payload_file`'s write, `_save_payload_to_file`'s write (its YAML path, which raises on a `None` name, is modelled), `_ensure_directories` and `_load_payloads`' directory walk. Documents, file facts and paths come in as values.
- Library behaviour is left out: the MD5 digest, `csv.DictWriter` quoting and the UTF-8 decoding with `errors='ignore'`. `datetime.now`, `uuid.uuid4` and the profile's `hash` are parameters. `_load_payload_from_yaml` uses one fresh id for both `uuid4` calls it may make.
- The orchestration services are oracles: `rest_svc.create_operation`, `rest_svc.add_manual_command` and `data_svc.locate`. Each is a function of its request: `create_operation` of the operation's name (`payload-<pid>`) and agent ids, so each id of a batch gets its own answer, but two identical requests get the same answer. Only the `create_operation` and `add_manual_command` calls are recorded.
- Dicts are `map`s, so insertion order is lost, and `str()` of a dict is a placeholder string. Iterating a set follows no particular order. This covers the `batch_actions` id order, the error order and the facet key order before sorting.
- Api.IterOf, Api.JoinedStrs, Api.JoinedReprs: a dict raises in the model where Python iterates its keys, because a `map` keeps no key order. So `agent_ids` given as a dict does not dispatch to its keys, and an `os`, `tactics` or `tags` dict does not export as its comma-joined keys. `Api.IdSet` does take a dict's keys, since a set has no order anyway.
- Api.IdSet: Python's `set` treats `1` and `True`, and `0` and `False`, as one element. The model keeps them apart.
- Values.PyRepr: always quotes a string with `'`. Python's `repr` switches to `"` for a string that holds a `'`, and escapes control characters.
- Values.Value: floats, dates and datetimes are outside the value domain. `yaml.safe_load` reads an unquoted `updated_at: 2024-05-01` as a date. Under the default `updated_at:desc` order, a catalogue holding such an item and one with a defaulted ISO-string `updated_at` raises `TypeError` when `list_payloads` sorts, and `ListRaises` cannot see this case. A float `file_size` in a payload manager document cannot be expressed either.
- Strings are ASCII-only. Lower-casing and `title()` act on ASCII letters only. `\d` in the tactic pattern matches ASCII digits only, while Python's also matches other Unicode digits. The `$` of both patterns is modelled, including its match before a final newline.
- Catalogue.UpsertOkIff: the model raises on hashable non-string values that Python stores and indexes: an int (or bool) id, `os` entry, `file_type`, tag, `status` or `severity`. Both raise on a non-string name, description or tag, which the word index's `' '.join` rejects. A raise keeps the record and the postings added before the statement the model raises at, and only a non-string id leaves the state unchanged. For a hashable non-string tag (int, bool or `None`), Python still posts every tag, the status and the severity before the join raises, while the model stops at the tags, so those postings are missing from its state.
- Service.PayloadsService.ListPayloads: sort keys that are lists, dicts or mixed kinds count as a raise. Python compares lists element-wise. The page number and size are taken as integers, with `int()` parsing left to the HTTP layer.
- PayloadManager.ArgsOf: a field with a shape the object does not hold makes the call raise. Python would accept it and store the value as given.
- PayloadManager.WithAttr: `setattr` stores any value, but the model raises where its record cannot hold the value: a text attribute set to a value that is neither a string nor `None`, `file_size` or a date set to a non-integer, `plugin` or `payload_id` set to a non-string, and a list attribute set to `None`, to a non-list or to a list holding a non-string. A key that names a method or a class attribute (`hasattr` holds for it) is treated as unknown, except the property `unique`, which raises as in Python.
- PayloadManager.UpdatePayload: when an entry of the patch raises, the attributes set before it are not stated.
- Profiles.Profile.constructor: an extra named `unique` raises in Python, because the property has no setter. An extra that repeats a parameter name cannot be passed. Both are excluded by the requires.
- `Access(access)` for a payload and `Access.RED` for a profile are kept as given values. The `Access` enum conversion is not part of this model.
- `BaseObject.retrieve` and `BaseObject.update` are not part of this model. Their assumed behaviour is the first-match lookup and the `UpdateRule` parameter.
- `get_file_size_display` is left out because it uses float division and `%.1f` formatting.
- `delete_payload` and the payload manager's zip `export_payloads` body are left out, except for its id filter and renaming. `payload_data_svc.py`, `payload_api.py` and the other plugins' HTTP handlers are also left out.
- AgentAccess: an operation without an `agent_ids` attribute is modelled as `None`. `hasattr` is not otherwise modelled.
