# Terraform project context and Checkov report enrichment, in Dafny

This project models the part of the Checkov report agent that does not involve the
language model.

**The indexer.** `TerraformProjectContext` walks a Terraform project and indexes it
into four structures:
- the list of provider names;
- the map from resource type to instance names;
- the network topology, keyed by component name and then instance name;
- the map of parsed files.

From these it derives a read-only project summary.

**The agent.** `CheckovReportAgent` does three things:
- it builds the context once and caches that summary;
- it enriches each failed Checkov check with a topology lookup and the rendered summary;
- it summarises a report's failed checks: their count and the distinct resources and files they name.

Modules, in dependency order:

- `Wrappers` — `Option` and `Result`.
- `Hcl` — the parsed HCL document.
  - Provider blocks are sequences of names.
  - Resource blocks are sequences of `(type, instances)` items, and `Config` is an opaque configuration value.
  - A lockfile is a sequence of elements, where an element is either a key string or a table. Iterating the dictionary the HCL parser returns yields key strings only (`DictIteration`).
- `NameLists` — the "append if not already listed" merge of provider names, `MergeNames`. It is proved against an independent first-seen reference, `Fresh`.
- `Topology` — the fixed table from nine Google Cloud resource types to component names, and the upsert into the nested topology map.
- `ProjectIndex` — the indexer's state as a value (`Index`). Each step that changes it is a function of the old state: a parsed `.tf` file, a lockfile, a walk entry, or the whole walk. The module also defines the invariant `Consistent` and the growth relation `Extends`.
- `IndexProperties` — lemmas about those steps:
  - each step preserves `Consistent` and only grows the state;
  - what a step does to the resource lists and to the providers;
  - the lockfile behaviour;
  - what the summary states.
- `ProjectContext` — the class `TerraformProjectContext`. Its fields are updated in place by loop methods. Each method is proved to leave the object in the state the matching pure function (of `ProjectIndex`, `NameLists` or `Topology`) computes from the old state. `AnalyzeProject`, `ParseTfFile` and `ParseLockfile` also keep `Valid()`, the invariant `Consistent` of the object's state.
- `CheckovAgent` — the class `CheckovReportAgent` (context and cached summary), the finding enrichment, the rendering of the summary's name lists, and the failed-check summary.

Two behaviours of the code are kept as written:
- **The lockfile adds no providers.** The lockfile parser only takes names from elements that are tables whose `provider` value is a table. Iterating the dictionary the parser returns yields its keys, which are strings, so a real lockfile adds no providers (`LockfileOfHclDictChangesNothing`).
- **Terraform types never get network context.** The enrichment looks up the topology with the finding's raw `resource_type`. The topology is keyed by component names such as `vpc`, so a finding whose type is a Terraform type such as `google_compute_network` never gets network context (`TerraformTypeNeverGetsContext`).

`check_id` is read at agent/agent.py:90 but never rendered, so `CheckAnalysis` has no `check_id`.

## Model

| member | source | states |
|---|---|---|
| Topology.Classify | agent/project_context.py:75-88 | the component of a type is `None` or one of the nine component names |
| Topology.ClassifiedTypes | agent/project_context.py:75-87 | exactly the nine listed resource types are classified; every other string is not |
| Topology.ClassifyIsOneToOne | agent/project_context.py:75-85 | no two resource types share a component name |
| Topology.ClassifyReachesEveryComponent | agent/project_context.py:75-85 | each of the nine component names is the component of some resource type |
| Topology.ClassifiedTypeIsNotAComponent | agent/project_context.py:75-85 | a classified Terraform type string is never itself a component name |
| Topology.Record | agent/project_context.py:87-92 | for a classified type, component / name holds the new config (last write wins) and every other entry reads as before; an unclassified type leaves the topology unchanged; the component keys grow by at most the new component |
| NameLists.FlattenMembers | agent/project_context.py:34-36 | a name is in the flattened provider blocks iff some block lists it |
| NameLists.MergeNamesConcat | agent/project_context.py:35-38 | merging two name lists one after the other is merging their concatenation |
| NameLists.MergeNamesNoDup | agent/project_context.py:37-38 | the merged provider list never holds a duplicate |
| NameLists.MergeNamesAppendsFresh | agent/project_context.py:35-38 | merging keeps the existing list as a prefix and appends exactly the new names, once each, in first-seen order |
| NameLists.FreshMembers | agent/project_context.py:37-38 | the appended names are exactly those in the input that were not already listed |
| NameLists.FreshSnoc | agent/project_context.py:37-38 | one more input name is appended iff it is neither listed already nor seen earlier in the input |
| NameLists.MergeNamesMembers | agent/project_context.py:37-38 | the merged list holds exactly the existing names and the input names |
| ProjectIndex.AddInstances | agent/project_context.py:48-51 | appending instances of a type changes no resource key, no file, and not the provider list or the type order |
| ProjectIndex.AddEntry | agent/project_context.py:44-51 | after a resource item its type is a resource key, even with no instances; files and providers are untouched |
| ProjectIndex.AddBlock | agent/project_context.py:43-51 | a resource block touches neither the files nor the providers |
| ProjectIndex.AddBlocks | agent/project_context.py:41-51 | a document's resource blocks touch neither the files nor the providers |
| ProjectIndex.TfFileStep | agent/project_context.py:25-56 | a failed parse changes nothing; a successful one records the document under its path, whatever blocks it has |
| ProjectIndex.LockfileStep | agent/project_context.py:58-71 | the lockfile step changes only the provider list, and a failed read changes nothing |
| ProjectIndex.Dispatch | agent/project_context.py:17-23 | a name ending in `.tf` goes to the `.tf` parser, exactly the lockfile name goes to the lockfile parser, every other name is skipped, and the two never overlap |
| IndexProperties.AddInstanceExtends | agent/project_context.py:49-51 | one instance only grows the state: no list shrinks, no key or topology name is lost |
| IndexProperties.AddInstanceKeepsComponents | agent/project_context.py:87-92 | after filing an instance every topology key is still a component name with a non-empty bucket |
| IndexProperties.AddInstanceKeepsBacked | agent/project_context.py:49-51 | the name is appended to its type's list before it is filed, so every topology name is still a resource of a type filed under its component |
| IndexProperties.AddInstancePreserves | agent/project_context.py:49-51 | one instance keeps the invariant and only grows the state |
| IndexProperties.AddInstancesPreserves | agent/project_context.py:48-51 | the instances of a type keep the invariant and only grow the state |
| IndexProperties.EnsureTypePreserves | agent/project_context.py:45-46 | giving an unseen type an empty list keeps the invariant, and the type is then a key |
| IndexProperties.AddEntryPreserves | agent/project_context.py:44-51 | a resource item keeps the invariant and only grows the state |
| IndexProperties.AddBlockPreserves | agent/project_context.py:43-51 | a resource block keeps the invariant and only grows the state |
| IndexProperties.AddBlocksPreserves | agent/project_context.py:41-51 | a document's resource blocks keep the invariant and only grow the state |
| IndexProperties.MergeProvidersPreserves | agent/project_context.py:33-38 | merging provider names keeps the invariant and only grows the state |
| IndexProperties.RecordFilePreserves | agent/project_context.py:30 | recording a document under its path keeps the invariant (a new path is listed once) and only grows the state |
| IndexProperties.TfFileStepPreserves | agent/project_context.py:25-56 | a `.tf` file step keeps the invariant and only grows the state |
| IndexProperties.LockfileStepPreserves | agent/project_context.py:58-71 | a lockfile step keeps the invariant and only grows the state |
| IndexProperties.WalkStepPreserves | agent/project_context.py:17-23 | one walk entry keeps the invariant and only grows the state |
| ProjectIndex.Walk | agent/project_context.py:14-23 | no contract of its own: the walk of the listing in order; its properties are stated by `WalkPreserves`, `WalkSkipsFailedAndIgnored` and `AnalyzeProject` |
| IndexProperties.WalkPreserves | agent/project_context.py:14-23 | the whole walk keeps the invariant and only grows the state |
| IndexProperties.ExtendsTransitive | agent/project_context.py:14-23 | growth composes across steps |
| IndexProperties.EmptyIsConsistent | agent/project_context.py:7-12 | the freshly constructed, empty state satisfies the invariant |
| IndexProperties.AddInstancesResources | agent/project_context.py:48-49 | the instances' names are appended to their type's list in order, duplicates kept, and no other list changes |
| IndexProperties.AddEntryResources | agent/project_context.py:44-49 | after an item its type is a key; each type's list gains exactly that item's names for it |
| IndexProperties.AddBlockKeys | agent/project_context.py:43-46 | after a resource block the resource keys are the old keys plus the types the block declares |
| IndexProperties.AddBlockResources | agent/project_context.py:43-49 | each type's list gains exactly the block's names for that type, in block order |
| IndexProperties.BlockNamesOutsideTypes | agent/project_context.py:44-49 | a type the block does not declare gains no names from it |
| IndexProperties.AddBlocksKeys | agent/project_context.py:41-46 | after a document's resource blocks the resource keys are the old keys plus the declared types |
| IndexProperties.AddBlocksResources | agent/project_context.py:41-49 | each type's list gains exactly the document's names for that type, in block order |
| IndexProperties.BlocksNamesOutsideTypes | agent/project_context.py:41-49 | a type no block declares gains no names, so its list is unchanged |
| IndexProperties.TfFileStepFacts | agent/project_context.py:27-51 | a parsed file is recorded under its path; new provider names are appended in first-seen order; the resource keys gain exactly the document's types; each list gains the document's names for its type; other lists are unchanged |
| IndexProperties.ElementProvidersOnlyFromTables | agent/project_context.py:64-67 | an element contributes names only when it is a table whose `provider` value is a table, and then exactly that table's names |
| IndexProperties.LockProvidersMembers | agent/project_context.py:63-67 | a lockfile contributes a name iff one of its elements contributes it |
| IndexProperties.LockfileStepFacts | agent/project_context.py:63-69 | a lockfile appends exactly its new provider names in first-seen order and changes nothing else |
| IndexProperties.KeyTextsHaveNoProviders | agent/project_context.py:63-64 | elements that are key strings contribute no provider names |
| IndexProperties.LockfileOfHclDictChangesNothing | agent/project_context.py:62-69 | a lockfile read as the parser's dictionary leaves the state unchanged |
| IndexProperties.WalkSkipsFailedAndIgnored | agent/project_context.py:17-23 | the walk is the same once skipped names and files that fail to parse are dropped from it |
| ProjectIndex.Summarize | agent/project_context.py:94-102 | no contract of its own: the summary of an index; its properties are stated by `SummaryMatchesIndex` |
| IndexProperties.SummaryMatchesIndex | agent/project_context.py:94-102 | the summary's providers are the provider list; its resource types are exactly the resource keys; each count is its list's length; its network components are the topology keys with their instance names, each name backed by a resource of a type filed there; its files are exactly the recorded paths; no list holds a duplicate |
| ProjectContext.TerraformProjectContext.constructor | agent/project_context.py:7-12 | a new context is empty and valid |
| ProjectContext.TerraformProjectContext.AnalyzeProject | agent/project_context.py:14-23 | the object ends in the state of the walk over the listing, keeps its invariant and only grows |
| ProjectContext.TerraformProjectContext.ParseTfFile | agent/project_context.py:25-56 | the object ends in the `.tf` file step's state (unchanged on a failed parse) and keeps `Valid()` |
| ProjectContext.TerraformProjectContext.AddProviderBlocks | agent/project_context.py:33-38 | the provider list becomes the merge of the old list with the blocks' names |
| ProjectContext.TerraformProjectContext.AddProviderNames | agent/project_context.py:36-38 | the provider list becomes the merge of the old list with the names |
| ProjectContext.TerraformProjectContext.AddResourceBlocks | agent/project_context.py:41-51 | resources, type order and topology end as the resource-blocks step computes |
| ProjectContext.TerraformProjectContext.AddResourceBlock | agent/project_context.py:43-51 | resources, type order and topology end as one block's step computes |
| ProjectContext.TerraformProjectContext.AddInstancesOf | agent/project_context.py:48-51 | resources and topology end as appending those instances computes |
| ProjectContext.TerraformProjectContext.ParseLockfile | agent/project_context.py:58-71 | the object ends in the lockfile step's state (unchanged on a failed parse) and keeps `Valid()` |
| ProjectContext.TerraformProjectContext.AddLockProviders | agent/project_context.py:63-69 | the provider list becomes the merge of the old list with the names of table elements whose `provider` value is a table |
| ProjectContext.TerraformProjectContext.AnalyzeNetworkComponents | agent/project_context.py:73-92 | the topology becomes the upsert of the instance under its component |
| ProjectContext.TerraformProjectContext.GetProjectSummary | agent/project_context.py:94-102 | no contract of its own: `Summarize` of the object's state, whose properties `SummaryMatchesIndex` states |
| CheckovAgent.JoinLength | agent/agent.py:82-83 | a joined list is as long as its parts plus one separator between each pair |
| CheckovAgent.JoinPlacesPart | agent/agent.py:82-83 | the joined text holds each part at its offset, in list order |
| CheckovAgent.JoinSeparatesParts | agent/agent.py:82-83 | the joined text holds exactly the separator between neighbouring parts |
| CheckovAgent.ProvidersLineListsProvider | agent/agent.py:82 | the rendered providers line lists every provider in list order, separated by ", " |
| CheckovAgent.RenderProjectContext | agent/agent.py:78-85 | no contract of its own: the two `", "`-joined name lists and the component map; `ProvidersLineListsProvider` and `JoinPlacesPart` state the joins |
| CheckovAgent.CheckovReportAgent.GetProjectContext | agent/agent.py:78-85 | no contract of its own: the rendering of the cached summary; `EveryFindingSharesTheSnapshot` states that it is the summary of the context's state |
| CheckovAgent.CheckovReportAgent.constructor | agent/agent.py:9-13 | the context is new, analysed over the listing from empty, and the cached summary is its summary |
| CheckovAgent.CheckovReportAgent.AnalyzeFailedCheck | agent/agent.py:87-114 | issue, resource, location and reference are the check's fields; a missing type or name counts as "" and a JSON `null` one matches nothing; network context is present iff the raw type is a topology key whose bucket holds the name, and is then that config; the project context is always attached |
| CheckovAgent.TerraformTypeNeverGetsContext | agent/agent.py:98-105 | a finding whose type is one of the nine classified Terraform types never gets network context |
| CheckovAgent.ContextOnlyForComponentNames | agent/agent.py:98-105 | network context is attached only when the type is present and a component name, the name is not `null`, and the name is an instance of the Terraform type filed under it |
| CheckovAgent.MissingAndNullNamesDiffer | agent/agent.py:98-105 | where a bucket holds an instance with the empty label, a finding with no `resource_name` key gets its context and one with a `null` name does not |
| CheckovAgent.EmptyProjectNeverMatches | agent/agent.py:78-105 | with nothing analysed, no finding gets network context and both rendered lists are empty |
| CheckovAgent.EveryFindingSharesTheSnapshot | agent/agent.py:11-13 | every finding is rendered with the same project context, the summary of the context's state |
| CheckovAgent.ColumnsHoldTheirChecks | agent/agent.py:121-122 | the resource and file columns hold exactly the values the checks carry |
| CheckovAgent.DistinctBound | agent/agent.py:121-122 | a column has no more distinct values than entries |
| CheckovAgent.GetSummary | agent/agent.py:116-129 | it succeeds iff every check has a resource and a file path, and fails on a missing resource first; on success the total is the number of checks, and the two sets are exactly the resources and file paths the checks name |
| CheckovAgent.SummaryBounds | agent/agent.py:119-123 | neither set is larger than the number of failed checks |
| CheckovAgent.MissingResultsMeansNothingFailed | agent/agent.py:118-123 | a report without `results` or without `failed_checks` gives a total of 0 and two empty sets |

## Left out

- Reading and parsing files are not modelled. `hcl2.load` and `open` are the parameters `readTf` and `readLock`, and `None` stands for any exception the handler catches.
- `os.walk` is not modelled. It is a given listing of (directory, name) entries in whatever order the walk yields, and no order is promised.
- `os.path.join` is modelled only for a plain file name (`JoinPath`), not for absolute names.
- `export_context` and both `__main__` blocks write or print JSON, so they are left out. `agent/run_agent.py` is a command-line entry point and is not part of this model.
- The language-model machinery is left out: the tools, the prompt, the agent executor and the `process_report` loop.
- `json.dumps` and the f-string layout are not modelled. A rendered finding is a `CheckAnalysis` value: which fields, which network context, which project context. The project context is its two joined name lists plus the component map.
- The joins in `_get_summary` are not modelled as strings. Set iteration order is hash-dependent, so the affected resources and files are sets.
- The order of the topology's component keys, and of the instance names inside each component, is not tracked: `networkComponents` holds sets. The summary does list both in insertion order, but only through the `json.dumps` rendering, which is not modelled. The order of `resources` and `tf_files` keys is kept.
- Printing and tracebacks in the exception handlers are left out.
- Malformed documents are not modelled. A document whose shape makes `_parse_tf_file` raise part-way (a non-dict resource item, say) leaves partial effects in Python; the typed model cannot build such a document.
- `ProjectIndex.TfFileStep`, `ProjectIndex.AddBlock` and the other steps treat the instances of one resource item as a sequence. A dictionary cannot hold a name twice, so an item that repeats a name has no Python counterpart.
- `CheckovAgent.GetSummary` treats a check whose `resource` or `file_path` is present but not a string like a missing one only when it is JSON `null`. A number would make the join raise too, and the typed model cannot hold one. Likewise `results: null` or `failed_checks: null` in the report would raise, and the model treats such a report as if the key were missing.
- `CheckovAgent.CheckovReportAgent.constructor` does not model one aliasing detail. The cached summary shares its provider list with the context, so a later change to the context's providers would show in it. Nothing changes the context after construction.
