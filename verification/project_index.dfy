/**
 * The state of the Terraform project indexer as a value, and every step that
 * changes it as a function of the old state: recording a parsed `.tf` file,
 * merging a lockfile's providers, and walking a directory listing. The class
 * in module ProjectContext performs these steps in place and is proved against
 * these functions.
 */
module ProjectIndex {

  import opened Wrappers
  import opened Hcl
  import opened NameLists
  import opened Topology

  /**
   * The indexer's four structures. A Python dict remembers the order in which its
   * keys were inserted; `fileOrder` and `resourceTypes` keep that order for the
   * keys of `tfFiles` and `resources`, which the project summary lists.
   */
  datatype Index = Index(
    tfFiles: map<string, TfDocument>,
    fileOrder: seq<string>,
    providers: seq<string>,
    resources: map<string, seq<string>>,
    resourceTypes: seq<string>,
    topology: map<string, map<string, Config>>)

  /** The state right after construction: everything empty. */
  const EMPTY: Index := Index(map[], [], [], map[], [], map[])

  /** Every topology entry is backed by a resource name of a type filed under its component. */
  ghost predicate TopologyBacked(s: Index)
  {
    forall c, n :: c in s.topology && n in s.topology[c] ==>
      exists t :: t in s.resources && Classify(t) == Some(c) && n in s.resources[t]
  }

  /** The invariant the indexer keeps between steps. */
  ghost predicate Consistent(s: Index)
  {
    && NoDup(s.providers)
    && NoDup(s.fileOrder)
    && (forall p :: p in s.tfFiles <==> p in s.fileOrder)
    && NoDup(s.resourceTypes)
    && (forall t :: t in s.resources <==> t in s.resourceTypes)
    && (forall c :: c in s.topology ==> c in COMPONENT_NAMES && s.topology[c] != map[])
    && TopologyBacked(s)
  }

  /** `after` is `before` with things only added: lists grow at the end, keys stay. */
  ghost predicate Extends(before: Index, after: Index)
  {
    && before.fileOrder <= after.fileOrder
    && before.providers <= after.providers
    && before.resourceTypes <= after.resourceTypes
    && (forall p :: p in before.tfFiles ==> p in after.tfFiles)
    && (forall t :: t in before.resources ==> t in after.resources && before.resources[t] <= after.resources[t])
    && (forall c :: c in before.topology ==> c in after.topology && before.topology[c].Keys <= after.topology[c].Keys)
  }

  /** `resources.get(rtype, [])`. */
  function Get(resources: map<string, seq<string>>, rtype: string): seq<string>
  {
    if rtype in resources then resources[rtype] else []
  }

  function NamesOf(instances: seq<Instance>): seq<string>
  {
    seq(|instances|, i requires 0 <= i < |instances| => instances[i].name)
  }

  // ---------------------------------------------------------------------------
  // Resource blocks
  // ---------------------------------------------------------------------------

  /** One instance: append its name to `resources[rtype]`, then file it in the topology. */
  function AddInstance(s: Index, rtype: string, instance: Instance): Index
    requires rtype in s.resources
  {
    s.(resources := s.resources[rtype := s.resources[rtype] + [instance.name]],
       topology := Record(s.topology, rtype, instance.name, instance.config))
  }

  /** The instances of one type, in order. */
  function AddInstances(s: Index, rtype: string, instances: seq<Instance>): (r: Index)
    requires rtype in s.resources
    ensures r.resources.Keys == s.resources.Keys
    ensures r.tfFiles == s.tfFiles && r.fileOrder == s.fileOrder
    ensures r.providers == s.providers && r.resourceTypes == s.resourceTypes
    decreases |instances|
  {
    if instances == [] then s
    else
      var last := |instances| - 1;
      AddInstance(AddInstances(s, rtype, instances[..last]), rtype, instances[last])
  }

  /** `if rtype not in resources: resources[rtype] = []`. */
  function EnsureType(s: Index, rtype: string): Index
  {
    if rtype in s.resources then s
    else s.(resources := s.resources[rtype := []], resourceTypes := s.resourceTypes + [rtype])
  }

  /** One `(resource_type, instances)` item of a resource block. */
  function AddEntry(s: Index, entry: ResourceEntry): (r: Index)
    ensures entry.rtype in r.resources
    ensures r.tfFiles == s.tfFiles && r.fileOrder == s.fileOrder && r.providers == s.providers
  {
    AddInstances(EnsureType(s, entry.rtype), entry.rtype, entry.instances)
  }

  /** The items of one resource block, in order. */
  function AddBlock(s: Index, block: ResourceBlock): (r: Index)
    ensures r.tfFiles == s.tfFiles && r.fileOrder == s.fileOrder && r.providers == s.providers
    decreases |block|
  {
    if block == [] then s else AddEntry(AddBlock(s, block[..|block| - 1]), block[|block| - 1])
  }

  /** A document's resource blocks, in order. */
  function AddBlocks(s: Index, blocks: seq<ResourceBlock>): (r: Index)
    ensures r.tfFiles == s.tfFiles && r.fileOrder == s.fileOrder && r.providers == s.providers
    decreases |blocks|
  {
    if blocks == [] then s else AddBlock(AddBlocks(s, blocks[..|blocks| - 1]), blocks[|blocks| - 1])
  }

  // ---------------------------------------------------------------------------
  // Files
  // ---------------------------------------------------------------------------

  /** The provider names a document declares, block by block. */
  function ProviderNames(doc: TfDocument): seq<string>
  {
    if doc.provider.Some? then Flatten(doc.provider.value) else []
  }

  /**
   * `_parse_tf_file` on a file whose parse gave `parsed`: a failed parse changes
   * nothing; otherwise the document is recorded first, then its provider blocks
   * and its resource blocks are processed.
   */
  function TfFileStep(s: Index, path: string, parsed: Option<TfDocument>): (r: Index)
    ensures parsed.None? ==> r == s
    ensures parsed.Some? ==> r.tfFiles == s.tfFiles[path := parsed.value]
  {
    match parsed
    case None => s
    case Some(doc) =>
      var recorded := s.(tfFiles := s.tfFiles[path := doc],
                         fileOrder := if path in s.tfFiles then s.fileOrder else s.fileOrder + [path]);
      var withProviders :=
        if doc.provider.Some? then recorded.(providers := MergeNames(recorded.providers, Flatten(doc.provider.value)))
        else recorded;
      if doc.resource.Some? then AddBlocks(withProviders, doc.resource.value) else withProviders
  }

  /** The provider names one lockfile element contributes: only a table whose `provider` value is a table. */
  function ElementProviders(elem: LockElement): seq<string>
  {
    match elem
    case Table(Some(ProviderTable(names))) => names
    case _ => []
  }

  function LockProviders(elems: seq<LockElement>): seq<string>
    decreases |elems|
  {
    if elems == [] then [] else LockProviders(elems[..|elems| - 1]) + ElementProviders(elems[|elems| - 1])
  }

  /** `_parse_lockfile`: merges provider names and touches nothing else. */
  function LockfileStep(s: Index, parsed: Option<seq<LockElement>>): (r: Index)
    ensures r.tfFiles == s.tfFiles && r.fileOrder == s.fileOrder
    ensures r.resources == s.resources && r.resourceTypes == s.resourceTypes && r.topology == s.topology
    ensures parsed.None? ==> r == s
  {
    match parsed
    case None => s
    case Some(elems) => s.(providers := MergeNames(s.providers, LockProviders(elems)))
  }

  // ---------------------------------------------------------------------------
  // The directory walk
  // ---------------------------------------------------------------------------

  /** One file reported by the directory walk: its directory and its name. */
  datatype WalkEntry = WalkEntry(root: string, name: string)

  datatype FileKind = TfConfig | Lockfile | Ignored

  const LOCKFILE_NAME: string := ".terraform.lock.hcl"

  predicate EndsWith(s: string, suffix: string)
  {
    |suffix| <= |s| && s[|s| - |suffix|..] == suffix
  }

  /** Which parser a file name is sent to; the two accepted kinds never overlap. */
  function Dispatch(name: string): (kind: FileKind)
    ensures kind == TfConfig <==> EndsWith(name, ".tf")
    ensures kind == Lockfile <==> name == LOCKFILE_NAME
    ensures kind == Ignored <==> !EndsWith(name, ".tf") && name != LOCKFILE_NAME
  {
    if EndsWith(name, ".tf") then TfConfig
    else if name == LOCKFILE_NAME then Lockfile
    else Ignored
  }

  /** `os.path.join(root, name)` for a plain file name. */
  function JoinPath(root: string, name: string): string
  {
    if root == [] || root[|root| - 1] == '/' then root + name else root + "/" + name
  }

  /** One entry of the walk; `readTf` and `readLock` stand for opening and parsing the file. */
  function WalkStep(s: Index, entry: WalkEntry,
                    readTf: string -> Option<TfDocument>, readLock: string -> Option<seq<LockElement>>): Index
  {
    var path := JoinPath(entry.root, entry.name);
    match Dispatch(entry.name)
    case TfConfig => TfFileStep(s, path, readTf(path))
    case Lockfile => LockfileStep(s, readLock(path))
    case Ignored => s
  }

  /** `analyze_project` over the entries of a walk, in the order the walk gives them. */
  function Walk(s: Index, entries: seq<WalkEntry>,
                readTf: string -> Option<TfDocument>, readLock: string -> Option<seq<LockElement>>): Index
    decreases |entries|
  {
    if entries == [] then s
    else WalkStep(Walk(s, entries[..|entries| - 1], readTf, readLock), entries[|entries| - 1], readTf, readLock)
  }

  // ---------------------------------------------------------------------------
  // The project summary
  // ---------------------------------------------------------------------------

  datatype ProjectSummary = ProjectSummary(
    providers: seq<string>,
    resourceTypes: seq<string>,
    resourceCount: map<string, nat>,
    networkComponents: map<string, set<string>>,
    filesAnalyzed: seq<string>)

  /** `get_project_summary`: a read-only projection of the four structures. */
  function Summarize(s: Index): ProjectSummary
  {
    ProjectSummary(
      s.providers,
      s.resourceTypes,
      map t | t in s.resources :: |s.resources[t]|,
      map c | c in s.topology :: s.topology[c].Keys,
      s.fileOrder)
  }
}
