/**
 * What the indexer's steps promise: the state only grows, the invariant
 * `Consistent` is kept, resource names are appended in block order, provider
 * names are appended once each in first-seen order, failed or ignored files
 * contribute nothing, and the summary agrees with the structures it projects.
 */
module IndexProperties {

  import opened Wrappers
  import opened Hcl
  import opened NameLists
  import opened Topology
  import opened ProjectIndex

  // ---------------------------------------------------------------------------
  // The state only grows
  // ---------------------------------------------------------------------------

  lemma ExtendsTransitive(a: Index, b: Index, c: Index)
    requires Extends(a, b) && Extends(b, c)
    ensures Extends(a, c)
  {
  }

  /** One instance only grows the state: the topology gains at most the new entry. */
  lemma AddInstanceExtends(s: Index, rtype: string, instance: Instance)
    requires rtype in s.resources
    ensures Extends(s, AddInstance(s, rtype, instance))
  {
    var r := AddInstance(s, rtype, instance);
    forall c | c in s.topology
      ensures c in r.topology && s.topology[c].Keys <= r.topology[c].Keys
    {
      forall n | n in s.topology[c] ensures n in r.topology[c] {
        assert Lookup(s.topology, c, n).Some?;
        assert Lookup(r.topology, c, n).Some?;
      }
    }
  }

  /** Filing an instance keeps every topology key a component name with a non-empty bucket. */
  lemma AddInstanceKeepsComponents(s: Index, rtype: string, instance: Instance)
    requires rtype in s.resources
    requires forall c :: c in s.topology ==> c in COMPONENT_NAMES && s.topology[c] != map[]
    ensures forall c :: c in AddInstance(s, rtype, instance).topology ==>
              c in COMPONENT_NAMES && AddInstance(s, rtype, instance).topology[c] != map[]
  {
    var r := AddInstance(s, rtype, instance);
    forall c | c in r.topology
      ensures c in COMPONENT_NAMES && r.topology[c] != map[]
    {
      if Classify(rtype) == Some(c) {
        assert Lookup(r.topology, c, instance.name).Some?;
      } else {
        var n :| n in s.topology[c];
        assert Lookup(s.topology, c, n).Some?;
        assert Lookup(r.topology, c, n).Some?;
      }
    }
  }

  /** The name is appended to `resources[rtype]` before the instance is filed, so the topology stays backed. */
  lemma AddInstanceKeepsBacked(s: Index, rtype: string, instance: Instance)
    requires rtype in s.resources
    requires TopologyBacked(s)
    ensures TopologyBacked(AddInstance(s, rtype, instance))
  {
    var r := AddInstance(s, rtype, instance);
    forall c, n | c in r.topology && n in r.topology[c]
      ensures exists t :: t in r.resources && Classify(t) == Some(c) && n in r.resources[t]
    {
      if Classify(rtype) == Some(c) && n == instance.name {
        assert n in r.resources[rtype];
      } else {
        assert Lookup(r.topology, c, n).Some?;
        assert Lookup(s.topology, c, n).Some?;
        var t :| t in s.resources && Classify(t) == Some(c) && n in s.resources[t];
        assert n in r.resources[t];
      }
    }
  }

  lemma AddInstancePreserves(s: Index, rtype: string, instance: Instance)
    requires rtype in s.resources
    ensures Extends(s, AddInstance(s, rtype, instance))
    ensures Consistent(s) ==> Consistent(AddInstance(s, rtype, instance))
  {
    AddInstanceExtends(s, rtype, instance);
    if Consistent(s) {
      AddInstanceKeepsComponents(s, rtype, instance);
      AddInstanceKeepsBacked(s, rtype, instance);
    }
  }

  lemma {:induction false} AddInstancesPreserves(s: Index, rtype: string, instances: seq<Instance>)
    requires rtype in s.resources
    ensures Extends(s, AddInstances(s, rtype, instances))
    ensures Consistent(s) ==> Consistent(AddInstances(s, rtype, instances))
    decreases |instances|
  {
    if instances != [] {
      var last := |instances| - 1;
      var mid := AddInstances(s, rtype, instances[..last]);
      AddInstancesPreserves(s, rtype, instances[..last]);
      AddInstancePreserves(mid, rtype, instances[last]);
      ExtendsTransitive(s, mid, AddInstances(s, rtype, instances));
    }
  }

  lemma EnsureTypePreserves(s: Index, rtype: string)
    ensures rtype in EnsureType(s, rtype).resources
    ensures Extends(s, EnsureType(s, rtype))
    ensures Consistent(s) ==> Consistent(EnsureType(s, rtype))
  {
    var r := EnsureType(s, rtype);
    if rtype !in s.resources && Consistent(s) {
      assert rtype !in s.resourceTypes;
      forall c, n | c in r.topology && n in r.topology[c]
        ensures exists t :: t in r.resources && Classify(t) == Some(c) && n in r.resources[t]
      {
        var t :| t in s.resources && Classify(t) == Some(c) && n in s.resources[t];
        assert t in r.resources && r.resources[t] == s.resources[t];
      }
    }
  }

  lemma AddEntryPreserves(s: Index, entry: ResourceEntry)
    ensures Extends(s, AddEntry(s, entry))
    ensures Consistent(s) ==> Consistent(AddEntry(s, entry))
  {
    var withType := EnsureType(s, entry.rtype);
    EnsureTypePreserves(s, entry.rtype);
    AddInstancesPreserves(withType, entry.rtype, entry.instances);
    ExtendsTransitive(s, withType, AddEntry(s, entry));
  }

  lemma {:induction false} AddBlockPreserves(s: Index, block: ResourceBlock)
    ensures Extends(s, AddBlock(s, block))
    ensures Consistent(s) ==> Consistent(AddBlock(s, block))
    decreases |block|
  {
    if block != [] {
      var mid := AddBlock(s, block[..|block| - 1]);
      AddBlockPreserves(s, block[..|block| - 1]);
      AddEntryPreserves(mid, block[|block| - 1]);
      ExtendsTransitive(s, mid, AddBlock(s, block));
    }
  }

  lemma {:induction false} AddBlocksPreserves(s: Index, blocks: seq<ResourceBlock>)
    ensures Extends(s, AddBlocks(s, blocks))
    ensures Consistent(s) ==> Consistent(AddBlocks(s, blocks))
    decreases |blocks|
  {
    if blocks != [] {
      var mid := AddBlocks(s, blocks[..|blocks| - 1]);
      AddBlocksPreserves(s, blocks[..|blocks| - 1]);
      AddBlockPreserves(mid, blocks[|blocks| - 1]);
      ExtendsTransitive(s, mid, AddBlocks(s, blocks));
    }
  }

  /** Merging provider names keeps the old list as a prefix and adds no duplicate. */
  lemma MergeProvidersPreserves(s: Index, names: seq<string>)
    ensures Extends(s, s.(providers := MergeNames(s.providers, names)))
    ensures Consistent(s) ==> Consistent(s.(providers := MergeNames(s.providers, names)))
  {
    MergeNamesAppendsFresh(s.providers, names);
    if Consistent(s) {
      MergeNamesNoDup(s.providers, names);
    }
  }

  /** Recording a document under its path, appending the path if it is new. */
  lemma RecordFilePreserves(s: Index, path: string, doc: TfDocument)
    ensures var recorded := s.(tfFiles := s.tfFiles[path := doc],
                               fileOrder := if path in s.tfFiles then s.fileOrder else s.fileOrder + [path]);
            Extends(s, recorded) && (Consistent(s) ==> Consistent(recorded))
  {
    var recorded := s.(tfFiles := s.tfFiles[path := doc],
                       fileOrder := if path in s.tfFiles then s.fileOrder else s.fileOrder + [path]);
    if Consistent(s) && path !in s.tfFiles {
      assert path !in s.fileOrder;
      assert NoDup(recorded.fileOrder);
    }
  }

  lemma TfFileStepPreserves(s: Index, path: string, parsed: Option<TfDocument>)
    ensures Extends(s, TfFileStep(s, path, parsed))
    ensures Consistent(s) ==> Consistent(TfFileStep(s, path, parsed))
  {
    if parsed.Some? {
      var doc := parsed.value;
      var recorded := s.(tfFiles := s.tfFiles[path := doc],
                         fileOrder := if path in s.tfFiles then s.fileOrder else s.fileOrder + [path]);
      RecordFilePreserves(s, path, doc);
      var withProviders :=
        if doc.provider.Some? then recorded.(providers := MergeNames(recorded.providers, Flatten(doc.provider.value)))
        else recorded;
      if doc.provider.Some? {
        MergeProvidersPreserves(recorded, Flatten(doc.provider.value));
      }
      ExtendsTransitive(s, recorded, withProviders);
      if doc.resource.Some? {
        AddBlocksPreserves(withProviders, doc.resource.value);
        ExtendsTransitive(s, withProviders, TfFileStep(s, path, parsed));
      }
    }
  }

  lemma LockfileStepPreserves(s: Index, parsed: Option<seq<LockElement>>)
    ensures Extends(s, LockfileStep(s, parsed))
    ensures Consistent(s) ==> Consistent(LockfileStep(s, parsed))
  {
    if parsed.Some? {
      MergeProvidersPreserves(s, LockProviders(parsed.value));
    }
  }

  lemma WalkStepPreserves(s: Index, entry: WalkEntry,
                          readTf: string -> Option<TfDocument>, readLock: string -> Option<seq<LockElement>>)
    ensures Extends(s, WalkStep(s, entry, readTf, readLock))
    ensures Consistent(s) ==> Consistent(WalkStep(s, entry, readTf, readLock))
  {
    var path := JoinPath(entry.root, entry.name);
    match Dispatch(entry.name)
    case TfConfig => TfFileStepPreserves(s, path, readTf(path));
    case Lockfile => LockfileStepPreserves(s, readLock(path));
    case Ignored =>
  }

  /**
   * The whole walk keeps the invariant (no duplicate providers, classified topology
   * keys, every topology entry backed by a resource name) and only adds.
   */
  lemma {:induction false} WalkPreserves(s: Index, entries: seq<WalkEntry>,
                                         readTf: string -> Option<TfDocument>, readLock: string -> Option<seq<LockElement>>)
    ensures Extends(s, Walk(s, entries, readTf, readLock))
    ensures Consistent(s) ==> Consistent(Walk(s, entries, readTf, readLock))
    decreases |entries|
  {
    if entries != [] {
      var mid := Walk(s, entries[..|entries| - 1], readTf, readLock);
      WalkPreserves(s, entries[..|entries| - 1], readTf, readLock);
      WalkStepPreserves(mid, entries[|entries| - 1], readTf, readLock);
      ExtendsTransitive(s, mid, Walk(s, entries, readTf, readLock));
    }
  }

  lemma EmptyIsConsistent()
    ensures Consistent(EMPTY)
  {
  }

  // ---------------------------------------------------------------------------
  // Resource names are appended in block order
  // ---------------------------------------------------------------------------

  /** The names a resource item adds under `rtype`. */
  function EntryNames(entry: ResourceEntry, rtype: string): seq<string>
  {
    if entry.rtype == rtype then NamesOf(entry.instances) else []
  }

  function BlockNames(block: ResourceBlock, rtype: string): seq<string>
    decreases |block|
  {
    if block == [] then [] else BlockNames(block[..|block| - 1], rtype) + EntryNames(block[|block| - 1], rtype)
  }

  function BlocksNames(blocks: seq<ResourceBlock>, rtype: string): seq<string>
    decreases |blocks|
  {
    if blocks == [] then [] else BlocksNames(blocks[..|blocks| - 1], rtype) + BlockNames(blocks[|blocks| - 1], rtype)
  }

  function BlockTypes(block: ResourceBlock): set<string>
    decreases |block|
  {
    if block == [] then {} else BlockTypes(block[..|block| - 1]) + {block[|block| - 1].rtype}
  }

  function BlocksTypes(blocks: seq<ResourceBlock>): set<string>
    decreases |blocks|
  {
    if blocks == [] then {} else BlocksTypes(blocks[..|blocks| - 1]) + BlockTypes(blocks[|blocks| - 1])
  }

  lemma ConcatAssoc(a: seq<string>, b: seq<string>, c: seq<string>)
    ensures (a + b) + c == a + (b + c)
  {
  }

  lemma {:induction false} AddInstancesResources(s: Index, rtype: string, instances: seq<Instance>)
    requires rtype in s.resources
    ensures AddInstances(s, rtype, instances).resources == s.resources[rtype := s.resources[rtype] + NamesOf(instances)]
    decreases |instances|
  {
    if instances == [] {
      assert s.resources[rtype] + NamesOf(instances) == s.resources[rtype];
    } else {
      var last := |instances| - 1;
      var pre := instances[..last];
      AddInstancesResources(s, rtype, pre);
      var mid := AddInstances(s, rtype, pre);
      assert mid.resources[rtype] == s.resources[rtype] + NamesOf(pre);
      assert NamesOf(instances) == NamesOf(pre) + [instances[last].name];
      ConcatAssoc(s.resources[rtype], NamesOf(pre), [instances[last].name]);
    }
  }

  lemma AddEntryResources(s: Index, entry: ResourceEntry, rtype: string)
    ensures rtype in AddEntry(s, entry).resources <==> rtype in s.resources || rtype == entry.rtype
    ensures Get(AddEntry(s, entry).resources, rtype) == Get(s.resources, rtype) + EntryNames(entry, rtype)
  {
    AddInstancesResources(EnsureType(s, entry.rtype), entry.rtype, entry.instances);
    if rtype != entry.rtype {
      assert Get(s.resources, rtype) + [] == Get(s.resources, rtype);
    }
  }

  lemma {:induction false} AddBlockKeys(s: Index, block: ResourceBlock, rtype: string)
    ensures rtype in AddBlock(s, block).resources <==> rtype in s.resources || rtype in BlockTypes(block)
    decreases |block|
  {
    if block != [] {
      var pre := block[..|block| - 1];
      var entry := block[|block| - 1];
      assert AddBlock(s, block) == AddEntry(AddBlock(s, pre), entry);
      assert BlockTypes(block) == BlockTypes(pre) + {entry.rtype};
      AddBlockKeys(s, pre, rtype);
      AddEntryResources(AddBlock(s, pre), entry, rtype);
    }
  }

  lemma {:induction false} AddBlockResources(s: Index, block: ResourceBlock, rtype: string)
    ensures Get(AddBlock(s, block).resources, rtype) == Get(s.resources, rtype) + BlockNames(block, rtype)
    decreases |block|
  {
    if block == [] {
      assert Get(s.resources, rtype) + [] == Get(s.resources, rtype);
    } else {
      var pre := block[..|block| - 1];
      var entry := block[|block| - 1];
      var before := Get(s.resources, rtype);
      var mid := AddBlock(s, pre);
      AddBlockResources(s, pre, rtype);
      AddEntryResources(mid, entry, rtype);
      calc {
        Get(AddBlock(s, block).resources, rtype);
        Get(AddEntry(mid, entry).resources, rtype);
        Get(mid.resources, rtype) + EntryNames(entry, rtype);
        (before + BlockNames(pre, rtype)) + EntryNames(entry, rtype);
        { ConcatAssoc(before, BlockNames(pre, rtype), EntryNames(entry, rtype)); }
        before + (BlockNames(pre, rtype) + EntryNames(entry, rtype));
        before + BlockNames(block, rtype);
      }
    }
  }

  lemma {:induction false} AddBlocksKeys(s: Index, blocks: seq<ResourceBlock>, rtype: string)
    ensures rtype in AddBlocks(s, blocks).resources <==> rtype in s.resources || rtype in BlocksTypes(blocks)
    decreases |blocks|
  {
    if blocks != [] {
      var pre := blocks[..|blocks| - 1];
      var block := blocks[|blocks| - 1];
      assert AddBlocks(s, blocks) == AddBlock(AddBlocks(s, pre), block);
      assert BlocksTypes(blocks) == BlocksTypes(pre) + BlockTypes(block);
      AddBlocksKeys(s, pre, rtype);
      AddBlockKeys(AddBlocks(s, pre), block, rtype);
    }
  }

  lemma {:induction false} AddBlocksResources(s: Index, blocks: seq<ResourceBlock>, rtype: string)
    ensures Get(AddBlocks(s, blocks).resources, rtype) == Get(s.resources, rtype) + BlocksNames(blocks, rtype)
    decreases |blocks|
  {
    if blocks == [] {
      assert Get(s.resources, rtype) + [] == Get(s.resources, rtype);
    } else {
      var pre := blocks[..|blocks| - 1];
      var block := blocks[|blocks| - 1];
      var before := Get(s.resources, rtype);
      var mid := AddBlocks(s, pre);
      AddBlocksResources(s, pre, rtype);
      AddBlockResources(mid, block, rtype);
      calc {
        Get(AddBlocks(s, blocks).resources, rtype);
        Get(AddBlock(mid, block).resources, rtype);
        Get(mid.resources, rtype) + BlockNames(block, rtype);
        (before + BlocksNames(pre, rtype)) + BlockNames(block, rtype);
        { ConcatAssoc(before, BlocksNames(pre, rtype), BlockNames(block, rtype)); }
        before + (BlocksNames(pre, rtype) + BlockNames(block, rtype));
        before + BlocksNames(blocks, rtype);
      }
    }
  }

  /** A type no item of the block declares gets no names from it. */
  lemma {:induction false} BlockNamesOutsideTypes(block: ResourceBlock, rtype: string)
    requires rtype !in BlockTypes(block)
    ensures BlockNames(block, rtype) == []
    decreases |block|
  {
    if block != [] {
      BlockNamesOutsideTypes(block[..|block| - 1], rtype);
    }
  }

  /** A type no block declares gets no names from the blocks. */
  lemma {:induction false} BlocksNamesOutsideTypes(blocks: seq<ResourceBlock>, rtype: string)
    requires rtype !in BlocksTypes(blocks)
    ensures BlocksNames(blocks, rtype) == []
    decreases |blocks|
  {
    if blocks != [] {
      BlocksNamesOutsideTypes(blocks[..|blocks| - 1], rtype);
      BlockNamesOutsideTypes(blocks[|blocks| - 1], rtype);
    }
  }

  /** The types a document's resource blocks declare. */
  function DocTypes(doc: TfDocument): set<string>
  {
    if doc.resource.Some? then BlocksTypes(doc.resource.value) else {}
  }

  /** The instance names a document declares under `rtype`, in block order, duplicates kept. */
  function DocNames(doc: TfDocument, rtype: string): seq<string>
  {
    if doc.resource.Some? then BlocksNames(doc.resource.value, rtype) else []
  }

  /**
   * Recording a parsed `.tf` file: the document is stored under its path (also when
   * it declares nothing); the new provider names go at the end, once each, in
   * first-seen order; every declared type gets a list (empty if it has no
   * instances) and each type's list is extended by its names in block order, with
   * duplicates kept; the lists of the other types are unchanged.
   */
  lemma TfFileStepFacts(s: Index, path: string, doc: TfDocument)
    ensures TfFileStep(s, path, Some(doc)).tfFiles == s.tfFiles[path := doc]
    ensures TfFileStep(s, path, Some(doc)).providers == s.providers + Fresh(s.providers, ProviderNames(doc))
    ensures forall t :: t in TfFileStep(s, path, Some(doc)).resources <==> t in s.resources || t in DocTypes(doc)
    ensures forall t :: Get(TfFileStep(s, path, Some(doc)).resources, t) == Get(s.resources, t) + DocNames(doc, t)
    ensures forall t :: t !in DocTypes(doc) ==> Get(TfFileStep(s, path, Some(doc)).resources, t) == Get(s.resources, t)
  {
    var r := TfFileStep(s, path, Some(doc));
    var recorded := s.(tfFiles := s.tfFiles[path := doc],
                       fileOrder := if path in s.tfFiles then s.fileOrder else s.fileOrder + [path]);
    var withProviders :=
      if doc.provider.Some? then recorded.(providers := MergeNames(recorded.providers, Flatten(doc.provider.value)))
      else recorded;
    MergeNamesAppendsFresh(s.providers, ProviderNames(doc));
    if doc.resource.Some? {
      forall t ensures t in r.resources <==> t in s.resources || t in DocTypes(doc)
                   ensures Get(r.resources, t) == Get(s.resources, t) + DocNames(doc, t)
                   ensures t !in DocTypes(doc) ==> DocNames(doc, t) == []
      {
        AddBlocksKeys(withProviders, doc.resource.value, t);
        AddBlocksResources(withProviders, doc.resource.value, t);
        if t !in DocTypes(doc) {
          BlocksNamesOutsideTypes(doc.resource.value, t);
        }
      }
    } else {
      forall t ensures Get(r.resources, t) == Get(s.resources, t) + DocNames(doc, t) {
        assert Get(s.resources, t) + [] == Get(s.resources, t);
      }
    }
  }

  // ---------------------------------------------------------------------------
  // Lockfile providers
  // ---------------------------------------------------------------------------

  /** An element has provider names only when it is a table whose `provider` value is a table. */
  lemma ElementProvidersOnlyFromTables(elem: LockElement)
    requires ElementProviders(elem) != []
    ensures elem.Table? && elem.provider.Some? && elem.provider.value.ProviderTable?
    ensures ElementProviders(elem) == elem.provider.value.names
  {
  }

  /** A lockfile contributes exactly the names of its elements. */
  lemma {:induction false} LockProvidersMembers(elems: seq<LockElement>, x: string)
    ensures x in LockProviders(elems) <==> exists i :: 0 <= i < |elems| && x in ElementProviders(elems[i])
    decreases |elems|
  {
    if elems != [] {
      var n := |elems|;
      var pre := elems[..n - 1];
      LockProvidersMembers(pre, x);
      assert LockProviders(elems) == LockProviders(pre) + ElementProviders(elems[n - 1]);
      if x in LockProviders(pre) {
        var i :| 0 <= i < |pre| && x in ElementProviders(pre[i]);
        assert elems[i] == pre[i];
      } else if x in ElementProviders(elems[n - 1]) {
      } else {
        forall i | 0 <= i < n ensures x !in ElementProviders(elems[i]) {
          if i < n - 1 {
            assert pre[i] == elems[i];
          }
        }
      }
    }
  }

  /** Merging a lockfile appends its new provider names once each, in first-seen order. */
  lemma LockfileStepFacts(s: Index, elems: seq<LockElement>)
    ensures LockfileStep(s, Some(elems)) == s.(providers := s.providers + Fresh(s.providers, LockProviders(elems)))
  {
    MergeNamesAppendsFresh(s.providers, LockProviders(elems));
  }

  lemma {:induction false} KeyTextsHaveNoProviders(elems: seq<LockElement>)
    requires forall i :: 0 <= i < |elems| ==> elems[i].KeyText?
    ensures LockProviders(elems) == []
    decreases |elems|
  {
    if elems != [] {
      KeyTextsHaveNoProviders(elems[..|elems| - 1]);
    }
  }

  /**
   * `hcl2.load` returns a dictionary, and iterating it yields key strings, which
   * fail the `isinstance(block, dict)` test: the lockfile step then adds nothing.
   */
  lemma LockfileOfHclDictChangesNothing(s: Index, keys: seq<string>)
    ensures LockfileStep(s, Some(DictIteration(keys))) == s
  {
    KeyTextsHaveNoProviders(DictIteration(keys));
  }

  // ---------------------------------------------------------------------------
  // Files that fail to parse, and ignored files, contribute nothing
  // ---------------------------------------------------------------------------

  /** Whether the walk entry is sent to a parser and the parse succeeds. */
  predicate Contributes(entry: WalkEntry,
                        readTf: string -> Option<TfDocument>, readLock: string -> Option<seq<LockElement>>)
  {
    var path := JoinPath(entry.root, entry.name);
    match Dispatch(entry.name)
    case TfConfig => readTf(path).Some?
    case Lockfile => readLock(path).Some?
    case Ignored => false
  }

  function Kept(entries: seq<WalkEntry>,
                readTf: string -> Option<TfDocument>, readLock: string -> Option<seq<LockElement>>): seq<WalkEntry>
    decreases |entries|
  {
    if entries == [] then []
    else
      var pre := Kept(entries[..|entries| - 1], readTf, readLock);
      if Contributes(entries[|entries| - 1], readTf, readLock) then pre + [entries[|entries| - 1]] else pre
  }

  /** The walk gives the same state as a walk over only the files that parse and are not ignored. */
  lemma {:induction false} WalkSkipsFailedAndIgnored(s: Index, entries: seq<WalkEntry>,
                                                     readTf: string -> Option<TfDocument>,
                                                     readLock: string -> Option<seq<LockElement>>)
    ensures Walk(s, entries, readTf, readLock) == Walk(s, Kept(entries, readTf, readLock), readTf, readLock)
    decreases |entries|
  {
    if entries != [] {
      var pre := entries[..|entries| - 1];
      var entry := entries[|entries| - 1];
      WalkSkipsFailedAndIgnored(s, pre, readTf, readLock);
      var kept := Kept(pre, readTf, readLock);
      if Contributes(entry, readTf, readLock) {
        assert (kept + [entry])[..|kept + [entry]| - 1] == kept;
      }
    }
  }

  // ---------------------------------------------------------------------------
  // The summary agrees with the structures
  // ---------------------------------------------------------------------------

  /**
   * `resource_types` lists each key of `resources` once, `resource_count` gives each
   * list's length, `network_components` gives each topology bucket's names (never
   * empty, under a component name, each name a resource of a type filed there),
   * and `files_analyzed` lists each recorded path once.
   */
  lemma SummaryMatchesIndex(s: Index)
    requires Consistent(s)
    ensures Summarize(s).providers == s.providers && NoDup(Summarize(s).providers)
    ensures NoDup(Summarize(s).resourceTypes)
    ensures forall t :: t in Summarize(s).resourceTypes <==> t in s.resources
    ensures Summarize(s).resourceCount.Keys == s.resources.Keys
    ensures forall t :: t in s.resources ==> Summarize(s).resourceCount[t] == |s.resources[t]|
    ensures Summarize(s).networkComponents.Keys == s.topology.Keys
    ensures forall c :: c in Summarize(s).networkComponents ==>
              c in COMPONENT_NAMES && Summarize(s).networkComponents[c] != {} &&
              Summarize(s).networkComponents[c] == s.topology[c].Keys
    ensures forall c, n :: c in Summarize(s).networkComponents && n in Summarize(s).networkComponents[c] ==>
              exists t :: t in s.resources && Classify(t) == Some(c) && n in s.resources[t]
    ensures NoDup(Summarize(s).filesAnalyzed)
    ensures forall p :: p in Summarize(s).filesAnalyzed <==> p in s.tfFiles
  {
    forall c | c in s.topology ensures s.topology[c].Keys != {} {
      var n :| n in s.topology[c];
    }
  }
}
