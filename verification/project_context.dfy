/**
 * `TerraformProjectContext`: the indexer as an object whose dictionaries and
 * lists are updated in place. Every method is proved to leave the object in the
 * state the matching pure function (of ProjectIndex, NameLists or Topology)
 * computes from the old state, so the lemmas about those functions apply to it.
 */
module ProjectContext {

  import opened Wrappers
  import opened Hcl
  import opened NameLists
  import opened Topology
  import opened ProjectIndex
  import opened IndexProperties

  class TerraformProjectContext {
    const projectPath: string
    var tfFiles: map<string, TfDocument>
    var fileOrder: seq<string>
    var providers: seq<string>
    var resources: map<string, seq<string>>
    var resourceTypes: seq<string>
    var networkTopology: map<string, map<string, Config>>

    /** The object's four structures as a value. */
    function Snapshot(): Index
      reads this
    {
      Index(tfFiles, fileOrder, providers, resources, resourceTypes, networkTopology)
    }

    ghost predicate Valid()
      reads this
    {
      Consistent(Snapshot())
    }

    constructor (projectPath: string)
      ensures this.projectPath == projectPath
      ensures Snapshot() == EMPTY && Valid()
    {
      this.projectPath := projectPath;
      tfFiles := map[];
      fileOrder := [];
      providers := [];
      resources := map[];
      resourceTypes := [];
      networkTopology := map[];
      new;
      EmptyIsConsistent();
    }

    /**
     * `analyze_project` over the files a directory walk reports, in its order:
     * names ending in `.tf` go to the `.tf` parser, the lockfile name goes to the
     * lockfile parser, every other name is skipped.
     */
    method AnalyzeProject(listing: seq<WalkEntry>,
                          readTf: string -> Option<TfDocument>, readLock: string -> Option<seq<LockElement>>)
      requires Valid()
      modifies this
      ensures Valid()
      ensures Extends(old(Snapshot()), Snapshot())
      ensures Snapshot() == Walk(old(Snapshot()), listing, readTf, readLock)
    {
      var i := 0;
      while i < |listing|
        invariant 0 <= i <= |listing|
        invariant Snapshot() == Walk(old(Snapshot()), listing[..i], readTf, readLock)
      {
        var entry := listing[i];
        var path := JoinPath(entry.root, entry.name);
        match Dispatch(entry.name) {
          case TfConfig =>
            ParseTfFile(path, readTf);
          case Lockfile =>
            ParseLockfile(path, readLock);
          case Ignored =>
        }
        assert listing[..i + 1][..i] == listing[..i];
        i := i + 1;
      }
      assert listing[..i] == listing;
      WalkPreserves(old(Snapshot()), listing, readTf, readLock);
    }

    /**
     * `_parse_tf_file`: a failed parse is caught and changes nothing; otherwise the
     * document is recorded, then provider names and resource instances are added.
     */
    method ParseTfFile(path: string, readTf: string -> Option<TfDocument>)
      modifies this
      ensures Snapshot() == TfFileStep(old(Snapshot()), path, readTf(path))
      ensures old(Valid()) ==> Valid()
    {
      TfFileStepPreserves(Snapshot(), path, readTf(path));
      var parsed := readTf(path);
      if parsed.None? {
        return;
      }
      var content := parsed.value;
      if path !in tfFiles {
        fileOrder := fileOrder + [path];
      }
      tfFiles := tfFiles[path := content];

      if content.provider.Some? {
        AddProviderBlocks(content.provider.value);
      }
      if content.resource.Some? {
        AddResourceBlocks(content.resource.value);
      }
    }

    /** The provider loop of `_parse_tf_file`: each block's names, in order, unless already listed. */
    method AddProviderBlocks(providerBlocks: seq<ProviderBlock>)
      modifies this`providers
      ensures providers == MergeNames(old(providers), Flatten(providerBlocks))
    {
      var i := 0;
      while i < |providerBlocks|
        invariant 0 <= i <= |providerBlocks|
        invariant providers == MergeNames(old(providers), Flatten(providerBlocks[..i]))
      {
        AddProviderNames(providerBlocks[i]);
        assert providerBlocks[..i + 1][..i] == providerBlocks[..i];
        MergeNamesConcat(old(providers), Flatten(providerBlocks[..i]), providerBlocks[i]);
        i := i + 1;
      }
      assert providerBlocks[..i] == providerBlocks;
    }

    /** `if name not in providers: providers.append(name)`, for each name in order. */
    method AddProviderNames(names: seq<string>)
      modifies this`providers
      ensures providers == MergeNames(old(providers), names)
    {
      var j := 0;
      while j < |names|
        invariant 0 <= j <= |names|
        invariant providers == MergeNames(old(providers), names[..j])
      {
        var providerName := names[j];
        if providerName !in providers {
          providers := providers + [providerName];
        }
        assert names[..j + 1][..j] == names[..j];
        j := j + 1;
      }
      assert names[..j] == names;
    }

    /** The resource loop of `_parse_tf_file`: each block's items, in order. */
    method AddResourceBlocks(resourceBlocks: seq<ResourceBlock>)
      modifies this`resources, this`resourceTypes, this`networkTopology
      ensures Snapshot() == AddBlocks(old(Snapshot()), resourceBlocks)
    {
      var i := 0;
      while i < |resourceBlocks|
        invariant 0 <= i <= |resourceBlocks|
        invariant Snapshot() == AddBlocks(old(Snapshot()), resourceBlocks[..i])
      {
        AddResourceBlock(resourceBlocks[i]);
        assert resourceBlocks[..i + 1][..i] == resourceBlocks[..i];
        i := i + 1;
      }
      assert resourceBlocks[..i] == resourceBlocks;
    }

    /** One resource block: an unseen type first gets an empty list, then its instances are added. */
    method AddResourceBlock(resource: ResourceBlock)
      modifies this`resources, this`resourceTypes, this`networkTopology
      ensures Snapshot() == AddBlock(old(Snapshot()), resource)
    {
      var j := 0;
      while j < |resource|
        invariant 0 <= j <= |resource|
        invariant Snapshot() == AddBlock(old(Snapshot()), resource[..j])
      {
        var resourceType := resource[j].rtype;
        if resourceType !in resources {
          resources := resources[resourceType := []];
          resourceTypes := resourceTypes + [resourceType];
        }
        AddInstancesOf(resourceType, resource[j].instances);
        assert resource[..j + 1][..j] == resource[..j];
        j := j + 1;
      }
      assert resource[..j] == resource;
    }

    /** The instance loop of `_parse_tf_file` for one resource type, whose list already exists. */
    method AddInstancesOf(resourceType: string, instances: seq<Instance>)
      requires resourceType in resources
      modifies this`resources, this`networkTopology
      ensures Snapshot() == AddInstances(old(Snapshot()), resourceType, instances)
    {
      var k := 0;
      while k < |instances|
        invariant 0 <= k <= |instances|
        invariant resourceType in resources
        invariant Snapshot() == AddInstances(old(Snapshot()), resourceType, instances[..k])
      {
        var instance := instances[k];
        resources := resources[resourceType := resources[resourceType] + [instance.name]];
        AnalyzeNetworkComponents(resourceType, instance.name, instance.config);
        assert instances[..k + 1][..k] == instances[..k];
        k := k + 1;
      }
      assert instances[..k] == instances;
    }

    /** `_parse_lockfile`: a failed parse is caught and changes nothing; otherwise providers are merged. */
    method ParseLockfile(path: string, readLock: string -> Option<seq<LockElement>>)
      modifies this
      ensures Snapshot() == LockfileStep(old(Snapshot()), readLock(path))
      ensures old(Valid()) ==> Valid()
    {
      LockfileStepPreserves(Snapshot(), readLock(path));
      var parsed := readLock(path);
      if parsed.Some? {
        AddLockProviders(parsed.value);
      }
    }

    /** The element loop of `_parse_lockfile`: only table elements whose `provider` value is a table add names. */
    method AddLockProviders(content: seq<LockElement>)
      modifies this`providers
      ensures providers == MergeNames(old(providers), LockProviders(content))
    {
      var i := 0;
      while i < |content|
        invariant 0 <= i <= |content|
        invariant providers == MergeNames(old(providers), LockProviders(content[..i]))
      {
        var block := content[i];
        ghost var before := providers;
        if block.Table? && block.provider.Some? {
          var providerData := block.provider.value;
          if providerData.ProviderTable? {
            AddProviderNames(providerData.names);
          }
        }
        assert providers == MergeNames(before, ElementProviders(block));
        assert content[..i + 1][..i] == content[..i];
        assert LockProviders(content[..i + 1]) == LockProviders(content[..i]) + ElementProviders(block);
        MergeNamesConcat(old(providers), LockProviders(content[..i]), ElementProviders(block));
        i := i + 1;
      }
      assert content[..i] == content;
    }

    /** `_analyze_network_components`: files a classified instance in the topology. */
    method AnalyzeNetworkComponents(resourceType: string, resourceName: string, resourceConfig: Config)
      modifies this`networkTopology
      ensures networkTopology == Record(old(networkTopology), resourceType, resourceName, resourceConfig)
    {
      var component := Classify(resourceType);
      if component.Some? {
        var componentType := component.value;
        if componentType !in networkTopology {
          networkTopology := networkTopology[componentType := map[]];
        }
        networkTopology := networkTopology[componentType := networkTopology[componentType][resourceName := resourceConfig]];
      }
    }

    /** `get_project_summary`: reads the structures, changes nothing. */
    function GetProjectSummary(): ProjectSummary
      reads this
    {
      Summarize(Snapshot())
    }
  }
}
