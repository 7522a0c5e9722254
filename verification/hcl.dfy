/**
 * The parsed HCL documents the project indexer consumes. The parser itself
 * (`hcl2.load`) is not part of this model: a file's content reaches the model
 * already parsed, or as `None` when parsing raised.
 */
module Hcl {

  import opened Wrappers

  /** A resource's configuration body; the indexer stores it but never looks inside. */
  datatype Config =
    | Str(text: string)
    | Num(number: int)
    | Flag(flag: bool)
    | List(items: seq<Config>)
    | Block(fields: map<string, Config>)

  /** One instance of a resource type: `resource "<type>" "<name>" { <config> }`. */
  datatype Instance = Instance(name: string, config: Config)

  /** One `(resource_type, instances)` item of a resource block's dictionary, instances in order. */
  datatype ResourceEntry = ResourceEntry(rtype: string, instances: seq<Instance>)

  /** A resource block is the dictionary resource type -> instances, as its items in order. */
  type ResourceBlock = seq<ResourceEntry>

  /** A provider block is a dictionary keyed by provider name; iterating it yields the names in order. */
  type ProviderBlock = seq<string>

  /**
   * A parsed `.tf` file. `provider` and `resource` are `None` when the document has no
   * such top-level key; the other top-level keys are not read by the indexer.
   */
  datatype TfDocument = TfDocument(provider: Option<seq<ProviderBlock>>, resource: Option<seq<ResourceBlock>>)

  /** The value under a lockfile element's `provider` key: a dictionary (its keys in order) or anything else. */
  datatype LockValue = ProviderTable(names: seq<string>) | NotATable

  /**
   * One element produced by iterating a parsed lockfile. Iterating a dictionary
   * yields its keys, which are strings (`KeyText`); only a `Table` element (a
   * dictionary, with the value of its `provider` key if it has one) is inspected.
   */
  datatype LockElement = KeyText(key: string) | Table(provider: Option<LockValue>)

  /** What iterating the dictionary returned by `hcl2.load` yields: its top-level keys. */
  function DictIteration(keys: seq<string>): seq<LockElement>
  {
    seq(|keys|, i requires 0 <= i < |keys| => KeyText(keys[i]))
  }
}
