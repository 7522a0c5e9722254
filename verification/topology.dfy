/**
 * The network-topology classifier of `_analyze_network_components`: a fixed table
 * from Terraform resource types to component names, and the upsert into the
 * nested topology dictionary component -> resource name -> configuration.
 */
module Topology {

  import opened Wrappers
  import opened Hcl

  /** The classification table, as written in the indexer. */
  const NETWORK_RESOURCES: map<string, string> := map[
    "google_compute_network" := "vpc",
    "google_compute_subnetwork" := "subnet",
    "google_compute_firewall" := "firewall",
    "google_compute_router" := "router",
    "google_compute_router_nat" := "nat",
    "google_compute_instance" := "instance",
    "google_storage_bucket" := "storage",
    "google_kms_key_ring" := "kms",
    "google_kms_crypto_key" := "kms_key"
  ]

  /** The nine component names, the only keys the topology index can have. */
  const COMPONENT_NAMES: set<string> :=
    {"vpc", "subnet", "firewall", "router", "nat", "instance", "storage", "kms", "kms_key"}

  /** The component a resource type is filed under, or `None` for an unclassified type. */
  function Classify(rtype: string): (component: Option<string>)
    ensures component.None? || component.value in COMPONENT_NAMES
  {
    if rtype in NETWORK_RESOURCES then Some(NETWORK_RESOURCES[rtype]) else None
  }

  /** Exactly the nine listed types are classified; every other string is not. */
  lemma ClassifiedTypes(rtype: string)
    ensures Classify(rtype).Some? <==>
      rtype in {"google_compute_network", "google_compute_subnetwork", "google_compute_firewall",
                "google_compute_router", "google_compute_router_nat", "google_compute_instance",
                "google_storage_bucket", "google_kms_key_ring", "google_kms_crypto_key"}
  {
  }

  /** No two types share a component, and every component name is reached by some type. */
  lemma ClassifyIsOneToOne(t1: string, t2: string, component: string)
    requires Classify(t1) == Some(component) && Classify(t2) == Some(component)
    ensures t1 == t2
    ensures component in COMPONENT_NAMES
  {
  }

  lemma ClassifyReachesEveryComponent(component: string)
    requires component in COMPONENT_NAMES
    ensures exists rtype :: Classify(rtype) == Some(component)
  {
    var rtype :=
      if component == "vpc" then "google_compute_network"
      else if component == "subnet" then "google_compute_subnetwork"
      else if component == "firewall" then "google_compute_firewall"
      else if component == "router" then "google_compute_router"
      else if component == "nat" then "google_compute_router_nat"
      else if component == "instance" then "google_compute_instance"
      else if component == "storage" then "google_storage_bucket"
      else if component == "kms" then "google_kms_key_ring"
      else "google_kms_crypto_key";
    assert Classify(rtype) == Some(component);
  }

  /** A classified Terraform type string is never itself a component name. */
  lemma ClassifiedTypeIsNotAComponent(rtype: string)
    requires Classify(rtype).Some?
    ensures rtype !in COMPONENT_NAMES
  {
  }

  /** The empty string is not a component name. */
  lemma EmptyIsNotAComponent()
    ensures "" !in COMPONENT_NAMES
  {
  }

  /** The configuration stored under `component` / `name`, if any. */
  function Lookup(topology: map<string, map<string, Config>>, component: string, name: string): Option<Config>
  {
    if component in topology && name in topology[component] then Some(topology[component][name]) else None
  }

  /**
   * The topology after `_analyze_network_components(rtype, name, config)`: for a
   * classified type the entry component / name is set to `config` (a later write
   * wins) and every other entry is kept; an unclassified type changes nothing.
   */
  function Record(topology: map<string, map<string, Config>>, rtype: string, name: string, config: Config)
    : (r: map<string, map<string, Config>>)
    ensures forall c :: c in r <==> c in topology || Classify(rtype) == Some(c)
    ensures forall c, n ::
              Lookup(r, c, n) == if Classify(rtype) == Some(c) && n == name then Some(config) else Lookup(topology, c, n)
    ensures Classify(rtype).None? ==> r == topology
  {
    match Classify(rtype)
    case None => topology
    case Some(component) =>
      var bucket := if component in topology then topology[component] else map[];
      topology[component := bucket[name := config]]
  }
}
