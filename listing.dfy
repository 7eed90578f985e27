/** Turning the engine's container listing into module descriptors (the
    pipeline inside list). Building a module's configuration and building the
    module itself are partial constructors defined outside this model; they
    are parameters here. A record for which either fails is left out; the
    others keep the engine's order. */
module Listing {
  import opened Types
  import opened Models

  /** The single label that marks containers as owned by the edge agent. */
  const OwnerLabel := "net.azure-devices.edge.owner=Microsoft.Azure.Devices.Edge.Agent"

  /** The label filter of the listing request: only the owner label. */
  function ListFilters(): (f: map<string, seq<string>>)
    ensures f.Keys == {"label"} && f["label"] == [OwnerLabel]
  {
    map["label" := [OwnerLabel]]
  }

  /** Builds a DockerConfig from an image and create options, or fails. */
  type ConfigBuilder = (string, CreateOptions) -> Option<DockerConfig>

  /** Builds a module from a display name and a configuration, or fails. */
  type ModuleBuilder = (string, DockerConfig) -> Option<DockerModule>

  /** The create options a listed record's configuration is built from: a
      fresh create body holding only the record's labels. */
  function LabelsOnly(labels: map<string, string>): CreateOptions {
    EmptyCreateOptions.(labels := Some(labels))
  }

  /** The configuration a record yields. */
  function RecordConfig(c: ContainerSummary, mkConfig: ConfigBuilder): Option<DockerConfig> {
    mkConfig(c.image, LabelsOnly(c.labels))
  }

  /** The first reported name can have its first character dropped: it is
      non-empty when there is one. */
  predicate NameSliceable(names: seq<string>) {
    names == [] || |names[0]| >= 1
  }

  /** The display name: the first reported name without its first character,
      or "Unknown" when no name is reported. */
  function DisplayName(names: seq<string>): (d: string)
    requires NameSliceable(names)
    ensures names == [] ==> d == "Unknown"
    ensures names != [] ==> names[0] == [names[0][0]] + d
  {
    if names == [] then "Unknown" else names[0][1..]
  }

  /** A record is well formed for the pipeline when, if its configuration can
      be built, its display name can be taken. */
  predicate RecordReady(c: ContainerSummary, mkConfig: ConfigBuilder) {
    RecordConfig(c, mkConfig).Some? ==> NameSliceable(c.names)
  }

  predicate AllReady(records: seq<ContainerSummary>, mkConfig: ConfigBuilder) {
    forall i :: 0 <= i < |records| ==> RecordReady(records[i], mkConfig)
  }

  /** The descriptor one record yields, if both constructors succeed. */
  function Descriptor(c: ContainerSummary, mkConfig: ConfigBuilder, mkModule: ModuleBuilder): (r: Option<DockerModule>)
    requires RecordReady(c, mkConfig)
    ensures RecordConfig(c, mkConfig).None? ==> r.None?
  {
    match RecordConfig(c, mkConfig)
    case None => None
    case Some(config) => mkModule(DisplayName(c.names), config)
  }

  /** The descriptors of a listing, in the engine's order. */
  function Descriptors(records: seq<ContainerSummary>, mkConfig: ConfigBuilder, mkModule: ModuleBuilder): (r: seq<DockerModule>)
    requires AllReady(records, mkConfig)
    ensures |r| <= |records|
    ensures forall m :: m in r ==> exists i :: 0 <= i < |records| && Descriptor(records[i], mkConfig, mkModule) == Some(m)
  {
    if records == [] then []
    else
      var rest := Descriptors(records[1..], mkConfig, mkModule);
      assert forall m :: m in rest ==> exists i :: 0 <= i < |records| && Descriptor(records[i], mkConfig, mkModule) == Some(m) by {
        forall m | m in rest ensures exists i :: 0 <= i < |records| && Descriptor(records[i], mkConfig, mkModule) == Some(m) {
          var j :| 0 <= j < |records| - 1 && Descriptor(records[1..][j], mkConfig, mkModule) == Some(m);
          assert records[1..][j] == records[j + 1];
        }
      }
      match Descriptor(records[0], mkConfig, mkModule)
      case None => rest
      case Some(m) => [m] + rest
  }

  /** Listing two runs of records yields the descriptors of the first run
      followed by those of the second: the engine's order is kept. */
  lemma {:induction false} DescriptorsAppend(a: seq<ContainerSummary>, b: seq<ContainerSummary>,
                                             mkConfig: ConfigBuilder, mkModule: ModuleBuilder)
    requires AllReady(a, mkConfig) && AllReady(b, mkConfig)
    ensures AllReady(a + b, mkConfig)
    ensures Descriptors(a + b, mkConfig, mkModule)
         == Descriptors(a, mkConfig, mkModule) + Descriptors(b, mkConfig, mkModule)
  {
    assert forall i :: 0 <= i < |a + b| ==> (a + b)[i] == if i < |a| then a[i] else b[i - |a|];
    if a != [] {
      assert (a + b)[1..] == a[1..] + b;
      assert AllReady(a[1..], mkConfig) by {
        forall i | 0 <= i < |a[1..]| ensures RecordReady(a[1..][i], mkConfig) {
          assert a[1..][i] == a[i + 1];
        }
      }
      DescriptorsAppend(a[1..], b, mkConfig, mkModule);
    } else {
      assert a + b == b;
    }
  }

  /** A record for which the configuration or the module cannot be built is
      dropped, and the records around it are listed as usual. */
  lemma DescriptorsSkipFailed(a: seq<ContainerSummary>, c: ContainerSummary, b: seq<ContainerSummary>,
                              mkConfig: ConfigBuilder, mkModule: ModuleBuilder)
    requires AllReady(a, mkConfig) && RecordReady(c, mkConfig) && AllReady(b, mkConfig)
    requires Descriptor(c, mkConfig, mkModule).None?
    ensures AllReady(a + [c] + b, mkConfig)
    ensures Descriptors(a + [c] + b, mkConfig, mkModule)
         == Descriptors(a, mkConfig, mkModule) + Descriptors(b, mkConfig, mkModule)
  {
    assert Descriptors([c], mkConfig, mkModule) == [] by {
      assert [c][1..] == [];
    }
    DescriptorsAppend(a, [c], mkConfig, mkModule);
    DescriptorsAppend(a + [c], b, mkConfig, mkModule);
  }

  /** A record for which both constructors succeed yields exactly its
      descriptor, named by its display name. */
  lemma DescriptorsOfGoodRecord(c: ContainerSummary, mkConfig: ConfigBuilder, mkModule: ModuleBuilder)
    requires RecordReady(c, mkConfig)
    requires RecordConfig(c, mkConfig).Some?
    requires mkModule(DisplayName(c.names), RecordConfig(c, mkConfig).value).Some?
    ensures AllReady([c], mkConfig)
    ensures Descriptors([c], mkConfig, mkModule) == [mkModule(DisplayName(c.names), RecordConfig(c, mkConfig).value).value]
  {
    assert [c][1..] == [];
  }

  /** Every listed record whose descriptor is built appears in the result. */
  lemma {:induction false} DescriptorsComplete(records: seq<ContainerSummary>, i: nat,
                                               mkConfig: ConfigBuilder, mkModule: ModuleBuilder)
    requires AllReady(records, mkConfig) && i < |records|
    requires Descriptor(records[i], mkConfig, mkModule).Some?
    ensures Descriptor(records[i], mkConfig, mkModule).value in Descriptors(records, mkConfig, mkModule)
  {
    if i > 0 {
      assert records[1..][i - 1] == records[i];
      assert AllReady(records[1..], mkConfig) by {
        forall j | 0 <= j < |records[1..]| ensures RecordReady(records[1..][j], mkConfig) {
          assert records[1..][j] == records[j + 1];
        }
      }
      DescriptorsComplete(records[1..], i - 1, mkConfig, mkModule);
    }
  }

  /** A record that reports no name is displayed as "Unknown". */
  lemma DisplayNameUnknown()
    ensures NameSliceable([]) && DisplayName([]) == "Unknown"
  {
  }

  /** A name reported with the engine's "/" separator is displayed without it. */
  lemma DisplayNameStripsSeparator(name: string, others: seq<string>)
    ensures NameSliceable(["/" + name] + others)
    ensures DisplayName(["/" + name] + others) == name
  {
  }
}
