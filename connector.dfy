/**
 * The key-value cache connector factory: the configuration records, the
 * derivation of the connection identifier that namespaces a connector's keys,
 * the closed dispatch from backend name to backend, and the capability
 * defaults of the connector base class.
 *
 * Backends are not modelled: creating one is recorded as which backend's
 * `from_envs` would be called and with which identifier and executor.
 */
module Connector {
  import opened Wrappers

  /** Capabilities a connector advertises; every flag is off unless set. */
  datatype ConnectorFeature = ConnectorFeature(
    mputMget: bool := false,
    prefetch: bool := false,
    rdma: bool := false)

  /** The thread pool a connector runs its I/O on; opaque here. */
  datatype Executor = Executor(id: nat)

  datatype ConnectorConfig = ConnectorConfig(
    backendName: string,
    namespace: string,
    partitionId: string,
    executor: Executor,
    blockSpecSignature: string := "",
    keyBuilderSignature: string := "",
    layoutSignature: string := "")

  /** A configuration that gives only the three mandatory names keeps all signatures empty. */
  lemma DefaultsAreEmpty(backendName: string, namespace: string, partitionId: string, executor: Executor)
    ensures var c := ConnectorConfig(backendName, namespace, partitionId, executor);
      c.blockSpecSignature == c.keyBuilderSignature == c.layoutSignature == ""
    ensures var f := ConnectorFeature(); !f.mputMget && !f.prefetch && !f.rdma
  {
  }

  /** The three signatures, concatenated with no separator. */
  function Signatures(c: ConnectorConfig): string
  {
    c.blockSpecSignature + c.keyBuilderSignature + c.layoutSignature
  }

  /** The part of the identifier every configuration has: `namespace + "_" + partition_id`. */
  function Stem(c: ConnectorConfig): string
  {
    c.namespace + "_" + c.partitionId
  }

  /** `conn_id`: the stem, followed by `"_"` and the signatures when there are any. */
  function ConnId(c: ConnectorConfig): (id: string)
    ensures Stem(c) <= id
    ensures id == Stem(c) <==> Signatures(c) == ""
    ensures |id| == if Signatures(c) == "" then |Stem(c)| else |Stem(c)| + 1 + |Signatures(c)|
  {
    var signatures := Signatures(c);
    if |signatures| > 0 then Stem(c) + "_" + signatures else Stem(c)
  }

  /**
   * Reads the signatures back from an identifier, given the namespace and
   * partition it was derived from.
   */
  function SignaturesOf(id: string, namespace: string, partitionId: string): Option<string>
  {
    var stem := namespace + "_" + partitionId;
    if id == stem then Some("")
    else if |id| > |stem| + 1 && id[..|stem| + 1] == stem + "_" then Some(id[|stem| + 1..])
    else None
  }

  /** For a fixed namespace and partition the identifier determines the concatenated signatures. */
  lemma ConnIdRecoversSignatures(c: ConnectorConfig)
    ensures SignaturesOf(ConnId(c), c.namespace, c.partitionId) == Some(Signatures(c))
  {
    var stem := Stem(c);
    if Signatures(c) != "" {
      var id := ConnId(c);
      assert id[..|stem| + 1] == stem + "_";
      assert id[|stem| + 1..] == Signatures(c);
    }
  }

  /** Hence two configurations with the same namespace and partition collide only if their signatures concatenate alike. */
  lemma SameStemDistinctSignatures(c1: ConnectorConfig, c2: ConnectorConfig)
    requires c1.namespace == c2.namespace && c1.partitionId == c2.partitionId
    requires Signatures(c1) != Signatures(c2)
    ensures ConnId(c1) != ConnId(c2)
  {
    ConnIdRecoversSignatures(c1);
    ConnIdRecoversSignatures(c2);
  }

  /** The derivation is not injective: `_` is not escaped in the namespace or the partition. */
  lemma UnderscoreCollision(e: Executor)
    ensures ConnId(ConnectorConfig("MOCK", "a_b", "c", e)) == ConnId(ConnectorConfig("MOCK", "a", "b_c", e))
  {
  }

  /** Nor across the signatures, which are concatenated without a separator. */
  lemma SignatureCollision(e: Executor)
    ensures ConnId(ConnectorConfig("MOCK", "ns", "p", e, "ab", "", ""))
         == ConnId(ConnectorConfig("MOCK", "ns", "p", e, "a", "b", ""))
  {
  }

  /** Nor between a partition containing `_` and a signature. */
  lemma PartitionSignatureCollision(e: Executor)
    ensures ConnId(ConnectorConfig("MOCK", "a", "b_c", e))
         == ConnId(ConnectorConfig("MOCK", "a", "b", e, "c"))
  {
  }

  datatype Backend = RocksDB | InfiniStore | HPKV | Pris | Mock

  /** The configuration name that selects each backend. */
  function BackendName(b: Backend): string
  {
    match b
    case RocksDB => "ROCKSDB"
    case InfiniStore => "INFINISTORE"
    case HPKV => "HPKV"
    case Pris => "PRIS"
    case Mock => "MOCK"
  }

  /** The if/elif chain of `create`, compared case-sensitively. */
  function BackendOf(name: string): (r: Option<Backend>)
    ensures r.Some? ==> BackendName(r.value) == name
  {
    if name == "ROCKSDB" then Some(RocksDB)
    else if name == "INFINISTORE" then Some(InfiniStore)
    else if name == "HPKV" then Some(HPKV)
    else if name == "PRIS" then Some(Pris)
    else if name == "MOCK" then Some(Mock)
    else None
  }

  /** Every backend is reachable by its own name, so no two backends share a name. */
  lemma BackendOfName(b: Backend)
    ensures BackendOf(BackendName(b)) == Some(b)
  {
  }

  /** Exactly five names are accepted. */
  lemma AcceptedNames(name: string)
    ensures BackendOf(name).Some? <==> name in {"ROCKSDB", "INFINISTORE", "HPKV", "PRIS", "MOCK"}
  {
  }

  /** The comparison is case-sensitive. */
  lemma LowerCaseRejected()
    ensures BackendOf("rocksdb") == None && BackendOf("Mock") == None
  {
  }

  /** A created connector: the backend whose `from_envs` is called, with its arguments. */
  datatype ConnectorHandle = ConnectorHandle(backend: Backend, connId: string, executor: Executor)

  /** The `ValueError` raised for an unknown backend name. */
  datatype ConfigError = UnknownConnectorType(message: string)

  /** `Connector.create`. */
  function Create(config: ConnectorConfig): (r: Result<ConnectorHandle, ConfigError>)
    ensures r.Ok? <==> BackendOf(config.backendName).Some?
    ensures r.Ok? ==> BackendName(r.value.backend) == config.backendName
    ensures r.Ok? ==> r.value.connId == ConnId(config) && r.value.executor == config.executor
    ensures r.Err? ==> r.error.message == "Unknown connector type: " + config.backendName
  {
    var connId := ConnId(config);
    match BackendOf(config.backendName)
    case Some(b) => Ok(ConnectorHandle(b, connId, config.executor))
    case None => Err(UnknownConnectorType("Unknown connector type: " + config.backendName))
  }

  /** Creating from a backend's own name yields that backend. */
  lemma CreateByName(b: Backend, config: ConnectorConfig)
    requires config.backendName == BackendName(b)
    ensures Create(config).Ok? && Create(config).value.backend == b
  {
    BackendOfName(b);
  }

  /** The base-class methods that have a default body. */
  datatype Operation = Prefetch | RegisterSlabs | GetBatches | MGet | MPut

  /** What a default body does: complete with nothing, or raise `NotImplementedError`. */
  datatype Outcome = Completed | NotImplemented

  /** The default body of each operation in the connector base class. */
  function BaseBehaviour(op: Operation): (o: Outcome)
    ensures o == Completed <==> op == Prefetch
  {
    match op
    case Prefetch => Completed
    case RegisterSlabs => NotImplemented
    case GetBatches => NotImplemented
    case MGet => NotImplemented
    case MPut => NotImplemented
  }

  /**
   * A backend that keeps the default features advertises neither batching
   * nor prefetching, and the base class indeed implements no batched
   * operation.
   */
  lemma DefaultFeatureMatchesBase()
    ensures !ConnectorFeature().mputMget
    ensures forall op :: op in {MGet, MPut, GetBatches} ==> BaseBehaviour(op) == NotImplemented
  {
  }
}
