/**
  * The values hosts, bridges and clients exchange.
  *
  * A signature is modelled by naming the key that made it (`signer`); verifying it is comparing
  * that name with the expected key. A SHA-256 hash is modelled by the value hashed, so that it is
  * injective. An authority fingerprint is identified with the authority key it is computed from.
  */
module Community {
  type BridgeId = string
  type HostId = string
  type GrantId = string
  type Key = string

  type Byte = i: int | 0 <= i < 256

  datatype Option<+T> = None | Some(value: T)

  predicate Distinct<T(==)>(list: seq<T>) {
    forall i, j | 0 <= i < j < |list| :: list[i] != list[j]
  }

  /** The set a list of ids stands for. */
  function Ids<T(==)>(list: seq<T>): set<T> {
    set i | 0 <= i < |list| :: list[i]
  }

  lemma IdsUpTo<T>(list: seq<T>, i: nat)
    requires i < |list|
    ensures Ids(list[..i + 1]) == Ids(list[..i]) + {list[i]}
    ensures Distinct(list[..i + 1]) <==> Distinct(list[..i]) && list[i] !in Ids(list[..i])
  {
  }

  /** What comparing `new Set(list).size` with the length of the list decides. */
  lemma {:induction false} DistinctIffSize<T>(list: seq<T>)
    ensures Distinct(list) <==> |Ids(list)| == |list|
    ensures |Ids(list)| <= |list|
    decreases |list|
  {
    if list != [] {
      var n := |list| - 1;
      DistinctIffSize(list[..n]);
      if list[n] in Ids(list[..n]) {
        assert Ids(list) == Ids(list[..n]);
      } else {
        assert Ids(list) == Ids(list[..n]) + {list[n]};
      }
    }
  }

  /** The `serial`-th connection that `host` opened to `bridge`. */
  datatype Socket = Socket(host: HostId, bridge: BridgeId, serial: nat)

  datatype Role = Primary | Replica

  datatype Capability = CanRegister | CanReplicate | CanPromote

  /** `authorityScope`: one community under one authority. */
  datatype Scope = Scope(authority: Key, server: string)

  /** `hostBindingKey`: one host of one community. */
  datatype HostKey = HostKey(scope: Scope, hostId: HostId)

  datatype Grant = Grant(
    signer: Key, server: string, grantId: GrantId, hostId: HostId, device: Key,
    capabilities: set<Capability>, witnessBridges: set<BridgeId>, generation: nat, expiresAt: int)

  datatype RecordHash = NoHash | HashOf(record: HostRecord)

  datatype HostRecord = HostRecord(
    signer: Key, server: string, grantId: GrantId, hostId: HostId, role: Role, epoch: nat,
    recordSeq: nat, previous: RecordHash, issuedAt: int, ttl: int, expiresAt: int)

  /** The schema's own bounds: generations and sequence numbers start at one, identifiers are not empty. */
  predicate WellFormedGrant(g: Grant) {
    g.generation >= 1 && |g.hostId| >= 1
  }

  predicate WellFormedRecord(r: HostRecord) {
    r.recordSeq >= 1 && |r.hostId| >= 1 && r.expiresAt > r.issuedAt
  }

  /** `verifySignedHostGrant` */
  predicate GrantVerifies(g: Grant, authority: Key, now: int) {
    g.signer == authority && g.expiresAt > now
  }

  /** `verifyHostRegistration`: the authority signed the grant, the granted device signed the record. */
  predicate RegistrationVerifies(r: HostRecord, g: Grant, authority: Key, revoked: bool, now: int) {
    && GrantVerifies(g, authority, now)
    && !revoked
    && CanRegister in g.capabilities
    && r.signer == g.device
    && r.expiresAt > now
    && r.expiresAt <= r.issuedAt + r.ttl
    && r.server == g.server && r.grantId == g.grantId && r.hostId == g.hostId
    && (r.role.Replica? ==> CanReplicate in g.capabilities)
    && (r.role.Primary? ==> CanPromote in g.capabilities)
  }

  /** One bridge's signed vote for a candidate in the election that follows `primaryEpoch`. */
  datatype Receipt = Receipt(
    signer: BridgeId, bridge: BridgeId, requestId: string, server: string, candidate: HostId,
    primary: HostId, primaryHash: RecordHash, primaryEpoch: nat, electionEpoch: nat,
    voteGrantedAt: int, issuedAt: int, expiresAt: int)

  /** One bridge's signed statement that the primary is, or is not, connected to it. */
  datatype AbsenceWitness = AbsenceWitness(
    signer: BridgeId, bridge: BridgeId, server: string, replica: HostId, primary: HostId,
    primaryHash: RecordHash, primaryEpoch: nat, primaryOnline: bool, observedAt: int, expiresAt: int)
}
