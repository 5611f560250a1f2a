/** JSON trees. Text syntax is not modelled: encoding and decoding a tree are
    taken to be inverse. */
module Jsons {

  /** A string. The values that the configuration code compares with are named;
      every other string is Plain. */
  datatype Txt =
    | Empty
    // migration states
    | Loopback | Staged | Written | Ready | Failed
    // transition reasons
    | MaterialStaged | RetryProgress | RemoteSharedKeyWritten | SecretWriteOutcomeUnknown
    | GatewayVersionVerified | SSHMaterialVerified | SharedKeyCleanupVerified
    | IdentityResetPrepared | IdentityRemovalPrepared
    // provisioning phases before any secret is written
    | PreSecretPhase(phase: nat)
    // transports, discovery, proof verifiers
    | TransportSSH | DiscoveryStatic | LocalFile | RegularSSH | TailscaleSSH
    // cleanup record sources
    | DeleteSource | DisableSource | MaterialCleanupSource | TombstoneSource
    | Plain(text: string)

  /** An object key. Known field names are named; every other one is Other. */
  datatype Key =
    // configuration document
    | Listen | SharedKey | Discovery | StaticPeers | Hostname | Transport | Ssh
    | Port | MaxHistory | ConfigVersion | ConfigRevision
    // ssh section
    | SyncKey | KnownHosts | MaxSessions | MaxSessionsPerPeer | LogLimitBytes | Peers
    | AuditLog | Remediation
    // peer
    | Id | SshHost | SshUser | SshPort | InstallPath | GatewayPath
    | Enabled | Accept | Connect | Persistent | OnDemand
    | MigrationState | Proof | MigrationLog
    // proof
    | AcceptKeyID | AcceptGatewayPath | AcceptVerifiedAt | AcceptVerifiedBy
    | ConnectKeyID | ConnectGatewayPath | ConnectVerifiedAt | ConnectVerifiedBy
    // migration log entry
    | FromState | ToState | Reason | LogID | FailedPhase | AbsenceProof
    | SecretWriteCommandSpawned | AbsenceVerifiedBy | VerifiedAt | RemoteConfigRevision
    // audit and remediation records
    | Source | PeerID | PreviousState
    | Other(name: string)

  datatype Json =
    | Null
    | Bool(b: bool)
    | Num(n: int)
    | Str(s: Txt)
    | Arr(items: seq<Json>)
    | Obj(fields: Fields)

  type Fields = map<Key, Json>
}
