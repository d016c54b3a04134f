/** Public key metadata, role policies and the TPM objects the key manager works with. */
module KeyTypes {
  import opened Common

  const METADATA_VERSION: int := 1

  /** The well-known roles, and any other role by name. */
  datatype Role =
    | DeviceIPNSIdentity
    | DeviceRootCA
    | KubernetesAPICA
    | EtcdCA
    | ServiceAccountSigning
    | FrontProxyCA
    | SPIREServerCA
    | IstioCA
    | DeviceMTLS
    | FederationCrossCert
    | MobileClient
    | Custom(name: string)

  type Handle = nat

  datatype Algorithm = RSA4096 | ECDSAP256 | Ed25519 | UnknownAlgorithm(name: string)

  datatype KeyPurpose = LifetimeIdentity | CertificateAuthority | Signing | UnsupportedPurpose(name: string)

  const PERSISTENT_HANDLE_FIRST: Handle := 0x8100_0000
  const PERSISTENT_HANDLE_LAST: Handle := 0x817F_FFFF

  predicate IsPersistent(handle: Handle) {
    PERSISTENT_HANDLE_FIRST <= handle <= PERSISTENT_HANDLE_LAST
  }

  datatype Curve = NoCurve | P256 | Curve25519

  datatype SignatureScheme = RSASSASHA256 | ECDSASHA256 | PureEd25519

  /** The public description of a TPM signing key; the fixed object attributes are left implicit. */
  datatype Template = Template(
    algorithm: Algorithm, rsaBits: nat, rsaExponent: nat, curve: Curve, scheme: SignatureScheme)

  function SigningTemplate(algorithm: Algorithm): Option<Template> {
    match algorithm
    case RSA4096 => Some(Template(algorithm, 4096, 65537, NoCurve, RSASSASHA256))
    case ECDSAP256 => Some(Template(algorithm, 0, 0, P256, ECDSASHA256))
    case Ed25519 => Some(Template(algorithm, 0, 0, Curve25519, PureEd25519))
    case UnknownAlgorithm(_) => None
  }

  /** A public key, as its algorithm and its SubjectPublicKeyInfo bytes. */
  datatype PublicKey = PublicKey(algorithm: Algorithm, spki: string)

  /** The public area of a TPM object. */
  datatype Public = Public(handle: Handle, name: string, template: Template, key: PublicKey)

  /** The SubjectPublicKeyInfo of a public area that is consistent with its own template. */
  function CanonicalPublicKey(public: Public): Option<string> {
    if && IsPersistent(public.handle)
       && public.name != ""
       && SigningTemplate(public.template.algorithm) == Some(public.template)
       && public.key.algorithm == public.template.algorithm
       && public.key.spki != ""
    then Some(public.key.spki)
    else None
  }

  datatype RolePolicy = RolePolicy(
    role: Role,
    purpose: KeyPurpose,
    algorithm: Algorithm,
    handles: seq<Handle>,
    lifetime: bool,
    rotationInterval: int)

  datatype KeyMetadata = KeyMetadata(
    role: Role,
    purpose: KeyPurpose,
    algorithm: Algorithm,
    handle: Handle,
    publicName: string,
    publicKeyDER: string,
    template: Template,
    createdAt: nat,
    generation: nat)

  datatype RoleState = RoleState(active: KeyMetadata, retiring: seq<KeyMetadata>)

  datatype Snapshot = Snapshot(
    version: int,
    revision: nat,
    roles: map<Role, RoleState>,
    pending: map<Role, KeyMetadata>)

  function EmptySnapshot(): Snapshot {
    Snapshot(METADATA_VERSION, 0, map[], map[])
  }

  /** The validated configuration of a manager: its policies by role, and the order they were given in. */
  datatype Config = Config(policies: map<Role, RolePolicy>, order: seq<Role>)

  predicate Distinct<T(==)>(s: seq<T>) {
    forall i, j :: 0 <= i < j < |s| ==> s[i] != s[j]
  }

  predicate RoleChar(c: char) {
    'a' <= c <= 'z' || '0' <= c <= '9'
  }

  /** One to 64 characters: letters, digits and inner dashes. The well-known names all are. */
  predicate ValidRoleName(role: Role) {
    role.Custom? ==>
      && 1 <= |role.name| <= 64
      && RoleChar(role.name[0])
      && RoleChar(role.name[|role.name| - 1])
      && forall i :: 0 <= i < |role.name| ==> RoleChar(role.name[i]) || role.name[i] == '-'
  }

  predicate ValidPurpose(policy: RolePolicy) {
    match policy.purpose
    case LifetimeIdentity =>
      && policy.role.DeviceIPNSIdentity?
      && policy.lifetime && policy.rotationInterval == 0
      && |policy.handles| == 1
    case CertificateAuthority =>
      && !policy.role.DeviceIPNSIdentity?
      && !policy.lifetime && policy.rotationInterval > 0
      && |policy.handles| >= 2
    case Signing =>
      && !policy.role.DeviceIPNSIdentity?
      && policy.lifetime && policy.rotationInterval == 0
      && |policy.handles| == 1
    case UnsupportedPurpose(_) => false
  }

  predicate ValidPolicy(policy: RolePolicy) {
    && ValidRoleName(policy.role)
    && SigningTemplate(policy.algorithm).Some?
    && policy.handles != []
    && (forall i :: 0 <= i < |policy.handles| ==> IsPersistent(policy.handles[i]))
    && Distinct(policy.handles)
    && ValidPurpose(policy)
  }

  /** No persistent handle is assigned to both roles. */
  predicate SeparatedPools(p: RolePolicy, q: RolePolicy) {
    forall h :: h in p.handles ==> h !in q.handles
  }

  /** What the manager needs of its configuration. */
  ghost predicate ValidConfig(c: Config) {
    && Distinct(c.order)
    && (forall role :: role in c.policies <==> role in c.order)
    && (forall role :: role in c.policies ==> c.policies[role].role == role && ValidPolicy(c.policies[role]))
    && (forall r1, r2 :: r1 in c.policies && r2 in c.policies && r1 != r2
          ==> SeparatedPools(c.policies[r1], c.policies[r2]))
  }

  /** Roles whose key is never rotated. */
  predicate IsLifetime(role: Role, policy: RolePolicy) {
    policy.lifetime || policy.purpose.LifetimeIdentity? || role.DeviceIPNSIdentity?
  }

  /** The acceptable inputs of `ValidatePolicies`, said of the whole list at once. */
  predicate AcceptablePolicies(policies: seq<RolePolicy>) {
    && policies != []
    && (forall i :: 0 <= i < |policies| ==> ValidPolicy(policies[i]))
    && (forall i, j :: 0 <= i < j < |policies| ==>
          policies[i].role != policies[j].role && SeparatedPools(policies[i], policies[j]))
  }

  /** Scans one role's handle pool: each handle must be persistent, new to the pool and owned by no other role. */
  method ScanHandles(handles: seq<Handle>, owners: map<Handle, Role>, role: Role)
    returns (ok: bool, owners': map<Handle, Role>)
    ensures ok <==>
            && (forall i :: 0 <= i < |handles| ==> IsPersistent(handles[i]) && handles[i] !in owners)
            && Distinct(handles)
    ensures ok ==> owners'.Keys == owners.Keys + (set h | h in handles)
  {
    owners' := owners;
    var local: set<Handle> := {};
    for i := 0 to |handles|
      invariant local == set h | h in handles[..i]
      invariant Distinct(handles[..i])
      invariant forall k :: 0 <= k < i ==> IsPersistent(handles[k]) && handles[k] !in owners
      invariant owners'.Keys == owners.Keys + local
    {
      var handle := handles[i];
      if !IsPersistent(handle) || handle in local || handle in owners' {
        if handle in local {
          var k :| 0 <= k < i && handles[..i][k] == handle;
          assert handles[k] == handles[i];
        }
        return false, owners';
      }
      assert handles[..i + 1] == handles[..i] + [handle];
      local := local + {handle};
      owners' := owners'[handle := role];
    }
    assert handles[..|handles|] == handles;
    return true, owners';
  }

  /** Every handle already claimed is the claim of some policy seen so far. */
  ghost predicate Claimed(policies: seq<RolePolicy>, owned: set<Handle>) {
    forall h :: h in owned <==> exists i :: 0 <= i < |policies| && h in policies[i].handles
  }

  /** The index holds exactly the roles seen so far. */
  ghost predicate Indexed(policies: seq<RolePolicy>, byRole: map<Role, RolePolicy>) {
    forall role :: role in byRole <==> exists i :: 0 <= i < |policies| && policies[i].role == role
  }

  /** One more policy keeps the list acceptable exactly when its role is new and its pool unclaimed. */
  lemma OneMorePolicy(seen: seq<RolePolicy>, policy: RolePolicy, owned: set<Handle>, byRole: map<Role, RolePolicy>)
    requires seen != [] ==> AcceptablePolicies(seen)
    requires Claimed(seen, owned)
    requires Indexed(seen, byRole)
    ensures AcceptablePolicies(seen + [policy]) <==>
            && ValidPolicy(policy)
            && policy.role !in byRole
            && (forall h :: h in policy.handles ==> h !in owned)
  {
    var all := seen + [policy];
    if AcceptablePolicies(all) {
      forall i | 0 <= i < |seen| ensures seen[i].role != policy.role && SeparatedPools(seen[i], policy) {
        assert all[i] == seen[i] && all[|seen|] == policy;
      }
      assert all[|seen|] == policy;
    } else if && ValidPolicy(policy) && policy.role !in byRole && (forall h :: h in policy.handles ==> h !in owned) {
      forall i, j | 0 <= i < j < |all| ensures all[i].role != all[j].role && SeparatedPools(all[i], all[j]) {
        if j == |seen| {
          forall h | h in all[i].handles ensures h !in policy.handles {
            assert h in seen[i].handles;
            assert h in owned;
          }
        }
      }
    }
  }

  /** The configuration built so far is the index of the policies seen so far. */
  ghost predicate Mirrors(config: Config, seen: seq<RolePolicy>) {
    && |config.order| == |seen|
    && Indexed(seen, config.policies)
    && forall i :: 0 <= i < |seen| ==>
         && config.order[i] == seen[i].role
         && seen[i].role in config.policies
         && config.policies[seen[i].role] == seen[i]
  }

  /** Checks a policy list and indexes it; accepts exactly the acceptable lists. */
  method ValidatePolicies(policies: seq<RolePolicy>) returns (ok: bool, config: Config)
    ensures ok <==> AcceptablePolicies(policies)
    ensures ok ==> ValidConfig(config) && Mirrors(config, policies)
  {
    config := Config(map[], []);
    if |policies| == 0 { return false, config; }
    var owners: map<Handle, Role> := map[];
    for n := 0 to |policies|
      invariant Mirrors(config, policies[..n])
      invariant Claimed(policies[..n], owners.Keys)
      invariant n > 0 ==> AcceptablePolicies(policies[..n])
    {
      var policy := policies[n];
      assert policies[..n + 1] == policies[..n] + [policy];
      OneMorePolicy(policies[..n], policy, owners.Keys, config.policies);
      PrefixAcceptable(policies, n + 1);
      if !ValidRoleName(policy.role) || policy.role in config.policies
         || SigningTemplate(policy.algorithm).None? || |policy.handles| == 0 {
        return false, config;
      }
      var scanned, owners' := ScanHandles(policy.handles, owners, policy.role);
      if !scanned || !ValidPurpose(policy) {
        return false, config;
      }
      ClaimOne(policies[..n], policy, owners.Keys, owners'.Keys);
      MirrorOne(policies[..n], policy, config);
      owners := owners';
      config := Config(config.policies[policy.role := policy], config.order + [policy.role]);
    }
    assert policies[..|policies|] == policies;
    IndexedConfigValid(policies, config);
    ok := true;
  }

  lemma PrefixAcceptable(policies: seq<RolePolicy>, n: nat)
    requires 0 < n <= |policies|
    ensures AcceptablePolicies(policies) ==> AcceptablePolicies(policies[..n])
  {
  }

  lemma ClaimOne(seen: seq<RolePolicy>, policy: RolePolicy, owned: set<Handle>, owned': set<Handle>)
    requires Claimed(seen, owned)
    requires owned' == owned + set h | h in policy.handles
    ensures Claimed(seen + [policy], owned')
  {
    var all := seen + [policy];
    forall h ensures h in owned' <==> exists i :: 0 <= i < |all| && h in all[i].handles {
      if h in owned {
        var i :| 0 <= i < |seen| && h in seen[i].handles;
        assert all[i] == seen[i];
      }
      if h in policy.handles { assert all[|seen|] == policy; }
      if i :| 0 <= i < |all| && h in all[i].handles {
        if i < |seen| { assert h in seen[i].handles; }
      }
    }
  }

  lemma IndexOne(seen: seq<RolePolicy>, policy: RolePolicy, byRole: map<Role, RolePolicy>)
    requires Indexed(seen, byRole)
    ensures Indexed(seen + [policy], byRole[policy.role := policy])
  {
    var all := seen + [policy];
    var byRole' := byRole[policy.role := policy];
    forall role ensures role in byRole' <==> exists i :: 0 <= i < |all| && all[i].role == role {
      if role in byRole {
        var i :| 0 <= i < |seen| && seen[i].role == role;
        assert all[i].role == role;
      }
      if role == policy.role { assert all[|seen|].role == role; }
      if i :| 0 <= i < |all| && all[i].role == role {
        if i < |seen| { assert seen[i].role == role; }
      }
    }
  }

  lemma MirrorOne(seen: seq<RolePolicy>, policy: RolePolicy, config: Config)
    requires Mirrors(config, seen) && policy.role !in config.policies
    ensures Mirrors(Config(config.policies[policy.role := policy], config.order + [policy.role]), seen + [policy])
  {
    IndexOne(seen, policy, config.policies);
  }

  lemma IndexedPolicy(policies: seq<RolePolicy>, config: Config, role: Role) returns (i: nat)
    requires Mirrors(config, policies) && role in config.policies
    ensures i < |policies| && policies[i].role == role && config.order[i] == role
    ensures config.policies[role] == policies[i]
  {
    i :| 0 <= i < |policies| && policies[i].role == role;
  }

  lemma IndexedPoolsSeparated(policies: seq<RolePolicy>, config: Config, r1: Role, r2: Role)
    requires AcceptablePolicies(policies) && Mirrors(config, policies)
    requires r1 in config.policies && r2 in config.policies && r1 != r2
    ensures SeparatedPools(config.policies[r1], config.policies[r2])
  {
    var i := IndexedPolicy(policies, config, r1);
    var j := IndexedPolicy(policies, config, r2);
    if j < i { assert SeparatedPools(policies[j], policies[i]); }
  }

  lemma IndexedConfigValid(policies: seq<RolePolicy>, config: Config)
    requires AcceptablePolicies(policies) && Mirrors(config, policies)
    ensures ValidConfig(config)
  {
    forall role | role in config.order ensures role in config.policies {
      var i :| 0 <= i < |config.order| && config.order[i] == role;
    }
    forall role | role in config.policies
      ensures role in config.order && config.policies[role].role == role && ValidPolicy(config.policies[role])
    {
      var i := IndexedPolicy(policies, config, role);
    }
    forall r1, r2 | r1 in config.policies && r2 in config.policies && r1 != r2
      ensures SeparatedPools(config.policies[r1], config.policies[r2])
    {
      IndexedPoolsSeparated(policies, config, r1, r2);
    }
  }
}
