/** Who may do what: the default rule, governance, and what governance passes on to submessages. */
module Policies {
  import opened Base
  import opened Types

  predicate Allowed(c: AccessConfig, actor: Addr) {
    match c.permission
    case Everybody => true
    case AnyOfAddresses => actor in c.addresses
    case Nobody => false
    case Unspecified => false
  }

  predicate TypeIsSubset(a: AccessType, super: AccessType) {
    match super
    case Everybody => a != Unspecified
    case Nobody => a == Nobody
    case AnyOfAddresses => a == Nobody || a == AnyOfAddresses
    case Unspecified => false
  }

  predicate ConfigIsSubset(a: AccessConfig, super: AccessConfig) {
    match super.permission
    case AnyOfAddresses =>
      a.permission == Nobody || (a.permission == AnyOfAddresses && forall x :: x in a.addresses ==> x in super.addresses)
    case Unspecified => false
    case _ => TypeIsSubset(a.permission, super.permission)
  }

  datatype ChainConfigs = ChainConfigs(upload: AccessConfig, instantiate: AccessConfig)

  predicate CanCreateCode(p: Policy, chain: ChainConfigs, actor: Addr, config: AccessConfig) {
    match p
    case DefaultPolicy => Allowed(chain.upload, actor) && ConfigIsSubset(config, chain.instantiate)
    case GovPolicy(_) => true
    case PartialGovPolicy(_, base) => CanCreateCode(base, chain, actor, config)
  }

  predicate CanInstantiateContract(p: Policy, config: AccessConfig, actor: Addr) {
    match p
    case DefaultPolicy => Allowed(config, actor)
    case GovPolicy(_) => true
    case PartialGovPolicy(action, base) => action == InstantiateAction || CanInstantiateContract(base, config, actor)
  }

  predicate CanModifyContract(p: Policy, admin: Option<Addr>, actor: Addr) {
    match p
    case DefaultPolicy => admin == Some(actor)
    case GovPolicy(_) => true
    case PartialGovPolicy(action, base) => action == MigrateAction || CanModifyContract(base, admin, actor)
  }

  predicate CanModifyCodeAccessConfig(p: Policy, creator: Addr, actor: Addr, isSubset: bool) {
    match p
    case DefaultPolicy => creator == actor && isSubset
    case GovPolicy(_) => true
    case PartialGovPolicy(_, base) => CanModifyCodeAccessConfig(base, creator, actor, isSubset)
  }

  function SubMessagePolicy(p: Policy, action: Action): (r: Policy) {
    match p
    case DefaultPolicy => DefaultPolicy
    case GovPolicy(propagate) => if action in propagate then PartialGovPolicy(action, DefaultPolicy) else DefaultPolicy
    case PartialGovPolicy(_, _) => p
  }

  /** msgServer.selectAuthorizationPolicy */
  function SelectPolicy(authority: Addr, propagate: set<Action>, inherited: Option<Policy>, actor: Addr): (r: Policy) {
    if actor == authority then GovPolicy(propagate)
    else if inherited.Some? then inherited.value
    else DefaultPolicy
  }

  // ---------------------------------------------------------------- policies down a message tree

  /** At most the one action handed down at the root. */
  predicate Narrow(p: Policy, root: Option<Action>) {
    p == DefaultPolicy || (root.Some? && p == PartialGovPolicy(root.value, DefaultPolicy))
  }

  /** The same for a context, which may carry no policy. */
  predicate NarrowContext(p: Option<Policy>, root: Option<Action>) {
    p.Some? ==> Narrow(p.value, root)
  }

  /** What a narrow policy decides about code is what the default rule decides. */
  lemma NarrowDecidesCodeByDefault(p: Policy, root: Option<Action>, chain: ChainConfigs, actor: Addr, config: AccessConfig, creator: Addr, isSubset: bool)
    requires Narrow(p, root)
    ensures CanCreateCode(p, chain, actor, config) <==> CanCreateCode(DefaultPolicy, chain, actor, config)
    ensures CanModifyCodeAccessConfig(p, creator, actor, isSubset) <==> CanModifyCodeAccessConfig(DefaultPolicy, creator, actor, isSubset)
    ensures CanInstantiateContract(p, config, actor) && !CanInstantiateContract(DefaultPolicy, config, actor) ==> root == Some(InstantiateAction)
    ensures CanModifyContract(p, Some(creator), actor) && creator != actor ==> root == Some(MigrateAction)
  {}
}
