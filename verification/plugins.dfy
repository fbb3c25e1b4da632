/**
  The admission plugins as this model sees them: an opaque value that may
  implement any subset of five capability interfaces (each one a setter for
  one shared collaborator) and, independently, the `Validator` interface.
  A capability slot is `None` when the plugin does not implement that
  interface and `Some(v)` when it does, `v` being the collaborator its setter
  last stored. The type parameters are the opaque collaborator types: `C` the
  OpenShift client, `P` the project cache, `A` the authorizer, `R` the
  authorization rule resolver and `G` the REST client configuration.
*/
module Plugins {
  import opened Wrappers

  /** The five initialization interfaces, one per collaborator. */
  datatype Capability =
    | WantsOpenshiftClient
    | WantsProjectCache
    | WantsAuthorizer
    | WantsAuthorizationRuleResolver
    | WantsClientConfig

  /** The order in which `Initialize` probes the capabilities of one plugin. */
  const Catalog: seq<Capability> := [
    WantsOpenshiftClient, WantsProjectCache, WantsAuthorizer,
    WantsAuthorizationRuleResolver, WantsClientConfig
  ]

  /** An admission plugin: five capability slots and an optional validator.
      `validator` is `None` for a plugin that is not a `Validator`, otherwise
      the result its `Validate()` returns. */
  datatype Plugin<C, P, A, R, G> = Plugin(
    openshiftClient: Option<C>,
    projectCache: Option<P>,
    authorizer: Option<A>,
    ruleResolver: Option<R>,
    clientConfig: Option<G>,
    validator: Option<Outcome<string>>
  )

  /** The type assertion `plugin.(X)` of the source, for capability X. */
  predicate Implements<C, P, A, R, G>(p: Plugin<C, P, A, R, G>, c: Capability) {
    match c
    case WantsOpenshiftClient => p.openshiftClient.Some?
    case WantsProjectCache => p.projectCache.Some?
    case WantsAuthorizer => p.authorizer.Some?
    case WantsAuthorizationRuleResolver => p.ruleResolver.Some?
    case WantsClientConfig => p.clientConfig.Some?
  }

  /** The two plugins agree on the slot of capability `c`. */
  ghost predicate SameSlot<C, P, A, R, G>(
      p: Plugin<C, P, A, R, G>, q: Plugin<C, P, A, R, G>, c: Capability
  ) {
    match c
    case WantsOpenshiftClient => p.openshiftClient == q.openshiftClient
    case WantsProjectCache => p.projectCache == q.projectCache
    case WantsAuthorizer => p.authorizer == q.authorizer
    case WantsAuthorizationRuleResolver => p.ruleResolver == q.ruleResolver
    case WantsClientConfig => p.clientConfig == q.clientConfig
  }

  /** The type assertion `plugin.(Validator)` of the source. */
  predicate IsValidator<C, P, A, R, G>(p: Plugin<C, P, A, R, G>) {
    p.validator.Some?
  }

  /** The plugin is a `Validator` whose `Validate()` returns a non-nil error. */
  predicate Fails<C, P, A, R, G>(p: Plugin<C, P, A, R, G>) {
    p.validator.Some? && p.validator.value.Fail?
  }

  /** A plugin that implements none of the five capabilities. */
  ghost predicate WantsNothing<C, P, A, R, G>(p: Plugin<C, P, A, R, G>) {
    forall c: Capability :: !Implements(p, c)
  }

  /** Every capability appears in the catalog. */
  lemma CatalogIsComplete()
    ensures forall c: Capability :: c in Catalog
    ensures |Catalog| == 5
  {
    forall c: Capability ensures c in Catalog {
      match c
      case WantsOpenshiftClient => assert Catalog[0] == c;
      case WantsProjectCache => assert Catalog[1] == c;
      case WantsAuthorizer => assert Catalog[2] == c;
      case WantsAuthorizationRuleResolver => assert Catalog[3] == c;
      case WantsClientConfig => assert Catalog[4] == c;
    }
  }
}
