/**
  `PluginInitializer` and its `Initialize` pass: every plugin in the list is
  probed for each of the five capability interfaces, and each one it
  implements receives the collaborator the initializer holds for it. The Go
  code mutates the plugins through their setters; here `Initialize` returns
  the list of plugins as the setters leave them.
*/
module Initializer {
  import opened Wrappers
  import opened Plugins

  /** The collaborators the hosting server hands to the plugins. */
  datatype PluginInitializer<C, P, A, R, G> = PluginInitializer(
    openshiftClient: C,
    projectCache: P,
    authorizer: A,
    ruleResolver: R,
    clientConfig: G
  )

  /** The slot of capability `c` in `q` holds exactly the collaborator that
      `i` holds for `c`. */
  ghost predicate Holds<C, P, A, R, G>(
      i: PluginInitializer<C, P, A, R, G>, q: Plugin<C, P, A, R, G>, c: Capability
  ) {
    match c
    case WantsOpenshiftClient => q.openshiftClient == Some(i.openshiftClient)
    case WantsProjectCache => q.projectCache == Some(i.projectCache)
    case WantsAuthorizer => q.authorizer == Some(i.authorizer)
    case WantsAuthorizationRuleResolver => q.ruleResolver == Some(i.ruleResolver)
    case WantsClientConfig => q.clientConfig == Some(i.clientConfig)
  }

  /** `q` is what injecting the capabilities in `caps` leaves of `p`: the
      plugin implements the same interfaces and is the same validator, every
      implemented capability named in `caps` holds the initializer's
      collaborator, and every other slot is untouched. */
  ghost predicate InjectedFor<C, P, A, R, G>(
      i: PluginInitializer<C, P, A, R, G>, p: Plugin<C, P, A, R, G>, q: Plugin<C, P, A, R, G>,
      caps: set<Capability>
  ) {
    && q.validator == p.validator
    && (forall c: Capability :: Implements(q, c) == Implements(p, c))
    && (forall c: Capability :: c in caps && Implements(p, c) ==> Holds(i, q, c))
    && (forall c: Capability :: c !in caps || !Implements(p, c) ==> SameSlot(p, q, c))
  }

  /** `q` is `p` after the whole initialization pass of the source. */
  ghost predicate Injected<C, P, A, R, G>(
      i: PluginInitializer<C, P, A, R, G>, p: Plugin<C, P, A, R, G>, q: Plugin<C, P, A, R, G>
  ) {
    InjectedFor(i, p, q, set c: Capability | c in Catalog)
  }

  /** One `if x, ok := plugin.(WantsX); ok { x.SetX(i.X) }` step: the setter
      overwrites the slot of a plugin that implements the capability, and a
      plugin that does not is left alone. */
  function Inject<C, P, A, R, G>(
      i: PluginInitializer<C, P, A, R, G>, p: Plugin<C, P, A, R, G>, c: Capability
  ): (q: Plugin<C, P, A, R, G>)
    ensures InjectedFor(i, p, q, {c})
    ensures !Implements(p, c) ==> q == p
  {
    if !Implements(p, c) then p
    else
      match c
      case WantsOpenshiftClient => p.(openshiftClient := Some(i.openshiftClient))
      case WantsProjectCache => p.(projectCache := Some(i.projectCache))
      case WantsAuthorizer => p.(authorizer := Some(i.authorizer))
      case WantsAuthorizationRuleResolver => p.(ruleResolver := Some(i.ruleResolver))
      case WantsClientConfig => p.(clientConfig := Some(i.clientConfig))
  }

  /** The capability checks of one plugin, performed in the order `caps`. */
  function InjectAll<C, P, A, R, G>(
      i: PluginInitializer<C, P, A, R, G>, p: Plugin<C, P, A, R, G>, caps: seq<Capability>
  ): (q: Plugin<C, P, A, R, G>)
    ensures InjectedFor(i, p, q, set c | c in caps)
    decreases |caps|
  {
    if caps == [] then p
    else
      var m := Inject(i, p, caps[0]);
      var q := InjectAll(i, m, caps[1..]);
      InjectedForCompose(i, p, m, q, {caps[0]}, set c | c in caps[1..]);
      assert (set c | c in caps) == {caps[0]} + (set c | c in caps[1..]);
      q
  }

  /** Injecting the capabilities of `s` and then those of `t` is injecting
      those of `s + t`. */
  lemma InjectedForCompose<C, P, A, R, G>(
      i: PluginInitializer<C, P, A, R, G>, p: Plugin<C, P, A, R, G>, m: Plugin<C, P, A, R, G>,
      q: Plugin<C, P, A, R, G>, s: set<Capability>, t: set<Capability>
  )
    requires InjectedFor(i, p, m, s)
    requires InjectedFor(i, m, q, t)
    ensures InjectedFor(i, p, q, s + t)
  {
    forall c: Capability | c in s + t && Implements(p, c)
      ensures Holds(i, q, c)
    {
      if c !in t {
        match c
        case WantsOpenshiftClient =>
        case WantsProjectCache =>
        case WantsAuthorizer =>
        case WantsAuthorizationRuleResolver =>
        case WantsClientConfig =>
      }
    }
    forall c: Capability | c !in s + t || !Implements(p, c)
      ensures SameSlot(p, q, c)
    {
      match c
      case WantsOpenshiftClient =>
      case WantsProjectCache =>
      case WantsAuthorizer =>
      case WantsAuthorizationRuleResolver =>
      case WantsClientConfig =>
    }
  }

  /** The body of the source's loop for one plugin: the five checks in
      catalog order. */
  function InitializePlugin<C, P, A, R, G>(
      i: PluginInitializer<C, P, A, R, G>, p: Plugin<C, P, A, R, G>
  ): (q: Plugin<C, P, A, R, G>)
    ensures Injected(i, p, q)
    ensures WantsNothing(p) ==> q == p
  {
    var p1 := Inject(i, p, WantsOpenshiftClient);
    var p2 := Inject(i, p1, WantsProjectCache);
    var p3 := Inject(i, p2, WantsAuthorizer);
    var p4 := Inject(i, p3, WantsAuthorizationRuleResolver);
    var q := Inject(i, p4, WantsClientConfig);
    var s1 := {WantsOpenshiftClient};
    var s2 := s1 + {WantsProjectCache};
    var s3 := s2 + {WantsAuthorizer};
    var s4 := s3 + {WantsAuthorizationRuleResolver};
    InjectedForCompose(i, p, p1, p2, s1, {WantsProjectCache});
    InjectedForCompose(i, p, p2, p3, s2, {WantsAuthorizer});
    InjectedForCompose(i, p, p3, p4, s3, {WantsAuthorizationRuleResolver});
    InjectedForCompose(i, p, p4, q, s4, {WantsClientConfig});
    assert (set c | c in Catalog) == s4 + {WantsClientConfig};
    q
  }

  /** `Initialize(plugins)` of the source. */
  function Initialize<C, P, A, R, G>(
      i: PluginInitializer<C, P, A, R, G>, plugins: seq<Plugin<C, P, A, R, G>>
  ): (r: seq<Plugin<C, P, A, R, G>>)
    ensures |r| == |plugins|
    ensures forall k :: 0 <= k < |plugins| ==> Injected(i, plugins[k], r[k])
  {
    seq(|plugins|, k requires 0 <= k < |plugins| => InitializePlugin(i, plugins[k]))
  }

  /** The source's `for _, plugin := range plugins` loop, one plugin at a
      time in list order. */
  method InitializeChain<C, P, A, R, G>(
      i: PluginInitializer<C, P, A, R, G>, plugins: seq<Plugin<C, P, A, R, G>>
  ) returns (r: seq<Plugin<C, P, A, R, G>>)
    ensures r == Initialize(i, plugins)
  {
    r := [];
    for k := 0 to |plugins|
      invariant |r| == k
      invariant forall j :: 0 <= j < k ==> r[j] == InitializePlugin(i, plugins[j])
    {
      r := r + [InitializePlugin(i, plugins[k])];
    }
  }

  /** Two results of injecting the same capabilities into the same plugin
      are the same plugin: the relation pins down every slot. */
  lemma InjectedForUnique<C, P, A, R, G>(
      i: PluginInitializer<C, P, A, R, G>, p: Plugin<C, P, A, R, G>, q1: Plugin<C, P, A, R, G>,
      q2: Plugin<C, P, A, R, G>, s: set<Capability>
  )
    requires InjectedFor(i, p, q1, s)
    requires InjectedFor(i, p, q2, s)
    ensures q1 == q2
  {
    assert Holds(i, q1, WantsOpenshiftClient) || SameSlot(p, q1, WantsOpenshiftClient);
    assert Holds(i, q2, WantsOpenshiftClient) || SameSlot(p, q2, WantsOpenshiftClient);
    assert Holds(i, q1, WantsProjectCache) || SameSlot(p, q1, WantsProjectCache);
    assert Holds(i, q2, WantsProjectCache) || SameSlot(p, q2, WantsProjectCache);
    assert Holds(i, q1, WantsAuthorizer) || SameSlot(p, q1, WantsAuthorizer);
    assert Holds(i, q2, WantsAuthorizer) || SameSlot(p, q2, WantsAuthorizer);
    assert Holds(i, q1, WantsAuthorizationRuleResolver)
      || SameSlot(p, q1, WantsAuthorizationRuleResolver);
    assert Holds(i, q2, WantsAuthorizationRuleResolver)
      || SameSlot(p, q2, WantsAuthorizationRuleResolver);
    assert Holds(i, q1, WantsClientConfig) || SameSlot(p, q1, WantsClientConfig);
    assert Holds(i, q2, WantsClientConfig) || SameSlot(p, q2, WantsClientConfig);
  }

  /** The order of the five capability checks does not matter: performing
      them in any order that covers every capability, even with repeats,
      gives the plugin the source's catalog order gives. */
  lemma CheckOrderIrrelevant<C, P, A, R, G>(
      i: PluginInitializer<C, P, A, R, G>, p: Plugin<C, P, A, R, G>, caps: seq<Capability>
  )
    requires forall c: Capability :: c in caps
    ensures InjectAll(i, p, caps) == InitializePlugin(i, p)
  {
    CatalogIsComplete();
    assert (set c | c in caps) == (set c | c in Catalog);
    InjectedForUnique(i, p, InjectAll(i, p, caps), InitializePlugin(i, p), set c | c in Catalog);
  }

  /** The five checks `InitializePlugin` performs are the checks of the
      catalog, in the catalog's order: every capability is probed. */
  lemma InitializePluginFollowsCatalog<C, P, A, R, G>(
      i: PluginInitializer<C, P, A, R, G>, p: Plugin<C, P, A, R, G>
  )
    ensures InjectAll(i, p, Catalog) == InitializePlugin(i, p)
  {
    CatalogIsComplete();
    CheckOrderIrrelevant(i, p, Catalog);
  }

  /** Two capability checks commute: each touches only its own slot. */
  lemma InjectCommutes<C, P, A, R, G>(
      i: PluginInitializer<C, P, A, R, G>, p: Plugin<C, P, A, R, G>, c: Capability, d: Capability
  )
    ensures Inject(i, Inject(i, p, c), d) == Inject(i, Inject(i, p, d), c)
  {
    var m1 := Inject(i, p, c);
    var m2 := Inject(i, p, d);
    InjectedForCompose(i, p, m1, Inject(i, m1, d), {c}, {d});
    InjectedForCompose(i, p, m2, Inject(i, m2, c), {d}, {c});
    assert {c} + {d} == {d} + {c};
    InjectedForUnique(i, p, Inject(i, m1, d), Inject(i, m2, c), {c, d});
  }

  /** Injecting the same capability twice is injecting it once. */
  lemma InjectIdempotent<C, P, A, R, G>(
      i: PluginInitializer<C, P, A, R, G>, p: Plugin<C, P, A, R, G>, c: Capability
  )
    ensures Inject(i, Inject(i, p, c), c) == Inject(i, p, c)
  {
    var q := Inject(i, p, c);
    InjectedForCompose(i, p, q, Inject(i, q, c), {c}, {c});
    assert {c} + {c} == {c};
    InjectedForUnique(i, p, Inject(i, q, c), q, {c});
  }

  /** Initializing one plugin twice gives what initializing it once gives:
      the setters overwrite with the same collaborators. */
  lemma InitializePluginIdempotent<C, P, A, R, G>(
      i: PluginInitializer<C, P, A, R, G>, p: Plugin<C, P, A, R, G>
  )
    ensures InitializePlugin(i, InitializePlugin(i, p)) == InitializePlugin(i, p)
  {
    var s := set c | c in Catalog;
    var q := InitializePlugin(i, p);
    InjectedForCompose(i, p, q, InitializePlugin(i, q), s, s);
    assert s + s == s;
    InjectedForUnique(i, p, InitializePlugin(i, q), q, s);
  }

  /** `Initialize` run twice with the same initializer gives the list that
      running it once gives. */
  lemma InitializeIdempotent<C, P, A, R, G>(
      i: PluginInitializer<C, P, A, R, G>, plugins: seq<Plugin<C, P, A, R, G>>
  )
    ensures Initialize(i, Initialize(i, plugins)) == Initialize(i, plugins)
  {
    var once := Initialize(i, plugins);
    forall k | 0 <= k < |plugins|
      ensures Initialize(i, once)[k] == once[k]
    {
      InitializePluginIdempotent(i, plugins[k]);
    }
  }

  /** Plugins are processed independently and in place: initializing a
      concatenation is concatenating the initialized parts, so the pass
      never adds, drops or reorders plugins. */
  lemma InitializeAppend<C, P, A, R, G>(
      i: PluginInitializer<C, P, A, R, G>, a: seq<Plugin<C, P, A, R, G>>,
      b: seq<Plugin<C, P, A, R, G>>
  )
    ensures Initialize(i, a + b) == Initialize(i, a) + Initialize(i, b)
  {
  }

  /** A list whose plugins implement none of the capabilities, the empty
      list included, comes out of `Initialize` unchanged. */
  lemma InitializeWantsNothing<C, P, A, R, G>(
      i: PluginInitializer<C, P, A, R, G>, plugins: seq<Plugin<C, P, A, R, G>>
  )
    requires forall k :: 0 <= k < |plugins| ==> WantsNothing(plugins[k])
    ensures Initialize(i, plugins) == plugins
  {
  }
}
