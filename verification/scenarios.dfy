/**
  Four concrete plugin chains, with integers standing in for the five
  collaborators: a cache-only plugin next to a plugin implementing nothing,
  a passing validator followed by a failing one, two failing validators, and
  the empty chain.
*/
module Scenarios {
  import opened Wrappers
  import opened Plugins
  import opened Initializer
  import opened Validation

  type TestPlugin = Plugin<int, int, int, int, int>

  /** A plugin implementing only `WantsProjectCache`, holding `cache`. */
  function CacheOnly(cache: int): TestPlugin {
    Plugin(None, Some(cache), None, None, None, None)
  }

  /** A plugin implementing nothing. */
  const Bare: TestPlugin := Plugin(None, None, None, None, None, None)

  function Validator(outcome: Outcome<string>): TestPlugin {
    Plugin(None, None, None, None, None, Some(outcome))
  }

  /** A cache-only plugin receives the cache; a bare plugin is unchanged. */
  lemma ScenarioCacheOnly(i: PluginInitializer<int, int, int, int, int>, cache: int)
    ensures Initialize(i, [CacheOnly(cache), Bare]) == [CacheOnly(i.projectCache), Bare]
  {
    var p := CacheOnly(cache);
    var expected := CacheOnly(i.projectCache);
    var all := set c | c in Catalog;
    assert InjectedFor(i, p, expected, all) by {
      forall c: Capability ensures Implements(expected, c) == Implements(p, c) {
        match c
        case WantsOpenshiftClient =>
        case WantsProjectCache =>
        case WantsAuthorizer =>
        case WantsAuthorizationRuleResolver =>
        case WantsClientConfig =>
      }
      forall c: Capability | c !in all || !Implements(p, c)
        ensures SameSlot(p, expected, c)
      {
        match c
        case WantsOpenshiftClient =>
        case WantsProjectCache =>
        case WantsAuthorizer =>
        case WantsAuthorizationRuleResolver =>
        case WantsClientConfig =>
      }
    }
    InjectedForUnique(i, p, InitializePlugin(i, p), expected, all);
    assert WantsNothing(Bare) by {
      forall c: Capability ensures !Implements(Bare, c) {
        match c
        case WantsOpenshiftClient =>
        case WantsProjectCache =>
        case WantsAuthorizer =>
        case WantsAuthorizationRuleResolver =>
        case WantsClientConfig =>
      }
    }
    InitializePair(i, p, Bare);
  }

  /** `Initialize` on a two-plugin list, plugin by plugin. */
  lemma InitializePair(i: PluginInitializer<int, int, int, int, int>, p: TestPlugin, q: TestPlugin)
    ensures Initialize(i, [p, q]) == [InitializePlugin(i, p), InitializePlugin(i, q)]
  {
    var r := Initialize(i, [p, q]);
    assert |r| == 2;
    assert r[0] == InitializePlugin(i, p);
    assert r[1] == InitializePlugin(i, q);
  }

  /** The second validator's error is returned after the first one passed. */
  lemma ScenarioSecondFails()
    ensures Validate([Validator(Pass), Validator(Fail("missing config"))]) == Fail("missing config")
    ensures Invoked([Validator(Pass), Validator(Fail("missing config"))], 0)
  {
    assert FirstFailure([Validator(Pass), Validator(Fail("missing config"))], 1);
  }

  /** Only the first error is returned and the second validator is not called. */
  lemma ScenarioBothFail()
    ensures Validate([Validator(Fail("E1")), Validator(Fail("E2"))]) == Fail("E1")
    ensures !Invoked([Validator(Fail("E1")), Validator(Fail("E2"))], 1)
  {
    assert FirstFailure([Validator(Fail("E1")), Validator(Fail("E2"))], 0);
  }

  /** The empty chain: nothing to initialize and validation passes. */
  lemma ScenarioEmpty()
    ensures Initialize(PluginInitializer(1, 2, 3, 4, 5), []) == []
    ensures Validate<int, int, int, int, int>([]) == Pass
  {
  }
}
