# Admission plugin initialization and validation

A Dafny model of the admission-plugin wiring of the OpenShift API server
(`pkg/cmd/server/admission/init.go`). A `PluginInitializer` holds five shared
collaborators: the OpenShift client, the project cache, the authorizer, the
authorization rule resolver and the REST client configuration. `Initialize`
walks an ordered list of admission plugins and, for each plugin, probes the
five initialization interfaces (`WantsOpenshiftClient`, `WantsProjectCache`,
`WantsAuthorizer`, `WantsAuthorizationRuleResolver`, `WantsClientConfig`),
calling the setter of every interface the plugin implements with the
matching collaborator. `Validate` walks the same list and calls `Validate()`
on every plugin that implements `Validator`, returning the first non-nil
error at once.

Files:

- `wrappers.dfy` — `Option` and `Outcome` (`Pass` is Go's nil error).
- `plugins.dfy` — the capability catalog and the `Plugin` record. A
  capability slot is `None` when the plugin does not implement that
  interface and `Some(v)` when it does, `v` being the collaborator its
  setter last stored. `validator` is `None` for a plugin that is not a
  `Validator` and otherwise the result its `Validate()` returns.
- `initialize.dfy` — `PluginInitializer`, one capability check (`Inject`),
  the five checks of one plugin (`InitializePlugin`), the list pass
  (`Initialize`, and `InitializeChain`, the loop), and their laws.
- `validate.dfy` — `Validate` and the loop `ValidateChain`, which also
  reports which plugins' `Validate()` it called.
- `scenarios.dfy` — concrete chains: a cache-only plugin next to a plugin
  implementing nothing, a chain whose second validator fails, a chain whose
  two validators both fail, and the empty chain.

The collaborator types are type parameters (`C`, `P`, `A`, `R`, `G`): the
model never looks inside them. The Go code mutates each plugin through its
pointer setters; the model returns the list of plugins as the setters leave
them. A setter is modelled as overwriting its slot.

## Model

| member | source | states |
|---|---|---|
| Initializer.Inject | pkg/cmd/server/admission/init.go:25-39 | one capability check: an implementing plugin's slot then holds exactly the initializer's collaborator for it; the other four slots, the validator and the set of implemented interfaces are untouched; a plugin that does not implement the capability comes back unchanged |
| Initializer.InjectAll | pkg/cmd/server/admission/init.go:25-39 | performing the checks of any capability sequence sets exactly the implemented capabilities named in it to the initializer's collaborators and leaves every other slot alone |
| Initializer.InitializePlugin | pkg/cmd/server/admission/init.go:24-40 | after the five checks each implemented capability holds the initializer's field for it, each unimplemented slot stays empty, the validator is kept, and a plugin implementing none of the five is returned unchanged |
| Initializer.Initialize | pkg/cmd/server/admission/init.go:23-41 | the pass keeps the list's length and gives plugin k exactly the injections its own interfaces call for |
| Initializer.InitializeChain | pkg/cmd/server/admission/init.go:24-40 | the in-order loop over the list computes the same list as `Initialize` |
| Initializer.InjectedForCompose | pkg/cmd/server/admission/init.go:25-39 | injecting one set of capabilities and then another is injecting their union |
| Initializer.InjectedForUnique | pkg/cmd/server/admission/init.go:25-39 | the outcome of injecting a set of capabilities into a plugin is determined: no slot is left to chance |
| Initializer.CheckOrderIrrelevant | pkg/cmd/server/admission/init.go:25-39 | the five checks may run in any order, even with repeats, as long as every capability is checked: the plugin ends up as the source's catalog order leaves it |
| Initializer.InjectCommutes | pkg/cmd/server/admission/init.go:25-39 | two capability checks commute, since each touches only its own slot |
| Initializer.InjectIdempotent | pkg/cmd/server/admission/init.go:25-39 | repeating one capability check changes nothing more |
| Initializer.InitializePluginIdempotent | pkg/cmd/server/admission/init.go:24-40 | initializing a plugin twice with the same initializer equals initializing it once |
| Initializer.InitializeIdempotent | pkg/cmd/server/admission/init.go:23-41 | running `Initialize` twice with the same initializer gives the list one run gives |
| Initializer.InitializeAppend | pkg/cmd/server/admission/init.go:24-40 | initializing a concatenation is concatenating the initialized parts: plugins are never added, dropped or reordered, and each is initialized independently of the others |
| Initializer.InitializeWantsNothing | pkg/cmd/server/admission/init.go:24-40 | a list whose plugins implement none of the capabilities, including the empty list, is returned unchanged |
| Plugins.CatalogIsComplete | pkg/cmd/server/admission/init.go:25-39 | the catalog lists each of the five capabilities once, so `Injected` covers all of them |
| Initializer.InitializePluginFollowsCatalog | pkg/cmd/server/admission/init.go:25-39 | the five checks of one plugin are exactly the catalog's checks in catalog order, so every capability is probed |
| Validation.Validate | pkg/cmd/server/admission/init.go:45-55 | the result is nil exactly when no `Validator` plugin fails (the empty list and lists without validators included), and otherwise it is the error of the first failing plugin in list order |
| Validation.ValidateChain | pkg/cmd/server/admission/init.go:46-54 | the loop returns what `Validate` returns; every reported call names a plugin of the list; `Validate()` is called on plugin k exactly when k is a `Validator` and no earlier plugin failed, the calls happen in list order, and on failure the last call is the first failing plugin |
| Validation.ValidateAppend | pkg/cmd/server/admission/init.go:46-54 | fail-fast composition: validating `a + b` returns `a`'s error if `a` fails and otherwise `b`'s outcome |
| Validation.ValidateReadsOnlyValidators | pkg/cmd/server/admission/init.go:46-54 | the outcome depends only on the plugins' validators, not on the collaborators they hold |
| Scenarios.ScenarioCacheOnly | pkg/cmd/server/admission/init.go:28-30 | a plugin implementing only `WantsProjectCache` receives the initializer's project cache; a plugin implementing nothing is unchanged |
| Scenarios.ScenarioSecondFails | pkg/cmd/server/admission/init.go:47-51 | with a passing then a failing validator, the first is called and the second one's error is returned |
| Scenarios.ScenarioBothFail | pkg/cmd/server/admission/init.go:47-51 | with two failing validators only the first error is returned and the second plugin's `Validate()` is not called |
| Scenarios.ScenarioEmpty | pkg/cmd/server/admission/init.go:23-55 | the empty list is unchanged by `Initialize` and passes `Validate` |

## Left out

- The collaborator types (`client.Interface`, `*cache.ProjectCache`, `authorizer.Authorizer`, `rulevalidation.AuthorizationRuleResolver`, `restclient.Config`): their definitions are not part of this model, so they are opaque type parameters.
- The rest of `admission.Interface`, such as admitting requests: it is defined outside this package and not modelled.
- Go's runtime type assertion: whether a plugin implements an interface is a fixed property of the plugin (its slot is `Some` or `None`), not reflection.
- What a real setter does beyond storing its collaborator, and what a real `Validate()` computes: those bodies live in the plugins. Each plugin's `Validate()` result is a fixed value, so the model does not capture a validator whose verdict depends on the collaborators injected into it.
- Pointer aliasing: the Go setters mutate shared plugin objects in place; the model returns new plugin values, so a plugin listed twice is two independent values here.
- `Validate` does not modify any plugin: in the model it is a pure function that returns only an outcome, so the property holds by construction and carries no separate contract.
