# HAL resources and company ownership, in Dafny

This project models two pieces of OpenProject whose behaviour is pinned down by tests.

**The HAL resource transformer `halTransform`** (frontend, API v3). It takes a
JSON object in the Hypertext Application Language (HAL) format
(draft-kelly-json-hal, section 4.1.1 for `_links`, section 4.1.2 for `_embedded`).
A resource-shaped object is one that carries `_links` or `_embedded`. For such
an object, the transformer:

- removes both reserved keys;
- builds `$links`, one descriptor per relation, holding the href, the method and the title;
- builds `$embedded`, transforming every resource-shaped embedded value in turn;
- lifts every relation up as a property;
- sets `$halTransformed`.

Any other value is returned as it is, without the flag. Invoking a link does
the following:

- it issues `(METHOD, href)`, where the method is the declared one upper-cased, GET by default, and always GET for `.list()`;
- a `null` href settles with `{}` and issues nothing;
- the response is transformed when it is resource-shaped and written back into the parent's property of the same name.

`$plain()` gives an independent plain-JSON snapshot.

The pure parts are functions in `hal.dfy`:

- `ParseLink` and `RequestOf` build descriptors and choose the method;
- `HalTransform`, `TransformObject` and `ExpandEmbedded` do the recursive walk;
- `InvokeOutcome` says how an invocation settles;
- `ToPlain` builds the snapshot.

The request type and ASCII upper-casing are in `http.dfy`. The parts that
change things in place are the classes in `hal_resources.dfy`:

- `Resource` holds property, `$links` and `$embedded` maps. `Transform` rewrites it in place, and `Invoke` merges the answer back.
- `Backend` answers requests through an abstract transport function and logs each request it receives.

`hal_scenarios.dfy` restates the fixtures of the test suite and proves what the tests assert about them.

**Company ownership** (`Company#active_shares`, `Company#owning_users`). A
`Share` links a parent company to a child company and is active or not; its
columns follow `db/migrate/20230903121942_create_shares.rb:3-9`.

- `active_shares` are the active shares whose child is the company.
- `owning_users` is the company's own owner when it has no active parent. Otherwise it is the owning users of its active parents, so ownership climbs active shares to the topmost companies.

`companies.dfy` states this as a recursive function. It proves the function
equal to an independent reference definition: the owners of the roots reached
by a chain of active shares, in both directions. It then proves, for every
registry whose companies have distinct owners, each inclusion and exclusion
the model tests check.

The Ruby spec does not say what happens on a cycle of active shares. The model
assumes there is none. It states this through a ranking (`Ranked`) in which
every active share goes to a parent of strictly smaller rank. This is a
modelling assumption, not behaviour of the source. `OwningUsersRankIndependent`
proves that the result does not depend on which ranking is chosen.

## Model

| member | source | states |
|---|---|---|
| Hal.HalTransform | frontend/app/components/api/api-v3/hal/hal-resource.service.test.ts:46-59 | A value is flagged `$halTransformed` exactly when it is an object with `_links` or `_embedded`; any other value is returned unchanged |
| Hal.PlainValueUntouched | frontend/app/components/api/api-v3/hal/hal-resource.service.test.ts:46-59 | An object with neither reserved key comes back as it is and unflagged |
| Hal.TransformObject | frontend/app/components/api/api-v3/hal/hal-resource.service.test.ts:62-107 | `$links` has the relations of `_links`, each parsed from its entry; `$embedded` has the relations of `_embedded`, each transformed; the properties are the ordinary keys plus every relation; ordinary values are kept, a link-only relation exposes its link object and an embedded-only relation its transformed value |
| Hal.TransformFlagsAndFacets | frontend/app/components/api/api-v3/hal/hal-resource.service.test.ts:132-154 | A resource-shaped object is flagged; `$links` and `$embedded` have exactly the relation names of `_links` and `_embedded`; the reserved keys are gone from the properties unless a relation bears that name |
| Hal.ParseLink | frontend/app/components/api/api-v3/hal/hal-resource.service.test.ts:62-96 | A link entry's descriptor keeps the entry, takes its href and title when they are strings (otherwise `null`), and takes the declared method or GET when none is declared |
| Hal.NullHrefEntrySettlesEmpty | frontend/app/components/api/api-v3/hal/hal-resource.service.test.ts:157-160 | Any `_links` entry whose href is missing, `null` or not a string issues no request and settles with `{}`, whatever the transport |
| Hal.ParseLinks | frontend/app/components/api/api-v3/hal/hal-resource.service.test.ts:149-154 | One descriptor per relation of `_links`, with the same relation names, each keeping its raw link object |
| Hal.RequestOf | frontend/app/components/api/api-v3/hal/hal-resource.service.test.ts:218-251 | No request for a null href; otherwise a request to the href, with GET for `.list()` and the upper-cased declared method for a plain call |
| Hal.MethodDefaulting | frontend/app/components/api/api-v3/hal/hal-resource.service.test.ts:218-251 | A link without a method issues GET; one with a method issues it upper-cased; `.list()` issues GET whatever is declared |
| Http.Upper | frontend/app/components/api/api-v3/hal/hal-resource.service.test.ts:224-240 | Upper-casing keeps the length and upper-cases each ASCII letter in place |
| Http.DeclaredMethodsUpperCased | frontend/app/components/api/api-v3/hal/hal-resource.service.test.ts:224-240 | The declared `post`, `put`, `patch`, `delete` and `get` go out as POST, PUT, PATCH, DELETE and GET |
| Hal.InvokeOutcome | frontend/app/components/api/api-v3/hal/hal-resource.service.test.ts:157-216 | A null href settles with `{}`; otherwise a transport rejection rejects, and a body resolves to the body transformed |
| Hal.NullHrefShortCircuit | frontend/app/components/api/api-v3/hal/hal-resource.service.test.ts:157-160 | A null href issues no request and settles with `{}` whatever the transport would answer |
| Hal.ResponseTransformedIffResource | frontend/app/components/api/api-v3/hal/hal-resource.service.test.ts:194-216 | A response resolves flagged exactly when it is resource-shaped; a plain response resolves unchanged |
| Hal.ExpandEmbedded | frontend/app/components/api/api-v3/hal/hal-resource.service.test.ts:303-309 | `$embedded` has the relations of `_embedded`, each the transformation of its raw value, so resources are promoted and scalars are not |
| Hal.EveryLevelPromoted | frontend/app/components/api/api-v3/hal/hal-resource.service.test.ts:311-323 | At every depth, no resource-shaped embedded value is left untransformed |
| Hal.OrdinaryPropertiesKept | frontend/app/components/api/api-v3/hal/hal-resource.service.test.ts:325-328 | A key that is neither reserved nor a relation keeps its value as a plain property |
| Hal.MergeProperties | frontend/app/components/api/api-v3/hal/hal-resource.service.test.ts:360-363 | The properties are the ordinary keys, the link relations and the embedded relations; a key that is only ordinary, only a link or only embedded gets its own value |
| Hal.RelationsBecomeProperties | frontend/app/components/api/api-v3/hal/hal-resource.service.test.ts:360-364 | Every link relation and every embedded relation is a property of the transformed resource |
| Hal.LinkPropertyExposesHrefAndTitle | frontend/app/components/api/api-v3/hal/hal-resource.service.test.ts:366-370 | A link-only property exposes the href and the title of its descriptor |
| Hal.ToPlain | frontend/app/components/api/api-v3/hal/hal-resource.service.test.ts:109-113 | `$plain()` is an object whose keys are the properties plus `_links` and `_embedded`; `_links` holds each relation's raw link object, `_embedded` each embedded value in plain form, and every ordinary property is kept in plain form |
| Hal.SnapshotRetransforms | frontend/app/components/api/api-v3/hal/hal-resource.service.test.ts:115-118 | Transforming a `$plain()` snapshot again gives back the same `$links` and the same embedded relation names |
| HalResources.Resource.Transform | frontend/app/components/api/api-v3/hal/hal-resource.service.test.ts:332-358 | Transforming in place: a plain, resource-shaped object becomes exactly `TransformObject` of its fields and is flagged; any other object is left unchanged |
| HalResources.Resource.Invoke | frontend/app/components/api/api-v3/hal/hal-resource.service.test.ts:372-383 | The outcome is `InvokeOutcome`; the backend receives exactly the request `RequestOf` names, or none; a resolved answer to a real href replaces property `rel` and nothing else; a null href or a rejection changes no property |
| HalResources.Resource.Snapshot | frontend/app/components/api/api-v3/hal/hal-resource.service.test.ts:109-113 | `$plain()` returns `ToPlain` of the current resource and changes nothing |
| HalResources.Backend.Send | frontend/app/components/api/api-v3/hal/hal-resource.service.test.ts:172-182 | The backend answers with its transport and appends the request to its log |
| HalScenarios.HelloLinksScenario | frontend/app/components/api/api-v3/hal/hal-resource.service.test.ts:62-154 | The `Hello` document is flagged, its `$links` has exactly its seven relations, `_links` is dropped and `_type` is kept |
| HalScenarios.HelloRequestsScenario | frontend/app/components/api/api-v3/hal/hal-resource.service.test.ts:218-251 | Each `Hello` relation issues the method and href the tests expect; `nullHref` issues nothing |
| HalScenarios.SelfLinkScenario | frontend/app/components/api/api-v3/hal/hal-resource.service.test.ts:194-216 | Invoking `self` sends one GET to its href; the result is flagged exactly when the answer is resource-shaped and becomes the `self` property |
| HalScenarios.SnapshotIndependenceScenario | frontend/app/components/api/api-v3/hal/hal-resource.service.test.ts:120-128 | Editing a link's href in the snapshot leaves the live `$links` href as it was |
| HalScenarios.NestedEmbeddedScenario | frontend/app/components/api/api-v3/hal/hal-resource.service.test.ts:256-328 | The three nested embedded resources are all transformed and keep their own `property`; the scalar embedded `property` is not transformed; `_embedded` is dropped |
| HalScenarios.PropertyLinksScenario | frontend/app/components/api/api-v3/hal/hal-resource.service.test.ts:332-364 | `property`, `embeddedProperty` and `action` are all properties; `property` carries its link object |
| HalScenarios.PropertyMergeBackScenario | frontend/app/components/api/api-v3/hal/hal-resource.service.test.ts:366-383 | `property` shows its href and title; invoking its link sends one GET to that href and the plain answer becomes the property |
| Companies.ActiveShares | spec/models/company_spec.rb:35-44 | Exactly the shares whose child is the company and that are active |
| Companies.ActiveSharesScenario | spec/models/company_spec.rb:35-44 | The active share is among the company's active shares; the inactive share to the same company is not |
| Companies.OwningUsers | spec/models/company_spec.rb:47-52 | A company with no active parent is owned by its own owner alone |
| Companies.NoActiveParentScenario | spec/models/company_spec.rb:50-52 | Without shares the owning users are exactly the company's owner |
| Companies.OwningUsersAreRootOwners | spec/models/company_spec.rb:54-77 | A user owns the company exactly when it owns a root company reached from it by active shares |
| Companies.OwningUsersSound | spec/models/company_spec.rb:54-77 | Every owning user owns a root reached by an active chain |
| Companies.OwningUsersComplete | spec/models/company_spec.rb:54-77 | The owner of every root reached by an active chain is an owning user |
| Companies.OwningUsersRankIndependent | spec/models/company_spec.rb:47-48 | The owning users do not depend on the ranking chosen to witness acyclicity |
| Companies.RootParentContributes | spec/models/company_spec.rb:63-71 | A direct active parent without an active parent contributes its owner |
| Companies.ChainRootContributes | spec/models/company_spec.rb:65-72 | Along company, owned parent, grandparent, the root grandparent's owner is an owning user |
| Companies.NonRootOwnerExcluded | spec/models/company_spec.rb:74-75 | With distinct owners, the owner of any company with an active parent, the company itself or an intermediate one, is not an owning user |
| Companies.InactiveParentExcluded | spec/models/company_spec.rb:68-76 | With distinct owners, the owner of another company that is the parent of no active share is not an owning user |
| Companies.ActiveParentsScenario | spec/models/company_spec.rb:54-77 | In the test's registry the parent's and grandparent's owners own the company; its own, the owned parent's and the inactive parent's owners do not |

## Left out

- HTTP, `$httpBackend`, promises and `flush`: the transport is an abstract function from a request to a body or a rejection, and a promise is its settled `Outcome`. Timing, concurrency and the order in which promises settle are not modelled.
- Angular module wiring, dependency injection and the Restangular `restangularized` marker: these are framework concerns with no rule of their own.
- Key order: maps are unordered here, so the order of `$links` keys and properties is not modelled. The tests compare key sets only.
- A relation in both `_links` and `_embedded`: `MergeProperties` needs some value for it and takes the embedded one. No contract promises either choice, since the tests only check that the property exists.
- The `$plain()` deep-equality round trip is a skipped test, so it is not promised. `Hal.SnapshotRetransforms` proves the part about links and embedded relation names.
- `$links` entries are descriptors, not callables. `Resource.Invoke` plays the role of calling one, and the `list` flag plays the role of `.list()`. The `templated` attribute of HAL links is not modelled.
- Nested transformed resources are values inside the parent. Aliasing between `$embedded.x` and the property `x` of the same live object is not captured.
- `_embedded` arrays of resources are not modelled; only object-valued embedded relations are promoted.
- `HalResources.Resource.Transform`: an already transformed object is left unchanged; the tests never transform one twice.
- A resolved null-href invocation does not write `{}` back into the property. The tests only check the value it settles with.
- `expect(element).to.eq(element)` at hal-resource.service.test.ts:54 compares a value with itself. Only the flag check at lines 57-59 constrains the transformer; `Hal.PlainValueUntouched` states the stronger "returned as it is".
- HalScenarios.SnapshotIndependenceScenario: independence holds by value semantics. JSON values here are immutable, so editing the snapshot builds a new value. The deep copy that `$plain()` makes of the link objects, which `$links` would otherwise share, is not modelled.
- Http.Upper: only ASCII letters are upper-cased. The real upper-casing happens in the HTTP layer, which is not part of this model; every method the API declares is ASCII.
- JSON numbers are integers (`JNum(n: int)`), so fractional numbers are not modelled. No test value is a number.
- Hal.IsResourceShaped: the presence of the key `_links` or `_embedded` decides, whatever its value. `{_links: null}` is therefore transformed, with empty `$links`. No test uses such a value.
- Company ownership: acyclicity of the active shares is a modelling assumption (`Ranked`); the source says nothing about cycles.
- Database persistence, FactoryBot fixtures and `pluck(:firstname)`: companies, users and shares are in-memory values. Users are identified by a number rather than a first name, and owning users are a set rather than a plucked list.
- The `active` column's default of true is not modelled, because every share in the tests states `active` explicitly.
- `lib/api/v3/companies/company_representer.rb` is not part of this model: it is a declarative wrapper over serialization libraries.
