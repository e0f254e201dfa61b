# loopback-setup-remote-methods-mixin: which remote methods get disabled

This project models the core of the LoopBack mixin `setup-remote-methods`. When the server has
started, the mixin decides which remote methods of a model to disable, and then disables them.

- The candidate list is `options.disable`. If `options.disableAllExcept` is set, it replaces
  that list with every method of the model's shared class minus the kept names. A static method
  is named `name` and an instance method `prototype.name`.
- Unless `options.ignoreACL` is exactly `true`, every name that an ALLOW entry of the model's
  ACL authorises is removed from the list.
- `disableRemoteMethodByName` is called once per remaining name, in list order.
- Collecting the authorised names (`getAuthorizedAclMethods`) rewrites, in place, every
  single-name `property` of an authorising ACL entry into a one-element array.

Modules:

- `Lists` (lists.dfy): lodash `_.difference` as `Difference`. It is an order-preserving filter
  that keeps the first list's duplicates and compares by exact equality. The module also has
  the `IsSubsequence` relation used to state that order is kept.
- `Host` (host.dfy): the parts of a LoopBack model the mixin touches.
  - `Model` is a class holding the method catalogue, the optional ACL array and a `disabled`
    log. The log records every `disableRemoteMethodByName` call.
  - `AclEntry` is a class whose `permission` and `property` fields can be rewritten. The ACL
    array may hold the same entry object more than once.
- `Utils` (utils.dfy): `getAuthorizedAclMethods` as the method `GetAuthorizedAclMethods`. Its
  loop is proved against the specification function `AuthorizedNames` and the per-entry rewrite
  `Normalized`. The lemmas about those two functions state what the source promises.
- `SetupRemoteMethods` (setup_remote_methods.dfy): the exported function as `Setup` (the guard)
  and the `started` handler as `OnServerStarted`. Both are proved against the specification
  function `MethodsToDisable`, and the lemmas state the mixin's rules about that function.
- `Scenarios` (scenarios.dfy): client methods that build a model, call `Setup` or
  `GetAuthorizedAclMethods`, and prove the exact outcome using only those methods' contracts.
  - `DisableIgnoringAcl`, `DisableWithAcl`, `AllExceptIgnoringAcl` and `AllExceptWithAcl`
    rebuild the integration tests of spec/setup-remote-methods.spec.js:13-133.
  - `AuthorizedOfSettings` rebuilds the unit test spec/unit/lib/utils.spec.js:14-20.
  - `AllExceptWithAclInstanceThree` uses the unit mock's catalogue, where `three` is an
    instance method (spec/unit/mocks.js:20). It shows what the code does where
    spec/unit/setup-remote-methods.spec.js:99-130 expects otherwise.
  - The unit mocks never set `settings`, so lib/utils.js:9 would throw a TypeError on them.
    These two scenarios hold only once the mock's ACL is moved to `settings.acls`, where :9
    reads it; that is what they do.
  - `WithoutSharedClass` has no test behind it. It exercises the guard at setup-remote-methods.js:7-9.

Modelling decisions:

- JavaScript values are modelled as small datatypes, so the source's truthiness tests are exact.
  - `Property`: a missing or other falsy value, a string (`""` is falsy) or an array (always truthy).
  - `Options`: `None` is a missing or falsy option.
  - `Flag` (for `ignoreACL`): the test `!== true` holds for every value except the boolean `true`.
- `permission` is a datatype (`Allow`, `Deny`, `Default`, `Other(text)`). The text of `Other`
  is any string other than the three constants, so every string has exactly one representation
  (`Host.PermissionOf`). The test `=== 'ALLOW'` holds only for `Allow`. A differently spelled
  string such as `"allow"` is `Other`.
- The `attached` and `started` events are taken to have fired: `Setup` calls the handler body directly.
- Where the unit tests disagree with the code, the model follows the code.
  - spec/unit/setup-remote-methods.spec.js:99-130 expects a bare ACL name `three` to spare the
    instance method `prototype.three`, both for `ignoreACL: false` and for `undefined`. The
    code's ACL subtraction at setup-remote-methods.js:28 is an exact-string difference.
    `BareAclNameDoesNotExemptInstanceMethod` and `Scenarios.AllExceptWithAclInstanceThree`
    state what the code does.
  - spec/unit/mocks.js:26-27 stores the ACL under `definition.settings`, but lib/utils.js:9
    reads `Model.settings.acls`. The model follows lib/utils.js.
- The scenarios use the ACL of spec/unit/mocks.js:28-45. The integration tests' own mock file
  is not part of this model. Their catalogue is reconstructed from their assertions: `three` is
  static there (spec/setup-remote-methods.spec.js:86, :110).

## Model

| member | source | states |
|---|---|---|
| SetupRemoteMethods.IgnoresAcl | setup-remote-methods.js:26 | the definition is the model of the `!== true` test: the ACL step is skipped only for the boolean `true`; `NonTrueIgnoreAclAppliesAcl` states its consequence |
| SetupRemoteMethods.QualifiedName | setup-remote-methods.js:21 | the definition is the model of the `map` callback: `name` for a static method, `prototype.name` otherwise; `QualifiedNames` and `CatalogueQualified` state its use |
| SetupRemoteMethods.CandidateNames | setup-remote-methods.js:13-24 | the definition is the model of the list before the ACL step; `DisableAllExceptCandidates`, `DisableOverriddenByDisableAllExcept` and `NothingConfiguredDisablesNothing` state its properties |
| SetupRemoteMethods.MethodsToDisable | setup-remote-methods.js:13-28 | the definition is the model of the list the handler disables; the lemmas below state its properties, and `OnServerStarted` and `Setup` are proved against it |
| Utils.IsTruthy | lib/utils.js:12 | the definition is the model of the truthiness of `acl.property`: a missing value and `""` are falsy, every array is truthy |
| Utils.Authorizes | lib/utils.js:12 | the definition is the model of the test `permission === 'ALLOW' && property`; `AuthorizesExactlyAllowString` states it on the raw string |
| Utils.PropertyList | lib/utils.js:13-16 | the definition is the model of the names `concat` adds: a single name counts as a one-element list |
| Utils.Contribution | lib/utils.js:12-16 | the definition is the model of what one entry adds to the result: its names if it authorises, nothing otherwise; `NonAuthorizingEntryIgnored` states the second case |
| Utils.AuthorizedNames | lib/utils.js:11-18 | the definition is the model of the result: the contributions in ACL order; `AuthorizedNamesMembership`, `AuthorizedNamesLength` and `AuthorizedNamesAppend` state its properties, and `GetAuthorizedAclMethods` is proved against it |
| Lists.Difference | setup-remote-methods.js:23 | `_.difference` never yields more elements than its first argument has |
| Lists.DifferenceMembership | setup-remote-methods.js:28 | a name is in the difference exactly when it is in the first list and not in the second |
| Lists.DifferenceIsSubsequence | setup-remote-methods.js:23 | the difference keeps the first list's order: it is a subsequence of it |
| Lists.DifferenceCount | setup-remote-methods.js:23 | every occurrence of a name not removed survives (duplicates kept), every occurrence of a removed name goes |
| Lists.DifferenceAppend | setup-remote-methods.js:28 | the difference distributes over concatenation: it is taken element by element |
| Lists.DifferenceOfDisjoint | setup-remote-methods.js:28 | removing names none of which occur leaves the list unchanged |
| Lists.SubsequenceReflexive | setup-remote-methods.js:26-29 | a list is a subsequence of itself (the case where the ACL step is skipped) |
| Host.PermissionOf | lib/utils.js:12 | every permission string has exactly one representation; it is `Allow` exactly for the string "ALLOW", and `Other` keeps any string that is none of the three constants |
| Host.Records | lib/utils.js:11 | the contents of the ACL entries, one record per array slot, read entry by entry |
| Host.AclEntry.constructor | lib/utils.js:9 | a new ACL entry holds exactly the given permission and property |
| Host.Model.constructor | setup-remote-methods.js:6 | a new model has the given catalogue and ACL array, and nothing has been disabled yet |
| Host.Model.DisableRemoteMethodByName | setup-remote-methods.js:33 | one call appends exactly that name to the disabled log and changes nothing else |
| Utils.Normalized | lib/utils.js:13-15 | the rewrite of one entry does not change the names the entry contributes |
| Utils.AuthorizesExactlyAllowString | lib/utils.js:12 | an entry passes the test exactly when its permission string is "ALLOW" and its property is truthy |
| Utils.Acls | lib/utils.js:9 | a missing or falsy `acls` setting is read as the empty list |
| Utils.VisitEntry | lib/utils.js:12-16 | the `forEach` callback: the entry is rewritten to its normalized form, and the names it adds are those of its contents before the rewrite |
| Utils.GetAuthorizedAclMethods | lib/utils.js:7-21 | the result is the authorised names of the ACL as it was on entry, and every entry ends in its normalized form, also when one object occurs several times |
| Utils.AuthorizedNamesStep | lib/utils.js:16 | scanning one more entry appends that entry's contribution at the end |
| Utils.AuthorizedNamesAppend | lib/utils.js:11-18 | the names of two concatenated ACL lists are the names of the first followed by those of the second |
| Utils.AuthorizedNamesMembership | lib/utils.js:11-18 | a name is authorised exactly when some ALLOW entry with a truthy property lists it |
| Utils.NonAuthorizingEntryIgnored | lib/utils.js:12 | a DENY entry, or an entry whose property is missing or falsy, contributes nothing wherever it stands |
| Utils.AuthorizedNamesLength | lib/utils.js:16 | duplicates are kept: the result is as long as all authorising entries' property lists together |
| Utils.NormalizedChangesOnlyProperty | lib/utils.js:13-15 | only `property` of an authorising entry changes, into an array of the same names; every other entry is left unchanged, and whether an entry authorises does not change |
| Utils.NormalizedIdempotent | lib/utils.js:13 | a normalized entry is not rewritten again |
| Utils.NormalizedKeepsNames | lib/utils.js:13-16 | scanning the rewritten ACL again yields the same names, so the in-place rewrite does not change the answer |
| SetupRemoteMethods.QualifiedNames | setup-remote-methods.js:20-22 | one name per catalogue method, in catalogue order: `name` for a static method, `prototype.name` for an instance method |
| SetupRemoteMethods.OnServerStarted | setup-remote-methods.js:13-37 | the handler appends `MethodsToDisable` of the catalogue, options and ACL to the disabled log; the ACL entries are normalized when the ACL step runs and untouched when `ignoreACL` is `true` |
| SetupRemoteMethods.DisableEach | setup-remote-methods.js:31-34 | one `disableRemoteMethodByName` call per name, in list order, and no call for an empty list |
| SetupRemoteMethods.Setup | setup-remote-methods.js:6-9 | without a model or a shared class nothing changes; otherwise the catalogue and the ACL array stay as they are and the handler's effect takes place |
| SetupRemoteMethods.NothingConfiguredDisablesNothing | setup-remote-methods.js:13 | with neither `disable` nor `disableAllExcept` nothing is disabled |
| SetupRemoteMethods.DisableListTakenAsIs | setup-remote-methods.js:15-17 | with only `disable` and `ignoreACL: true`, exactly the `disable` list is disabled, in its order |
| SetupRemoteMethods.DisableAllExceptCandidates | setup-remote-methods.js:19-24 | under `disableAllExcept` the candidates are a subsequence of the qualified catalogue; a name is a candidate exactly when it is qualified from some catalogue method and not kept; each such name appears as often as in the catalogue |
| SetupRemoteMethods.KeptNamesNeverDisabled | setup-remote-methods.js:23 | a name listed in `disableAllExcept` is never disabled |
| SetupRemoteMethods.DisableOverriddenByDisableAllExcept | setup-remote-methods.js:15-24 | when `disableAllExcept` is set, the value of `disable` has no influence on the result |
| SetupRemoteMethods.NonTrueIgnoreAclAppliesAcl | setup-remote-methods.js:26-29 | every `ignoreACL` value other than `true` gives the result of `false` and of `undefined`: a name is disabled exactly when it is a candidate and not authorised |
| SetupRemoteMethods.AclWithoutOverlapRemovesNothing | setup-remote-methods.js:26-29 | when the ACL authorises none of the candidates, the candidates are disabled unchanged, whatever `ignoreACL` is |
| SetupRemoteMethods.DisabledWithinCandidates | setup-remote-methods.js:23-28 | the disabled list is a subsequence of the candidates, and when the ACL step runs it holds no authorised name |
| SetupRemoteMethods.BareAclNameDoesNotExemptInstanceMethod | setup-remote-methods.js:28 | an authorised bare name does not spare `prototype.<name>`: only an exact match does |
| Scenarios.AclSettingsAuthorize | spec/unit/lib/utils.spec.js:14-20 | the ACL of the tests authorises `one`, `two`, `three`, in that order |
| Scenarios.CatalogueQualified | setup-remote-methods.js:20-22 | the qualified names of the test catalogue |
| Scenarios.KeptRemoved | spec/setup-remote-methods.spec.js:82-93 | the test catalogue minus `create`, `one`, `prototype.five` |
| Scenarios.KeptRemovedFrom | setup-remote-methods.js:23 | removing the kept names from the qualified test catalogue |
| Scenarios.KeptRemovedFromTail | setup-remote-methods.js:23 | removing the kept names from the last four qualified names |
| Scenarios.DisableMinusAcl | spec/setup-remote-methods.spec.js:42-49 | the `disable` list of the tests minus the authorised names keeps `create`, `findById`, `prototype.five` |
| Scenarios.KeptMinusAcl | setup-remote-methods.js:28 | the ACL removes a bare `three` from the candidates but keeps `prototype.three` |
| Scenarios.AllExceptWithAclStatic | spec/setup-remote-methods.spec.js:101-112 | with `three` static, the ACL step leaves `findById`, `four`, `prototype.six` |
| Scenarios.AllExceptWithAclInstance | setup-remote-methods.js:26-29 | with `three` an instance method, the ACL step leaves `findById`, `prototype.three`, `four`, `prototype.six` |
| Scenarios.NewModel | spec/unit/mocks.js:8-54 | a fresh model with the given catalogue, one new ACL entry per given record holding that record, and an empty disabled log |
| Scenarios.AuthorizedOfSettings | spec/unit/lib/utils.spec.js:14-20 | `getAuthorizedAclMethods` returns `one`, `two`, `three` and rewrites the entry `three` into `["three"]` |
| Scenarios.DisableIgnoringAcl | spec/setup-remote-methods.spec.js:27-34 | `disable` with `ignoreACL: true` disables the four listed names, even `one`, which the ACL authorises |
| Scenarios.DisableWithAcl | spec/setup-remote-methods.spec.js:42-64 | `disable` with `ignoreACL` false or undefined disables `create`, `findById`, `prototype.five` and spares `one` |
| Scenarios.AllExceptIgnoringAcl | spec/setup-remote-methods.spec.js:82-93 | `disableAllExcept` with `ignoreACL: true` disables `findById`, `two`, `three`, `four`, `prototype.six` |
| Scenarios.AllExceptWithAcl | spec/setup-remote-methods.spec.js:101-131 | `disableAllExcept` with `ignoreACL` false or undefined disables `findById`, `four`, `prototype.six` |
| Scenarios.AllExceptWithAclInstanceThree | setup-remote-methods.js:28 | with `three` an instance method, `prototype.three` is disabled although the ACL lists `three` |
| Scenarios.WithoutSharedClass | setup-remote-methods.js:7-9 | a model without a shared class gets no disable call, whatever the options |

## Left out

- The `attached` and `started` event wiring (setup-remote-methods.js:11-12) is host callback
  plumbing. `Setup` calls the handler body directly.
- The `debug` log line (setup-remote-methods.js:35-36) is output only.
- The lodash library itself. Only `_.difference` on arrays of strings is modelled, as `Lists.Difference`.
- `options` itself being undefined, or `Model.settings` being undefined, would make the source
  throw a TypeError. The model takes both to be present.
- `disable` and `disableAllExcept` are taken to be arrays of strings when set. Other truthy
  values, such as a string, are not modelled.
- An ACL `property` array holding non-strings is not modelled. Nor is a truthy non-string,
  non-array `property` such as a number.
- Inputs on which lib/utils.js throws a TypeError are not modelled: a truthy `acls` that is not
  an array (the `forEach` at :11), and a `null` or `undefined` element of the ACL array (the
  property access at :12). A `permission` that is not a string is not modelled either; the
  `Permission` datatype represents strings only.
- ACL fields the code never reads or writes (`accessType`, `principalType`, `principalId`) are
  not part of `Host.AclRecord`.
- Features absent from the modelled code are not modelled:
  - `add`, tested at spec/unit/setup-remote-methods.spec.js:132-138 and :161-215;
  - `addFromFile`, tested at spec/unit/setup-remote-methods.spec.js:140-158 and :217-266;
  - the bare-name/`prototype.` ACL equivalence, tested at spec/unit/setup-remote-methods.spec.js:99-130;
  - wildcard patterns and relation methods, which no shown test exercises.
- The test files are not modelled as such: spec/unit/mocks.js, spec/unit/employee-remotes.js
  and the jasmine specs. Their assertions are restated in `Scenarios`.
