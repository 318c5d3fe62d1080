# Webhook dispatch, API callback wrapping, app installs and org webhook state

This project is a Dafny model of four pieces of the project-health dashboard's server.

- **Webhook registry and dispatcher** (`WebhooksController`, module `Webhooks`).
  - The registry maps each webhook event type to a set of listeners.
  - A set is modelled as an insertion-ordered sequence without duplicates.
  - `addListener` accepts one tag or a list of tags. It adds the listener to each tag's set, or creates the set `{listener}`.
  - `removeListener` deletes the listener from every set and keeps the tags.
  - `handleWebhookEvent` calls the listeners of the event's tag one after another, in insertion order. It keeps the non-null responses. The first listener that throws aborts the dispatch, and its exception propagates.
- **API callback wrapper** (`wrapCallback`, `get`, `post`; module `ApiRouter`).
  - A request whose headers are already sent gets no writes.
  - A route with `requireBody` gets no writes when the request body is falsy.
  - Otherwise the callback runs and its envelope is written:
    - an error envelope: the status, then the bare `{code, message}`;
    - a data envelope: each cookie in key order, then the status and the data;
    - a thrown error: status 500 with `{error: {code: 'uncaught-exception', message}}`.
  - The Express response is modelled as the sequence of writes made on it.
  - `get` always registers the options `{}`. `post` registers the given options, or `{}`.
- **App install handler** (module `AppInstall`).
  - A `created` hook with no `repositories` is not handled, and no call is made.
  - Otherwise the handler issues one network-only remote query. It holds one sub-query per repository, aliased `repoId_<index>`. Then it records the installation and adds the returned repositories. The query text is not parsed in the model, so an empty `repositories` list also issues a query (see "## Left out").
  - A `deleted` hook deletes the installation by account login.
  - Any other action is answered "Unexpected installation action: <action>".
  - How the remote query and each app-model call settle are inputs. A rejection stops the handler and propagates its error. The calls made to the query client and to the app model are returned as a log, in order.
- **Org webhook-state route** (`POST /orgs.json`, module `Settings`).
  - A request with no login gets 400.
  - A login missing `admin:org_hook` or `read:org` gets 400 "Missing required scope.".
  - Otherwise the route queries the viewer's organisations.
  - For each organisation the viewer administers, it fetches `orgs/<login>/hooks`. `hookEnabled` is set when some hook's `config.url` is the dashboard's webhook URL.
  - It answers with the non-null organisations in order. Any failure gives 500 "An unhandled error occured." (spelled as in the source).
  - Replies of the code host's API are inputs. The calls made are returned as a log.

Modules `Wrappers` (an `Option` type) and `Decimal` (the decimal text of an index, as a template literal renders it) support the four.

The wrapper's missing-body path does not do what its comment says. The comment at `src/server/apis/api-router/abstract-api-router.ts:63` says the wrapper can respond quickly. Lines 65-66 build an error with code `no-body` through the response helper. That error is discarded, and line 67 returns without writing anything. The model follows the code: `Written` is empty on that path (`OneResponsePerRequest`).

## Model

| member | source | states |
|---|---|---|
| Decimal.DigitChar | src/server/controllers/webhook-events/github-app-install.ts:61 | the character of a digit d is '0'..'9' and has value d |
| Decimal.NatToString | src/server/controllers/webhook-events/github-app-install.ts:61 | the text of an index is non-empty, all digits, and one digit long exactly when the index is below 10 |
| Decimal.NatToStringInjective | src/server/controllers/webhook-events/github-app-install.ts:61 | two indexes with the same text are equal |
| Webhooks.SetAdd | src/server/controllers/github-app-webhooks.ts:30 | after `Set.add` the listener is in the set, and adding a present listener changes nothing |
| Webhooks.SetAddKeepsNoDuplicates | src/server/controllers/github-app-webhooks.ts:30 | `Set.add` keeps a set free of duplicates |
| Webhooks.NoDuplicatesTail | src/server/controllers/github-app-webhooks.ts:42 | proof helper for `SetDeleteKeepsNoDuplicates`: the rest of a duplicate-free set is duplicate-free and does not hold its first member |
| Webhooks.SetDelete | src/server/controllers/github-app-webhooks.ts:42 | after `Set.delete` a listener is in the set exactly when it was and is not the deleted one; deleting an absent listener changes nothing |
| Webhooks.SetDeleteKeepsNoDuplicates | src/server/controllers/github-app-webhooks.ts:42 | `Set.delete` keeps a set free of duplicates |
| Webhooks.SetDeleteAt | src/server/controllers/github-app-webhooks.ts:42 | deleting the member at position i keeps every other member in its order |
| Webhooks.SetDeleteOnly | src/server/controllers/github-app-webhooks.ts:42 | deleting a member that occurs once removes exactly that position |
| Webhooks.SubscribedTo | src/server/controllers/github-app-webhooks.ts:29-33 | one loop step adds the listener to tag e's set, or creates the set for it, and leaves every other tag alone |
| Webhooks.Subscribed | src/server/controllers/github-app-webhooks.ts:28-34 | defines the registry after the loop of `addListener`: one `SubscribedTo` step per tag, in list order; its meaning is stated by `SubscribedAt` |
| Webhooks.SubscribedAt | src/server/controllers/github-app-webhooks.ts:21-35 | after `addListener(tags, l)` a tag has an entry exactly when it had one or is in `tags`; a listed tag's set gains l, an unlisted one is unchanged |
| Webhooks.InInitOrLast | src/server/controllers/github-app-webhooks.ts:28 | proof helper for `SubscribedAt`, a general fact about lists: a tag is in the list exactly when it is in its front or is its last element |
| Webhooks.SubscribedWellFormed | src/server/controllers/github-app-webhooks.ts:21-35 | `addListener` keeps every set free of duplicates |
| Webhooks.Unsubscribed | src/server/controllers/github-app-webhooks.ts:40-44 | `removeListener` keeps every tag, and the listener is in no set afterwards |
| Webhooks.UnsubscribedWellFormed | src/server/controllers/github-app-webhooks.ts:40-44 | `removeListener` keeps every set free of duplicates |
| Webhooks.SingleTagIsOneElementList | src/server/controllers/github-app-webhooks.ts:24-26 | a single tag subscribes exactly as the list holding it |
| Webhooks.AlreadyRegisteredUnchanged | src/server/controllers/github-app-webhooks.ts:29-30 | re-subscribing a listener leaves the set of a tag it already has, order included |
| Webhooks.SubscribeIdempotent | src/server/controllers/github-app-webhooks.ts:21-35 | subscribing twice to the same tags is subscribing once |
| Webhooks.RemoveAbsentIsNoOp | src/server/controllers/github-app-webhooks.ts:40-44 | removing a listener that is in no set leaves the registry as it was |
| Webhooks.AddThenRemove | src/server/controllers/github-app-webhooks.ts:21-44 | subscribing a new listener, then removing it, restores every old set; tags the subscription created stay, with empty sets |
| Webhooks.SetDeleteAppended | src/server/controllers/github-app-webhooks.ts:30-42 | deleting a listener that was just appended gives the set back |
| Webhooks.Responses | src/server/controllers/github-app-webhooks.ts:55-61 | the kept responses are at most one per listener, and each is the non-null response of one of them |
| Webhooks.ResponsesAppend | src/server/controllers/github-app-webhooks.ts:57-60 | one more listener adds its response at the end, when it has one |
| Webhooks.WebhooksController.constructor | src/server/controllers/github-app-webhooks.ts:15-16 | a new controller has an empty registry |
| Webhooks.WebhooksController.AddListener | src/server/controllers/github-app-webhooks.ts:21-35 | the loop leaves the registry that results from subscribing to each tag in turn, with every set still free of duplicates |
| Webhooks.WebhooksController.RemoveListener | src/server/controllers/github-app-webhooks.ts:40-44 | the loop deletes the listener from every set and keeps the tags and the sets duplicate-free |
| Webhooks.WebhooksController.HandleWebhookEvent | src/server/controllers/github-app-webhooks.ts:49-63 | an unknown tag gives `[]` and calls nobody; the listeners are called in insertion order, each once; a throw stops the dispatch and propagates the thrown error; a returned result means every listener was called and none threw, and it holds their non-null responses in order |
| ApiRouter.Truthy | src/server/apis/api-router/abstract-api-router.ts:64 | defines JavaScript truthiness of `request.body`; `BodyCheckCases` states which bodies are falsy |
| ApiRouter.BodyCheckFails | src/server/apis/api-router/abstract-api-router.ts:64 | defines the guard `opts.requireBody && !request.body`; `BodyCheckCases` states when it fires |
| ApiRouter.Written | src/server/apis/api-router/abstract-api-router.ts:55-100 | defines the writes of one request: none after either guard, else the catch-all, the error envelope or the data envelope; stated by `OneResponsePerRequest` and the three `*Writes` lemmas, and met by `WrapCallback` |
| ApiRouter.CookieWrites | src/server/apis/api-router/abstract-api-router.ts:77-86 | one `response.cookie` per cookie entry, in key order, with its value and options |
| ApiRouter.OneResponsePerRequest | src/server/apis/api-router/abstract-api-router.ts:55-100 | nothing is written exactly when headers were already sent or a required body is missing; otherwise one status then one body end the writes, with only cookies before them |
| ApiRouter.NoOptsNeverChecksBody | src/server/apis/api-router/abstract-api-router.ts:47-53 | a route registered with `{}` never takes the missing-body path |
| ApiRouter.BodyCheckCases | src/server/apis/api-router/abstract-api-router.ts:64 | the body check fires exactly when `requireBody` is true and the body is absent, null, false, 0 or "" |
| ApiRouter.ErrorEnvelopeWrites | src/server/apis/api-router/abstract-api-router.ts:73-74 | an error envelope writes its status and then the bare `{code, message}`, and sets no cookie |
| ApiRouter.DataEnvelopeWrites | src/server/apis/api-router/abstract-api-router.ts:76-88 | a data envelope sets each cookie once, in key order and under distinct names, then writes its status and data |
| ApiRouter.UncaughtExceptionWrites | src/server/apis/api-router/abstract-api-router.ts:91-97 | a throwing callback gives status 500 and `{error: {code: 'uncaught-exception', message: prefix + the error's message}}` |
| ApiRouter.Response.Cookie | src/server/apis/api-router/abstract-api-router.ts:84 | setting a cookie appends that write and sends no headers |
| ApiRouter.Response.Status | src/server/apis/api-router/abstract-api-router.ts:74 | setting the status appends that write and sends no headers |
| ApiRouter.Response.SendBody | src/server/apis/api-router/abstract-api-router.ts:74 | `json` appends the body write and sends the headers |
| ApiRouter.Callback.Execute | src/server/apis/api-router/abstract-api-router.ts:70-71 | running the callback gives its outcome and counts one invocation |
| ApiRouter.WrapCallback | src/server/apis/api-router/abstract-api-router.ts:55-100 | the writes appended to the response are exactly those `Written` gives for the request; headers are sent exactly when something was written; the callback is invoked once when neither guard fires, otherwise never |
| ApiRouter.CookieWritesSnoc | src/server/apis/api-router/abstract-api-router.ts:78-85 | one more cookie entry appends one more cookie write |
| ApiRouter.ApiRouter.constructor | src/server/apis/api-router/abstract-api-router.ts:43-45 | a new router has no routes |
| ApiRouter.ApiRouter.Get | src/server/apis/api-router/abstract-api-router.ts:47-49 | `get` registers the route with the options `{}` |
| ApiRouter.ApiRouter.Post | src/server/apis/api-router/abstract-api-router.ts:51-53 | `post` registers the route with the given options, `{}` when none |
| AppInstall.Alias | src/server/controllers/webhook-events/github-app-install.ts:61 | defines the alias `repoId_<index>`; `AliasInjective` states that it tells positions apart |
| AppInstall.AliasAll | src/server/controllers/webhook-events/github-app-install.ts:58-63 | defines the aliased sub-queries, one per query at its index; stated by `AliasesDistinct` |
| AppInstall.RepoValues | src/server/controllers/webhook-events/github-app-install.ts:79-82 | defines the repositories of the query's data, in key order; what `addRepos` receives is stated by `HandleNewAppInstall` |
| AppInstall.RecordOf | src/server/controllers/webhook-events/github-app-install.ts:84-92 | defines the installation record copied field by field from the hook; stated by `HandleNewAppInstall` |
| AppInstall.AliasInjective | src/server/controllers/webhook-events/github-app-install.ts:60-62 | two positions with the same alias are the same position |
| AppInstall.AliasesDistinct | src/server/controllers/webhook-events/github-app-install.ts:56-63 | the aliased query has one sub-query per repository query, in order, under pairwise distinct aliases |
| AppInstall.BuildQueries | src/server/controllers/webhook-events/github-app-install.ts:50-54 | one repository lookup per repository, in order, for the installation's owner and the repository's name |
| AppInstall.HandleNewAppInstall | src/server/controllers/webhook-events/github-app-install.ts:28-101 | no `repositories` means not handled and no call; else one network-only query with the aliased lookups; a failed query propagates its error and nothing is recorded; otherwise the installation record copied from the hook, then the returned repositories for the account; a rejected `addInstallation` propagates before `addRepos` is called, a rejected `addRepos` propagates, and otherwise the result is handled; the parse of the query text is taken to succeed, even for an empty list |
| AppInstall.HandleDeleteApp | src/server/controllers/webhook-events/github-app-install.ts:103-111 | one delete by the account's login; a rejected delete propagates its error, otherwise the result is handled |
| AppInstall.HandleGithubAppInstall | src/server/controllers/webhook-events/github-app-install.ts:113-125 | `created` and `deleted` go to their handlers, whose results and errors it passes on; any other action makes no call and is not handled, with the action in the message |
| AppInstall.CallsByAction | src/server/controllers/webhook-events/github-app-install.ts:113-125 | only `deleted` deletes, only `created` queries or adds, the query is made at most once, and the installation is recorded before its repositories |
| Settings.IndexOf | src/server/apis/settings.ts:20 | `indexOf` gives -1 exactly when the scope is absent, otherwise its first position |
| Settings.HasRequiredScopes | src/server/apis/settings.ts:20 | defines the scope gate as written, with two `indexOf` tests; `RequiredScopes` states its meaning |
| Settings.RequiredScopes | src/server/apis/settings.ts:19-23 | the scope gate passes exactly when both `admin:org_hook` and `read:org` are granted |
| Settings.HookEnabled | src/server/apis/settings.ts:50-54 | the loop sets `hookEnabled` exactly when some hook's URL is the webhook URL |
| Settings.OrgState | src/server/apis/settings.ts:46-62 | defines one organisation's entry from its hooks reply; `HookEnabledMeaning` states when `hookEnabled` holds |
| Settings.HookEnabledMeaning | src/server/apis/settings.ts:46-55 | an organisation's `hookEnabled` holds exactly when the viewer administers it and one of its hooks points at the webhook URL |
| Settings.HookCalls | src/server/apis/settings.ts:47-48 | no more hooks requests than nodes; each is for the hooks path of a non-null node the viewer administers, with the login token; `PrefixStep` states that each node adds its own request and nothing else |
| Settings.Settled | src/server/apis/settings.ts:41-63 | defines what each node of `orgsData.map` settles with: nothing for a null node, its entry otherwise; met by `MapOrgs`, and `OrgsKeepOrder` states what survives |
| Settings.Present | src/server/apis/settings.ts:65-69 | the pushed entries are at most one per settled value, and are exactly its non-null values |
| Settings.PresentAppend | src/server/apis/settings.ts:65-69 | dropping nulls from two joined lists is dropping them from each, in order |
| Settings.PresentSnoc | src/server/apis/settings.ts:65-69 | one more settled value adds it at the end when it is non-null |
| Settings.StatesSnoc | src/server/apis/settings.ts:41-63 | one more organisation adds its entry at the end |
| Settings.OrgsKeepOrder | src/server/apis/settings.ts:41-69 | the answer holds the entries of the non-null organisations, in their order |
| Settings.CollectOrgs | src/server/apis/settings.ts:65-69 | the `forEach` collects the non-null settled values in order |
| Settings.PrefixStep | src/server/apis/settings.ts:41-63 | each node adds only its own request, failure and settled value to those of the nodes before it |
| Settings.MapOrgs | src/server/apis/settings.ts:41-65 | each node settles with its entry (none for a null node); a hooks request is made for every administered organisation, in order; the whole fails exactly when one of those requests fails |
| Settings.OrgsRoute | src/server/apis/settings.ts:12-78 | no login gives 400; missing scopes give 400 "Missing required scope." with no call; else the viewer query is made; its failure gives 500; null nodes give `{orgs: []}`; otherwise every administered organisation's hooks are requested, any failure gives 500, and the answer lists each non-null organisation's entry in order |

## Left out

- The HTTP framework (Express routers, request and response objects) is reduced to the writes made on the response and the routes registered.
- The `executeCallback` of the concrete routers is not part of this model. The callback is one settled outcome. Anything the callback writes to the response itself is not modelled.
- The response helper module is not part of this model. On the missing-body path its result is discarded, so nothing of it reaches the response.
- Errors thrown by the response's own methods, which the source's catch would also turn into a 500, are not modelled.
- ApiRouter.APIResponse: the source tells the envelopes apart with `'error' in apiResponse`. The model tags them instead, so a data envelope that also carries an `error` field is not modelled.
- ApiRouter.Truthy: JavaScript numbers are modelled as integers, so `NaN` and non-integer bodies are not modelled.
- ApiRouter.CookiesObject: keys are taken in `Object.keys` order as given. The rule that puts integer-like keys first is not modelled.
- AppInstall.HandleNewAppInstall: the `gql` parse at `src/server/controllers/webhook-events/github-app-install.ts:69` is treated as total. With `repositories: []` the source builds the empty selection `query repoId { }`, which fails to parse, so it throws before any call. The model instead issues a query with no sub-queries and goes on to record the installation. The parser library is not part of this model.
- The exact GraphQL text (the fragment, the `gql` tag, newline joining) is not modelled. The query is its list of aliased repository lookups plus the query id and fetch policy.
- The code host client, the app model, the user model and the secrets store are not part of this model. Their replies are inputs, and the calls made to them are a log.
- The token passed to the remote install query comes from the secrets store and is not modelled.
- Settings.OrgsRoute: `WEBHOOK_URL` comes from the webhook module, which is not part of this model, so it is a parameter.
- Settings.OrgsRoute: `console.error` and the pagination of organisations (first 20) are not modelled.
- Settings.MapOrgs: the concurrency of `Promise.all` is not modelled. Only the order of results is kept, and every hooks request is issued even when one fails.
- Settings.OrgsRoute: a thrown exception other than a rejected API call, such as a malformed reply shape, is not modelled.
- Webhooks.WebhooksController.HandleWebhookEvent: listeners are modelled by identity, and how each one settles is an input. Changes to the registry while a dispatch is awaiting are not modelled. The module-level singleton `webhooksController` is not modelled.
- Webhooks.WebhooksController.RemoveListener: the source visits the sets in the map's insertion order. The model visits them in an arbitrary order, which gives the same registry because each step touches one set.
- `src/types/api.ts` and the test fixture `src/test/utils/newFakeUserRecord.ts` only declare types and test data, so they are not modelled.
