/** The decision logic of the settings route `POST /orgs.json`: a login and
    scope gate, then, for each organisation the viewer belongs to, whether
    the dashboard's webhook is installed on it. The calls to the code host's
    API are inputs (their replies) and a log (the calls made, in order). */
module Settings {
  import opened Wrappers

  /** The login details of the requesting user. */
  datatype LoginDetails = LoginDetails(scopes: seq<string>, token: string)

  /** An organisation node of the viewer query. */
  datatype Org = Org(login: string, name: string, viewerCanAdminister: bool)

  /** A webhook of an organisation, with its `config.url`. */
  datatype Hook = Hook(configUrl: string)

  /** `OrgWebHookState`, one entry of the route's answer. */
  datatype OrgWebHookState = OrgWebHookState(login: string, name: string, viewerCanAdminister: bool, hookEnabled: bool)

  /** How the viewer query settles: its `organizations.nodes`, which may be
      null and may hold null nodes, or the error it rejects with. */
  datatype OrgsReply = OrgsFail(error: string) | OrgsData(nodes: Option<seq<Option<Org>>>)

  /** How `github.get('orgs/<login>/hooks')` settles. */
  datatype HooksReply = HooksFail(error: string) | HooksData(hooks: seq<Hook>)

  /** A call made to the code host's API. */
  datatype GithubCall = OrgsQuery(token: string) | GetHooks(path: string, token: string)

  /** What the route sends: `sendStatus(code)`, `status(code).send(text)`,
      or `send(JSON.stringify({orgs}))`. */
  datatype RouteResponse = SendStatus(code: int) | StatusText(code: int, text: string) | SendOrgs(orgs: seq<OrgWebHookState>)

  const AdminOrgHook := "admin:org_hook"
  const ReadOrg := "read:org"
  const MissingScope := "Missing required scope."
  const UnhandledError := "An unhandled error occured."

  /** `Array.prototype.indexOf`: the first position of x, or -1. */
  function IndexOf(s: seq<string>, x: string): (r: int)
    ensures -1 <= r < |s|
    ensures r == -1 <==> x !in s
    ensures r >= 0 ==> s[r] == x && x !in s[..r]
  {
    if s == [] then -1
    else if s[0] == x then 0
    else
      var k := IndexOf(s[1..], x);
      if k == -1 then -1
      else
        assert s[..k + 1] == [s[0]] + s[1..][..k];
        k + 1
  }

  /** The scope gate, as the source writes it. */
  predicate HasRequiredScopes(scopes: seq<string>) {
    !(IndexOf(scopes, AdminOrgHook) == -1 || IndexOf(scopes, ReadOrg) == -1)
  }

  /** Both scopes are required: the gate passes exactly when both are granted. */
  lemma RequiredScopes(scopes: seq<string>)
    ensures HasRequiredScopes(scopes) <==> AdminOrgHook in scopes && ReadOrg in scopes
  {
  }

  /** Some hook of the organisation points at the dashboard's webhook URL. */
  predicate PointsAt(hooks: seq<Hook>, webhookUrl: string) {
    exists i :: 0 <= i < |hooks| && hooks[i].configUrl == webhookUrl
  }

  /** The `for (const hook of hooks)` loop that sets `hookEnabled`. */
  method HookEnabled(hooks: seq<Hook>, webhookUrl: string) returns (hookEnabled: bool)
    ensures hookEnabled <==> PointsAt(hooks, webhookUrl)
  {
    hookEnabled := false;
    for k := 0 to |hooks|
      invariant hookEnabled <==> exists i :: 0 <= i < k && hooks[i].configUrl == webhookUrl
    {
      if hooks[k].configUrl == webhookUrl {
        hookEnabled := true;
      }
    }
  }

  /** The entry for one organisation, given the reply for its hooks (read
      only when the viewer can administer it). */
  function OrgState(org: Org, reply: HooksReply, webhookUrl: string): OrgWebHookState {
    var hookEnabled := org.viewerCanAdminister && reply.HooksData? && PointsAt(reply.hooks, webhookUrl);
    OrgWebHookState(org.login, org.name, org.viewerCanAdminister, hookEnabled)
  }

  /** `hookEnabled` holds exactly when the viewer can administer the
      organisation and one of its hooks has the webhook URL. */
  lemma HookEnabledMeaning(org: Org, hooks: seq<Hook>, webhookUrl: string)
    ensures OrgState(org, HooksData(hooks), webhookUrl).hookEnabled <==>
      org.viewerCanAdminister && exists h :: h in hooks && h.configUrl == webhookUrl
  {
    if org.viewerCanAdminister && exists h :: h in hooks && h.configUrl == webhookUrl {
      var h :| h in hooks && h.configUrl == webhookUrl;
      var i :| 0 <= i < |hooks| && hooks[i] == h;
    }
  }

  /** The path of the hooks request for an organisation. */
  function HooksPath(login: string): string {
    "orgs/" + login + "/hooks"
  }

  /** The hooks requests made for `nodes`: one per non-null organisation the
      viewer can administer, in order. */
  function HookCalls(nodes: seq<Option<Org>>, token: string): (r: seq<GithubCall>)
    ensures |r| <= |nodes|
    ensures forall c :: c in r ==>
      (exists i :: 0 <= i < |nodes| && nodes[i].Some? &&
         nodes[i].value.viewerCanAdminister && c == GetHooks(HooksPath(nodes[i].value.login), token))
  {
    if nodes == [] then []
    else
      var init := nodes[..|nodes| - 1];
      var last := nodes[|nodes| - 1];
      var r := HookCalls(init, token);
      assert forall i :: 0 <= i < |init| ==> init[i] == nodes[i];
      if last.Some? && last.value.viewerCanAdminister
      then r + [GetHooks(HooksPath(last.value.login), token)]
      else r
  }

  /** Some administered organisation's hooks request fails, so `Promise.all`
      rejects. */
  predicate AnyHooksFail(nodes: seq<Option<Org>>, hooksFor: string -> HooksReply) {
    exists i :: 0 <= i < |nodes| && nodes[i].Some? && nodes[i].value.viewerCanAdminister &&
      hooksFor(nodes[i].value.login).HooksFail?
  }

  /** What each element of `orgsData.map(...)` settles with: nothing for a
      null node, the organisation's entry otherwise. */
  function Settled(nodes: seq<Option<Org>>, hooksFor: string -> HooksReply, webhookUrl: string): seq<Option<OrgWebHookState>> {
    seq(|nodes|, i requires 0 <= i < |nodes| =>
      match nodes[i]
      case None => None
      case Some(org) => Some(OrgState(org, hooksFor(org.login), webhookUrl)))
  }

  /** The present values of `s`, in order: the `forEach` that pushes every
      truthy value. */
  function Present<T(!new)>(s: seq<Option<T>>): (r: seq<T>)
    ensures |r| <= |s|
    ensures forall x :: x in r <==> Some(x) in s
  {
    if s == [] then []
    else
      var init, last := s[..|s| - 1], s[|s| - 1];
      assert s == init + [last];
      Present(init) + if last.Some? then [last.value] else []
  }

  /** Dropping nulls distributes over concatenation: the survivors of a
      prefix come first, in their original order. */
  lemma {:induction false} PresentAppend<T(!new)>(s: seq<Option<T>>, t: seq<Option<T>>)
    ensures Present(s + t) == Present(s) + Present(t)
    decreases |t|
  {
    if t != [] {
      var tInit, tLast := t[..|t| - 1], t[|t| - 1];
      assert t == tInit + [tLast];
      assert (s + t)[..|s + t| - 1] == s + tInit;
      assert (s + t)[|s + t| - 1] == tLast;
      PresentAppend(s, tInit);
      var tail := if tLast.Some? then [tLast.value] else [];
      assert Present(s + t) == Present(s + tInit) + tail;
      assert Present(t) == Present(tInit) + tail;
    } else {
      assert s + t == s;
    }
  }

  /** The entry of each organisation in `orgs`, in order. */
  function States(orgs: seq<Org>, hooksFor: string -> HooksReply, webhookUrl: string): seq<OrgWebHookState> {
    seq(|orgs|, k requires 0 <= k < |orgs| => OrgState(orgs[k], hooksFor(orgs[k].login), webhookUrl))
  }

  lemma StatesSnoc(orgs: seq<Org>, org: Org, hooksFor: string -> HooksReply, webhookUrl: string)
    ensures States(orgs + [org], hooksFor, webhookUrl) ==
      States(orgs, hooksFor, webhookUrl) + [OrgState(org, hooksFor(org.login), webhookUrl)]
  {
    var r := States(orgs + [org], hooksFor, webhookUrl);
    assert forall k :: 0 <= k < |orgs| ==> r[k] == States(orgs, hooksFor, webhookUrl)[k];
  }

  /** Dropping nulls from a sequence ending in `x`. */
  lemma PresentSnoc<T(!new)>(s: seq<Option<T>>, x: Option<T>)
    ensures Present(s + [x]) == Present(s) + if x.Some? then [x.value] else []
  {
    assert (s + [x])[..|s + [x]| - 1] == s;
  }

  /** The entries of the answer are, in order, those of the non-null
      organisations, each mapped to its entry. */
  lemma {:induction false} OrgsKeepOrder(nodes: seq<Option<Org>>, hooksFor: string -> HooksReply, webhookUrl: string)
    ensures Present(Settled(nodes, hooksFor, webhookUrl)) == States(Present(nodes), hooksFor, webhookUrl)
  {
    if nodes != [] {
      var init, last := nodes[..|nodes| - 1], nodes[|nodes| - 1];
      OrgsKeepOrder(init, hooksFor, webhookUrl);
      var settled := Settled(nodes, hooksFor, webhookUrl);
      var settledInit := Settled(init, hooksFor, webhookUrl);
      var settledLast := settled[|settled| - 1];
      assert settled == settledInit + [settledLast];
      assert nodes == init + [last];
      PresentSnoc(settledInit, settledLast);
      PresentSnoc(init, last);
      if last.Some? {
        StatesSnoc(Present(init), last.value, hooksFor, webhookUrl);
      }
    }
  }

  /** The `forEach` push loop collecting the non-null entries. */
  method CollectOrgs(settled: seq<Option<OrgWebHookState>>) returns (apiOrgs: seq<OrgWebHookState>)
    ensures apiOrgs == Present(settled)
  {
    apiOrgs := [];
    for i := 0 to |settled|
      invariant apiOrgs == Present(settled[..i])
    {
      assert settled[..i + 1][..i] == settled[..i];
      if settled[i].Some? {
        apiOrgs := apiOrgs + [settled[i].value];
      }
    }
    assert settled[..|settled|] == settled;
  }

  /** The node at position i in front of the prefix before it: the requests,
      the failure and the settled values grow by that node's part alone. */
  lemma PrefixStep(nodes: seq<Option<Org>>, i: nat, token: string, hooksFor: string -> HooksReply, webhookUrl: string)
    requires i < |nodes|
    ensures HookCalls(nodes[..i + 1], token) ==
      HookCalls(nodes[..i], token) +
      if nodes[i].Some? && nodes[i].value.viewerCanAdminister then [GetHooks(HooksPath(nodes[i].value.login), token)] else []
    ensures AnyHooksFail(nodes[..i + 1], hooksFor) <==>
      AnyHooksFail(nodes[..i], hooksFor) ||
      (nodes[i].Some? && nodes[i].value.viewerCanAdminister && hooksFor(nodes[i].value.login).HooksFail?)
    ensures Settled(nodes[..i + 1], hooksFor, webhookUrl) ==
      Settled(nodes[..i], hooksFor, webhookUrl) +
      [if nodes[i].Some? then Some(OrgState(nodes[i].value, hooksFor(nodes[i].value.login), webhookUrl)) else None]
  {
    assert nodes[..i + 1][..i] == nodes[..i];
    assert nodes[..i + 1][i] == nodes[i];
  }

  /** `orgsData.map(async (org) => ...)` awaited by `Promise.all`: what each
      node settles with, whether one of the hooks requests failed, and the
      hooks requests made. Every request is issued before any is awaited,
      so a failure does not stop the requests for later organisations. */
  method MapOrgs(orgsData: seq<Option<Org>>, token: string, hooksFor: string -> HooksReply, webhookUrl: string)
    returns (settled: seq<Option<OrgWebHookState>>, failed: bool, hookCalls: seq<GithubCall>)
    ensures settled == Settled(orgsData, hooksFor, webhookUrl)
    ensures failed <==> AnyHooksFail(orgsData, hooksFor)
    ensures hookCalls == HookCalls(orgsData, token)
  {
    settled, failed, hookCalls := [], false, [];
    for i := 0 to |orgsData|
      invariant hookCalls == HookCalls(orgsData[..i], token)
      invariant failed <==> AnyHooksFail(orgsData[..i], hooksFor)
      invariant settled == Settled(orgsData[..i], hooksFor, webhookUrl)
    {
      PrefixStep(orgsData, i, token, hooksFor, webhookUrl);
      match orgsData[i] {
        case None =>
          settled := settled + [None];
        case Some(org) =>
          var hookEnabled := false;
          if org.viewerCanAdminister {
            hookCalls := hookCalls + [GetHooks(HooksPath(org.login), token)];
            match hooksFor(org.login) {
              case HooksFail(_) =>
                failed := true;
              case HooksData(hooks) =>
                hookEnabled := HookEnabled(hooks, webhookUrl);
            }
          }
          settled := settled + [Some(OrgWebHookState(org.login, org.name, org.viewerCanAdminister, hookEnabled))];
      }
    }
    assert orgsData[..|orgsData|] == orgsData;
  }

  /** The `/orgs.json` handler. `login` is what the user model finds for
      the request, `orgsReply` how the viewer query settles, `hooksFor` how
      the hooks request of each organisation settles, and `webhookUrl` the
      dashboard's `WEBHOOK_URL`. */
  method OrgsRoute(login: Option<LoginDetails>, orgsReply: OrgsReply,
                   hooksFor: string -> HooksReply, webhookUrl: string)
    returns (response: RouteResponse, calls: seq<GithubCall>)
    ensures login.None? ==> response == SendStatus(400) && calls == []
    ensures login.Some? && !HasRequiredScopes(login.value.scopes) ==>
      response == StatusText(400, MissingScope) && calls == []
    ensures login.Some? && HasRequiredScopes(login.value.scopes) ==>
      |calls| >= 1 && calls[0] == OrgsQuery(login.value.token) &&
      match orgsReply
      case OrgsFail(_) =>
        response == StatusText(500, UnhandledError) && |calls| == 1
      case OrgsData(None) =>
        response == SendOrgs([]) && |calls| == 1
      case OrgsData(Some(nodes)) =>
        calls[1..] == HookCalls(nodes, login.value.token) &&
        response == if AnyHooksFail(nodes, hooksFor) then StatusText(500, UnhandledError)
                    else SendOrgs(States(Present(nodes), hooksFor, webhookUrl))
  {
    if login.None? {
      return SendStatus(400), [];
    }
    var details := login.value;
    var scopes := details.scopes;
    if !HasRequiredScopes(scopes) {
      return StatusText(400, MissingScope), [];
    }
    calls := [OrgsQuery(details.token)];
    match orgsReply {
      case OrgsFail(_) =>
        return StatusText(500, UnhandledError), calls;
      case OrgsData(nodes) =>
        var apiOrgs := [];
        if nodes.Some? {
          var settled, failed, hookCalls := MapOrgs(nodes.value, details.token, hooksFor, webhookUrl);
          calls := calls + hookCalls;
          if failed {
            return StatusText(500, UnhandledError), calls;
          }
          apiOrgs := CollectOrgs(settled);
          OrgsKeepOrder(nodes.value, hooksFor, webhookUrl);
        }
        response := SendOrgs(apiOrgs);
    }
  }
}
