/** Handling of the code host's app-installation webhook: `created` resolves
    every listed repository through one batched, aliased remote query and
    records the installation and its repositories; `deleted` removes the
    installation; any other action is reported as not handled. The remote
    query's reply is an input and the calls made to the collaborators are
    returned as a log, in the order they are made. */
module AppInstall {
  import opened Wrappers
  import Decimal

  datatype AccountType = User | Organization

  datatype RepositorySelection = All | Selected

  datatype Account = Account(login: string, avatarUrl: string, accountType: AccountType)

  datatype Installation = Installation(
    id: int,
    repositorySelection: RepositorySelection,
    permissions: map<string, string>,
    events: seq<string>,
    account: Account)

  datatype HookRepository = HookRepository(id: int, name: string, fullName: string)

  /** `InstallHook`. `action` is typed `'created'|'deleted'` but may carry
      any string at run time; `repositories` may be absent. */
  datatype InstallHook = InstallHook(
    action: string,
    installation: Installation,
    repositories: Option<seq<HookRepository>>)

  /** A repository as the remote lookup returns it. */
  datatype GithubRepo = GithubRepo(id: string, databaseId: int, name: string, nameWithOwner: string)

  /** One repository lookup: `repository(owner:"…" name:"…") { ...repoFragment }`. */
  datatype SubQuery = RepositoryQuery(owner: string, name: string)

  /** A sub-query under its alias, `<alias>: <sub-query>`. */
  datatype AliasedQuery = AliasedQuery(alias: string, query: SubQuery)

  const QueryId := "repoId"
  const NetworkOnly := "network-only"

  /** The record handed to `addInstallation`. */
  datatype InstallationRecord = InstallationRecord(
    installationId: int,
    permissions: map<string, string>,
    events: seq<string>,
    repositorySelection: RepositorySelection,
    accountType: AccountType,
    login: string,
    avatarUrl: string)

  /** A call made to a collaborator. */
  datatype Call =
    | RemoteQuery(queryId: string, subQueries: seq<AliasedQuery>, fetchPolicy: string)
    | AddInstallation(record: InstallationRecord)
    | AddRepos(login: string, repos: seq<GithubRepo>)
    | DeleteInstallation(login: string)

  /** How the remote query settles: the `data` of its result, as entries in
      `Object.keys` order, or the error it rejects with. */
  datatype QueryReply = Data(entries: seq<(string, GithubRepo)>) | Fails(error: string)

  /** How a call to the app model settles: it resolves, or it rejects with
      an error that propagates out of the handler. */
  datatype Settles = Resolves | Rejects(error: string)

  /** How every collaborator settles for one hook: the remote query, then
      the app model's `addInstallation`, `addRepos` and `deleteInstallation`. */
  datatype Replies = Replies(
    query: QueryReply,
    addInstallation: Settles,
    addRepos: Settles,
    deleteInstallation: Settles)

  /** `WebHookHandleResponse`; `notifications` is always null here. */
  datatype HandleResponse = HandleResponse(handled: bool, notifications: Option<seq<string>>, message: string)

  /** How a handler settles: with a response, or with the error that
      propagates out of it. */
  datatype HandleResult = Handled(response: HandleResponse) | Threw(error: string)

  /** The alias of the i-th sub-query: `${queryId}_${index}`. */
  function Alias(i: nat): string {
    QueryId + "_" + Decimal.NatToString(i)
  }

  /** Different positions get different aliases. */
  lemma AliasInjective(i: nat, j: nat)
    requires Alias(i) == Alias(j)
    ensures i == j
  {
    var p := QueryId + "_";
    assert Alias(i)[|p|..] == Decimal.NatToString(i);
    assert Alias(j)[|p|..] == Decimal.NatToString(j);
    Decimal.NatToStringInjective(i, j);
  }

  /** `queries.map((queryString, index) => `${queryId}_${index}: ${queryString}`)`. */
  function AliasAll(queries: seq<SubQuery>): seq<AliasedQuery> {
    seq(|queries|, i requires 0 <= i < |queries| => AliasedQuery(Alias(i), queries[i]))
  }

  /** One aliased sub-query per repository, in order, under pairwise
      distinct aliases. */
  lemma AliasesDistinct(queries: seq<SubQuery>)
    ensures |AliasAll(queries)| == |queries|
    ensures forall i :: 0 <= i < |queries| ==> AliasAll(queries)[i].query == queries[i]
    ensures forall i, j :: 0 <= i < j < |queries| ==> AliasAll(queries)[i].alias != AliasAll(queries)[j].alias
  {
    forall i, j | 0 <= i < j < |queries|
      ensures AliasAll(queries)[i].alias != AliasAll(queries)[j].alias
    {
      if Alias(i) == Alias(j) {
        AliasInjective(i, j);
      }
    }
  }

  /** `Object.keys(data).map((repoKey) => data[repoKey])`. */
  function RepoValues(entries: seq<(string, GithubRepo)>): seq<GithubRepo> {
    seq(|entries|, i requires 0 <= i < |entries| => entries[i].1)
  }

  function RecordOf(installation: Installation): InstallationRecord {
    InstallationRecord(
      installation.id,
      installation.permissions,
      installation.events,
      installation.repositorySelection,
      installation.account.accountType,
      installation.account.login,
      installation.account.avatarUrl)
  }

  /** The sub-queries of the `created` path: one per repository, in order,
      each for the installation's account and the repository's name. */
  method BuildQueries(owner: string, repositories: seq<HookRepository>) returns (queries: seq<SubQuery>)
    ensures |queries| == |repositories|
    ensures forall i :: 0 <= i < |repositories| ==> queries[i] == RepositoryQuery(owner, repositories[i].name)
  {
    queries := [];
    for k := 0 to |repositories|
      invariant |queries| == k
      invariant forall i :: 0 <= i < k ==> queries[i] == RepositoryQuery(owner, repositories[i].name)
    {
      queries := queries + [RepositoryQuery(owner, repositories[k].name)];
    }
  }

  /** What the `created` path promises: with no `repositories` field, a
      not-handled result and no call at all; otherwise first exactly one
      remote query, network-only, holding one aliased sub-query per
      repository in order; if the query fails, its error and nothing more;
      else the installation record copied from the hook, then the account's
      repositories as returned, and a handled result. A rejected call stops
      the handler there and its error propagates. */
  ghost predicate NewInstallContract(hook: InstallHook, replies: Replies, result: HandleResult, calls: seq<Call>) {
    var inst := hook.installation;
    match hook.repositories
    case None =>
      result == Handled(HandleResponse(false, None, "No repositories defined.")) && calls == []
    case Some(repos) =>
      |calls| >= 1 && calls[0].RemoteQuery? &&
      calls[0].queryId == QueryId && calls[0].fetchPolicy == NetworkOnly &&
      |calls[0].subQueries| == |repos| &&
      (forall i :: 0 <= i < |repos| ==>
        calls[0].subQueries[i] == AliasedQuery(Alias(i), RepositoryQuery(inst.account.login, repos[i].name))) &&
      match replies.query
      case Fails(e) =>
        result == Threw(e) && |calls| == 1
      case Data(entries) =>
        |calls| >= 2 &&
        calls[1] == AddInstallation(InstallationRecord(
          inst.id, inst.permissions, inst.events, inst.repositorySelection,
          inst.account.accountType, inst.account.login, inst.account.avatarUrl)) &&
        match replies.addInstallation
        case Rejects(e) =>
          result == Threw(e) && |calls| == 2
        case Resolves =>
          |calls| == 3 &&
          calls[2].AddRepos? && calls[2].login == inst.account.login &&
          |calls[2].repos| == |entries| &&
          (forall i :: 0 <= i < |entries| ==> calls[2].repos[i] == entries[i].1) &&
          result == match replies.addRepos
                    case Rejects(e) => Threw(e)
                    case Resolves => Handled(HandleResponse(true, None, "Install recorded on backend"))
  }

  /** `handleNewAppInstall`. */
  method HandleNewAppInstall(hook: InstallHook, replies: Replies) returns (result: HandleResult, calls: seq<Call>)
    ensures NewInstallContract(hook, replies, result, calls)
  {
    var owner := hook.installation.account.login;
    if hook.repositories.None? {
      return Handled(HandleResponse(false, None, "No repositories defined.")), [];
    }
    var queries := BuildQueries(owner, hook.repositories.value);
    var completeQuery := AliasAll(queries);
    calls := [RemoteQuery(QueryId, completeQuery, NetworkOnly)];
    match replies.query {
      case Fails(e) =>
        return Threw(e), calls;
      case Data(entries) =>
        var allRepos := RepoValues(entries);
        calls := calls + [AddInstallation(RecordOf(hook.installation))];
        if replies.addInstallation.Rejects? {
          return Threw(replies.addInstallation.error), calls;
        }
        calls := calls + [AddRepos(hook.installation.account.login, allRepos)];
        if replies.addRepos.Rejects? {
          return Threw(replies.addRepos.error), calls;
        }
        result := Handled(HandleResponse(true, None, "Install recorded on backend"));
    }
  }

  /** `handleDeleteApp`: one delete by the account's login; a rejected
      delete propagates its error. */
  method HandleDeleteApp(hook: InstallHook, deleteInstallation: Settles) returns (result: HandleResult, calls: seq<Call>)
    ensures calls == [DeleteInstallation(hook.installation.account.login)]
    ensures deleteInstallation.Rejects? ==> result == Threw(deleteInstallation.error)
    ensures deleteInstallation.Resolves? ==> result == Handled(HandleResponse(true, None, "Deletion recorded on backend"))
  {
    var installLogin := hook.installation.account.login;
    calls := [DeleteInstallation(installLogin)];
    if deleteInstallation.Rejects? {
      return Threw(deleteInstallation.error), calls;
    }
    result := Handled(HandleResponse(true, None, "Deletion recorded on backend"));
  }

  /** `handleGithubAppInstall`: dispatch on the action. */
  method HandleGithubAppInstall(hook: InstallHook, replies: Replies) returns (result: HandleResult, calls: seq<Call>)
    ensures hook.action == "created" ==> NewInstallContract(hook, replies, result, calls)
    ensures hook.action == "deleted" ==>
      calls == [DeleteInstallation(hook.installation.account.login)] &&
      result == match replies.deleteInstallation
                case Rejects(e) => Threw(e)
                case Resolves => Handled(HandleResponse(true, None, "Deletion recorded on backend"))
    ensures hook.action != "created" && hook.action != "deleted" ==>
      calls == [] &&
      result == Handled(HandleResponse(false, None, "Unexpected installation action: " + hook.action))
  {
    if hook.action == "created" {
      result, calls := HandleNewAppInstall(hook, replies);
    } else if hook.action == "deleted" {
      result, calls := HandleDeleteApp(hook, replies.deleteInstallation);
    } else {
      result := Handled(HandleResponse(false, None, "Unexpected installation action: " + hook.action));
      calls := [];
    }
  }

  /** Only the `created` path queries or adds, only the `deleted` path
      deletes, and the remote query is made at most once. */
  lemma CallsByAction(hook: InstallHook, replies: Replies, result: HandleResult, calls: seq<Call>)
    requires hook.action == "created" ==> NewInstallContract(hook, replies, result, calls)
    requires hook.action == "deleted" ==> calls == [DeleteInstallation(hook.installation.account.login)]
    requires hook.action != "created" && hook.action != "deleted" ==> calls == []
    ensures forall i :: 0 <= i < |calls| && calls[i].DeleteInstallation? ==> hook.action == "deleted"
    ensures forall i :: 0 <= i < |calls| && !calls[i].DeleteInstallation? ==> hook.action == "created"
    ensures forall i, j :: 0 <= i < j < |calls| ==> !(calls[i].RemoteQuery? && calls[j].RemoteQuery?)
    ensures forall i, j :: 0 <= i < |calls| && 0 <= j < |calls| && calls[i].AddInstallation? && calls[j].AddRepos? ==> i < j
  {
  }
}
