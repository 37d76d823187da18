/**
 * The `TeamSLService` class of src/services/teamSLService.js: the login
 * session (`sessionCookie`, `client`), the page requests against the
 * search endpoint, and the cron entry points that log in, collect all open
 * games, log out and hand the games to the reconciliation.
 *
 * The remote side is a parameter: what the login POST answers, what
 * `/rest/user/lc` reports for a session, the search endpoint, and the ISO
 * string of today's midnight that `buildSearchPayload` uses as its date.
 */
module TeamSL {
  import opened Wrappers
  import opened Strings
  import opened SyncData
  import opened UpstreamClient
  import opened PageCollector
  import opened Seqs
  import Reconciliation

  /** The axios instance `login` creates: it sends the session cookie. */
  datatype Client = Client(cookie: string)

  /** What the login POST answers: the page body and the `set-cookie` header. */
  datatype LoginResponse = LoginResponse(body: string, setCookie: CookieHeader)

  /** The remote side of one run. */
  datatype Remote = Remote(
    login: (string, string) -> Option<LoginResponse>,
    userContext: string -> Option<string>,
    search: Upstream,
    today: string)

  /** The errors the service throws, by their cause. */
  datatype ServiceError =
    | RequestFailed
    | InvalidCredentials
    | NoSessionCookie
    | LoginNotPersisted
    | NotLoggedIn
    | MissingCredentials
    | SyncFailed(error: Reconciliation.SyncError)

  /** The two fields of the service. */
  datatype Session = Session(sessionCookie: Option<string>, client: Option<Client>)

  const LoggedOut: Session := Session(None, None)

  /** The fields after a login attempt, and its outcome. */
  datatype LoginOutcome = LoginOutcome(session: Session, result: Result<bool, ServiceError>)

  /** `verifyLogin`: `/rest/user/lc` answered with a non-empty `loginName`. */
  predicate Verified(loginName: Option<string>) {
    loginName.Some? && loginName.value != ""
  }

  /** `!value` for an optional string. */
  predicate Truthy(value: Option<string>) {
    value.Some? && value.value != ""
  }

  /**
   * `login`: a rejected POST or the unknown-credentials text fails before
   * any field is touched; otherwise `sessionCookie` is set to the chosen
   * cookie, and only when there is one is a client created and checked.
   */
  function LoginStep(s: Session, resp: Option<LoginResponse>, userContext: string -> Option<string>)
    : (r: LoginOutcome)
    ensures r.result.Ok? <==>
      resp.Some? && !Contains(resp.value.body, InvalidLoginMarker) &&
      FirstSession(Entries(resp.value.setCookie)).Some? &&
      Verified(userContext(FirstSession(Entries(resp.value.setCookie)).value))
    ensures resp.None? || Contains(resp.value.body, InvalidLoginMarker) ==> r.session == s
    ensures r.session.client != s.client ==>
      resp.Some? && !Contains(resp.value.body, InvalidLoginMarker) &&
      r.session.sessionCookie.Some? && r.session.client == Some(Client(r.session.sessionCookie.value)) &&
      StartsWith(r.session.sessionCookie.value, SessionPrefix)
    ensures r.result.Ok? ==>
      r.session.sessionCookie.Some? && r.session.client == Some(Client(r.session.sessionCookie.value)) &&
      StartsWith(r.session.sessionCookie.value, SessionPrefix)
  {
    match resp
    case None => LoginOutcome(s, Err(RequestFailed))
    case Some(res) =>
      if Contains(res.body, InvalidLoginMarker) then LoginOutcome(s, Err(InvalidCredentials))
      else
        var cookie := FirstSession(Entries(res.setCookie));
        FirstSessionSpec(Entries(res.setCookie));
        match cookie
        case None => LoginOutcome(s.(sessionCookie := None), Err(NoSessionCookie))
        case Some(c) =>
          var s1 := Session(Some(c), Some(Client(c)));
          if Verified(userContext(c)) then LoginOutcome(s1, Ok(true))
          else LoginOutcome(s1, Err(LoginNotPersisted))
  }

  /** The outcome of a login, and the fields after a successful one, do not depend on the fields before. */
  lemma LoginForgetsSession(s: Session, t: Session, resp: Option<LoginResponse>, userContext: string -> Option<string>)
    ensures LoginStep(s, resp, userContext).result == LoginStep(t, resp, userContext).result
    ensures LoginStep(s, resp, userContext).result.Ok? ==>
      LoginStep(s, resp, userContext).session == LoginStep(t, resp, userContext).session
  {
  }

  /** `fetchOpenGames`: one search request through the client, or an error. */
  function FetchPage(client: Option<Client>, remote: Remote, pageFrom: int, pageSize: int, zeitraum: string)
    : (r: Result<Page, ServiceError>)
    ensures client.None? ==> r == Err(NotLoggedIn)
    ensures client.Some? ==>
      (r.Ok? <==> remote.search(BuildSearchPayload(None, remote.today, pageFrom, pageSize, zeitraum)).Some?)
    ensures r.Ok? ==> Some(r.value) == remote.search(BuildSearchPayload(None, remote.today, pageFrom, pageSize, zeitraum))
  {
    if client.None? then Err(NotLoggedIn)
    else match remote.search(BuildSearchPayload(None, remote.today, pageFrom, pageSize, zeitraum))
      case None => Err(RequestFailed)
      case Some(pg) => Ok(pg)
  }

  /** What `fetchAllOpenGames(pageSize, zeitraum)` returns for a client. */
  function CollectAll(client: Option<Client>, remote: Remote, pageSize: int, zeitraum: string)
    : Result<Collected, ServiceError>
    requires pageSize > 0
  {
    match FetchPage(client, remote, 0, pageSize, zeitraum)
    case Err(e) => Err(e)
    case Ok(first) => Ok(Collect(first, remote.search, pageSize, remote.today))
  }

  /** The object `executeCronJob` returns (the timestamp is left out). */
  datatype CronResult = CronSuccess(gamesCount: int, data: Collected) | CronFailure(error: ServiceError)

  /** The page size `executeCronJob` collects with. */
  const CronPageSize: int := 100

  /**
   * `executeCronJob(zeitraum)`, given the two environment variables: both
   * must be set, then a login and a collection of all pages of 100 follow.
   */
  function CronJob(username: Option<string>, password: Option<string>, remote: Remote, zeitraum: string)
    : CronResult
  {
    if !Truthy(username) || !Truthy(password) then CronFailure(MissingCredentials)
    else
      var login := LoginStep(LoggedOut, remote.login(username.value, password.value), remote.userContext);
      match login.result
      case Err(e) => CronFailure(e)
      case Ok(_) =>
        match CollectAll(login.session.client, remote, CronPageSize, zeitraum)
        case Err(e) => CronFailure(e)
        case Ok(data) => CronSuccess(data.total, data)
  }

  /**
   * A successful cron job logged in with a session cookie and reports the
   * collection of the pages the search endpoint served for it, with the
   * reported total as its count; it needs both credentials.
   */
  lemma CronJobSpec(username: Option<string>, password: Option<string>, remote: Remote, zeitraum: string)
    ensures !Truthy(username) || !Truthy(password) ==>
      CronJob(username, password, remote, zeitraum) == CronFailure(MissingCredentials)
    ensures CronJob(username, password, remote, zeitraum).CronSuccess? ==>
      var resp := remote.login(username.value, password.value);
      var r := CronJob(username, password, remote, zeitraum);
      Truthy(username) && Truthy(password) &&
      resp.Some? && !Contains(resp.value.body, InvalidLoginMarker) &&
      FirstSession(Entries(resp.value.setCookie)).Some? &&
      remote.search(FirstRequest(CronPageSize, zeitraum, remote.today)).Some? &&
      r.data == Collect(remote.search(FirstRequest(CronPageSize, zeitraum, remote.today)).value,
        remote.search, CronPageSize, remote.today) &&
      r.gamesCount == r.data.total
  {
  }

  /** The result `processGamesData` returns. */
  datatype Processed = Processed(gamesCount: int, data: Collected, databaseResult: Reconciliation.Counters)

  /**
   * The tables after `processGamesData(zeitraum)`: unchanged when the cron
   * job fails, else as `saveGamesToDatabase` leaves them, also when it throws.
   */
  function TablesAfter(t: Tables, username: Option<string>, password: Option<string>, remote: Remote,
                       zeitraum: string): Tables
  {
    match CronJob(username, password, remote, zeitraum)
    case CronFailure(_) => t
    case CronSuccess(_, data) =>
      match Reconciliation.SaveGames(t, data.results, zeitraum)
      case Ok(s) => s.tables
      case Err(f) => f.state.tables
  }

  class TeamSLService {
    var sessionCookie: Option<string>
    var client: Option<Client>

    function Fields(): Session
      reads this
    {
      Session(sessionCookie, client)
    }

    constructor ()
      ensures Fields() == LoggedOut
    {
      sessionCookie := None;
      client := None;
    }

    /** `login(username, password)`, the POST answered by `remote.login`. */
    method Login(username: string, password: string, remote: Remote) returns (r: Result<bool, ServiceError>)
      modifies this
      ensures var step := LoginStep(old(Fields()), remote.login(username, password), remote.userContext);
        Fields() == step.session && r == step.result
    {
      var resp := remote.login(username, password);
      ghost var step := LoginStep(Fields(), resp, remote.userContext);
      if resp.None? {
        return Err(RequestFailed);
      }
      if Contains(resp.value.body, InvalidLoginMarker) {
        return Err(InvalidCredentials);
      }
      var cookie := PickSessionCookie(resp.value.setCookie);
      sessionCookie := cookie;
      if cookie.None? {
        assert step.session == Fields();
        return Err(NoSessionCookie);
      }
      client := Some(Client(cookie.value));
      assert step.session == Fields();
      r := VerifyLogin(remote);
    }

    /** `verifyLogin`: `/rest/user/lc` must report a login name for the client's session. */
    method VerifyLogin(remote: Remote) returns (r: Result<bool, ServiceError>)
      requires client.Some?
      ensures r.Ok? <==> Verified(remote.userContext(client.value.cookie))
      ensures r.Ok? ==> r.value
      ensures r.Err? ==> r.error == LoginNotPersisted
    {
      if Verified(remote.userContext(client.value.cookie)) {
        return Ok(true);
      }
      return Err(LoginNotPersisted);
    }

    /** `isLoggedIn`: a client exists and its session still verifies. */
    method IsLoggedIn(remote: Remote) returns (r: bool)
      ensures r <==> client.Some? && Verified(remote.userContext(client.value.cookie))
    {
      if client.None? {
        return false;
      }
      var v := VerifyLogin(remote);
      return v.Ok?;
    }

    /** `logout`: forgets the cookie and the client. */
    method Logout()
      modifies this
      ensures Fields() == LoggedOut
    {
      sessionCookie := None;
      client := None;
    }

    /** `fetchOpenGames(pageFrom, pageSize, zeitraum)`. */
    method FetchOpenGames(pageFrom: int, pageSize: int, zeitraum: string, remote: Remote)
      returns (r: Result<Page, ServiceError>)
      ensures r == FetchPage(client, remote, pageFrom, pageSize, zeitraum)
    {
      if client.None? {
        return Err(NotLoggedIn);
      }
      var payload := BuildSearchPayload(None, remote.today, pageFrom, pageSize, zeitraum);
      var answer := remote.search(payload);
      if answer.None? {
        return Err(RequestFailed);
      }
      return Ok(answer.value);
    }

    /**
     * `fetchAllOpenGames(pageSize, zeitraum)`. Besides the result it returns
     * the page indices it requested, batch by batch.
     */
    method FetchAllOpenGames(pageSize: int, zeitraum: string, remote: Remote)
      returns (r: Result<Collected, ServiceError>, batches: seq<seq<int>>)
      requires pageSize > 0
      ensures r == CollectAll(client, remote, pageSize, zeitraum)
      ensures batches == if r.Ok? && r.value.pages > 1 then Batches(1, r.value.pages) else []
    {
      batches := [];
      var first := FetchOpenGames(0, pageSize, zeitraum, remote);
      if first.Err? {
        return Err(first.error), batches;
      }
      var firstPage := first.value;
      var totalGames := TotalOf(firstPage);
      var totalPages := CeilDiv(totalGames, pageSize);
      if totalPages <= 1 {
        return Ok(Collected(totalGames, firstPage.results.GetOr([]), totalPages, pageSize)), batches;
      }
      var allGames: seq<GameRecord> := [];
      if firstPage.results.Some? {
        allGames := AddEach(allGames, firstPage.results.value);
      }
      ghost var delivered := Delivered(remote.search, 1, totalPages, pageSize, remote.today);
      AddAllAppend([], Records(firstPage), delivered);
      allGames, batches := CollectBatches(allGames, totalPages, pageSize, remote);
      return Ok(Collected(totalGames, allGames, totalPages, pageSize)), batches;
    }

    /**
     * The batch loop of `fetchAllOpenGames`: batches of ten pages from page 1
     * on, each adding its records only when every request of it succeeded.
     */
    method CollectBatches(acc: seq<GameRecord>, totalPages: int, pageSize: int, remote: Remote)
      returns (all: seq<GameRecord>, batches: seq<seq<int>>)
      requires client.Some?
      ensures all == AddAll(acc, Delivered(remote.search, 1, totalPages, pageSize, remote.today))
      ensures batches == Batches(1, totalPages)
    {
      ghost var up := remote.search;
      ghost var today := remote.today;
      all, batches := acc, [];
      var batchStart := 1;
      while batchStart < totalPages
        invariant batchStart >= 1
        invariant Batches(1, totalPages) == batches + Batches(batchStart, totalPages)
        invariant AddAll(all, Delivered(up, batchStart, totalPages, pageSize, today)) ==
          AddAll(acc, Delivered(up, 1, totalPages, pageSize, today))
        decreases totalPages - batchStart
      {
        var batchEnd := if batchStart + BatchSize < totalPages then batchStart + BatchSize else totalPages;
        var responses, requested := FetchBatch(batchStart, batchEnd, pageSize, remote);
        ghost var before := all;
        all := AddBatch(all, responses);
        BatchAdvance(up, batchStart, totalPages, pageSize, today, before, responses);
        assert batches + Batches(batchStart, totalPages) == (batches + [requested]) + Batches(batchStart + BatchSize, totalPages);
        batches := batches + [requested];
        batchStart := batchStart + BatchSize;
      }
    }

    /** The requests of one batch, pages `batchStart`, ..., `batchEnd - 1`, with the default horizon. */
    method FetchBatch(batchStart: int, batchEnd: int, pageSize: int, remote: Remote)
      returns (responses: seq<Option<Page>>, requested: seq<int>)
      requires client.Some? && batchStart <= batchEnd
      ensures responses == Responses(remote.search, batchStart, batchEnd, pageSize, remote.today)
      ensures requested == Range(batchStart, batchEnd)
    {
      responses := [];
      requested := [];
      var page := batchStart;
      while page < batchEnd
        invariant batchStart <= page <= batchEnd
        invariant responses == Responses(remote.search, batchStart, page, pageSize, remote.today)
        invariant requested == Range(batchStart, page)
      {
        var answer := FetchOpenGames(page, pageSize, DefaultHorizon, remote);
        responses := responses + [if answer.Ok? then Some(answer.value) else None];
        requested := requested + [page];
        page := page + 1;
      }
    }

    /** `executeCronJob(zeitraum)`; the environment variables are parameters. */
    method ExecuteCronJob(zeitraum: string, username: Option<string>, password: Option<string>, remote: Remote)
      returns (r: CronResult)
      modifies this
      ensures r == CronJob(username, password, remote, zeitraum)
      ensures Fields() == LoggedOut
    {
      if !Truthy(username) || !Truthy(password) {
        r := CronFailure(MissingCredentials);
      } else {
        LoginForgetsSession(Fields(), LoggedOut, remote.login(username.value, password.value), remote.userContext);
        var login := Login(username.value, password.value, remote);
        if login.Err? {
          r := CronFailure(login.error);
        } else {
          var games, _ := FetchAllOpenGames(CronPageSize, zeitraum, remote);
          if games.Err? {
            r := CronFailure(games.error);
          } else {
            r := CronSuccess(games.value.total, games.value);
          }
        }
      }
      Logout();
    }

    /**
     * `processGamesData(zeitraum)`: a successful cron job's results go to
     * `saveGamesToDatabase`; a failed job changes no table.
     */
    method ProcessGamesData(zeitraum: string, username: Option<string>, password: Option<string>,
                            remote: Remote, store: Reconciliation.SyncStore)
      returns (r: Result<Processed, ServiceError>)
      modifies this, store
      ensures Fields() == LoggedOut
      ensures store.Snapshot() == TablesAfter(old(store.Snapshot()), username, password, remote, zeitraum)
      ensures match CronJob(username, password, remote, zeitraum)
        case CronFailure(e) => r == Err(e) && store.Snapshot() == old(store.Snapshot())
        case CronSuccess(n, data) =>
          match Reconciliation.SaveGames(old(store.Snapshot()), data.results, zeitraum)
          case Ok(s) => r == Ok(Processed(n, data, s.counters)) && store.Snapshot() == s.tables
          case Err(f) => r == Err(SyncFailed(f.error)) && store.Snapshot() == f.state.tables
    {
      var result := ExecuteCronJob(zeitraum, username, password, remote);
      if result.CronFailure? {
        return Err(result.error);
      }
      var db := store.SaveGamesToDatabase(result.data.results, zeitraum);
      if db.Err? {
        return Err(SyncFailed(db.error));
      }
      return Ok(Processed(result.gamesCount, result.data, db.value));
    }
  }

  /** `allGames.add` for each record, in order. */
  method AddEach(acc: seq<GameRecord>, xs: seq<GameRecord>) returns (r: seq<GameRecord>)
    ensures r == AddAll(acc, xs)
  {
    r := acc;
    var i := 0;
    while i < |xs|
      invariant 0 <= i <= |xs|
      invariant r == AddAll(acc, xs[..i])
    {
      AddAllSnoc(acc, xs[..i], xs[i]);
      assert xs[..i + 1] == xs[..i] + [xs[i]];
      if xs[i] !in r {
        r := r + [xs[i]];
      }
      i := i + 1;
    }
    assert xs[..i] == xs;
  }

  /**
   * `Promise.all(batch)` and the `forEach` over its pages: nothing is added
   * when a request of the batch failed, else each page's records in order.
   */
  method AddBatch(acc: seq<GameRecord>, responses: seq<Option<Page>>) returns (r: seq<GameRecord>)
    ensures r == AddAll(acc, Gather(responses).GetOr([]))
  {
    if exists i :: 0 <= i < |responses| && responses[i].None? {
      GatherFails(responses);
      return acc;
    }
    GatherFails(responses);
    r := acc;
    var j := 0;
    while j < |responses|
      invariant 0 <= j <= |responses|
      invariant Gather(responses[..j]).Some?
      invariant r == AddAll(acc, Gather(responses[..j]).value)
    {
      assert responses[..j + 1][..j] == responses[..j];
      var pageData := responses[j].value;
      AddAllAppend(acc, Gather(responses[..j]).value, Records(pageData));
      if pageData.results.Some? && |pageData.results.value| > 0 {
        r := AddEach(r, pageData.results.value);
      }
      j := j + 1;
    }
    assert responses[..j] == responses;
  }
}
