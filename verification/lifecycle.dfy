/**
 * The connection registry as a value: a map from user name to that user's
 * contexts, keyed by connection code. Connect and Disconnect are specified here as
 * functions from the old registry (and the answers of the collaborators they
 * consult) to their reply, the new registry and the change message they publish.
 * The lemmas relate several calls.
 */
module Lifecycle {
  import opened Wrappers
  import opened Context

  type Users = map<string, map<string, Ctx>>

  /** Every stored context belongs to the user and the code it is stored under. */
  predicate WellFormed(users: Users)
  {
    forall u, c :: u in users && c in users[u] ==>
      users[u][c].username == u && users[u][c].connectionCode == c
  }

  /** The context stored for (user, code), if any. */
  function Find(users: Users, user: string, code: string): Option<Ctx>
  {
    if user in users && code in users[user] then Some(users[user][code]) else None
  }

  /** The context map of `user`, or an empty one when the user has no entry. */
  function UserEntry(users: Users, user: string): map<string, Ctx>
  {
    if user in users then users[user] else map[]
  }

  /** The registry after making sure `user` has an entry: no context changes. */
  function Touch(users: Users, user: string): (r: Users)
    ensures r.Keys == users.Keys + {user}
    ensures forall u, c :: Find(r, u, c) == Find(users, u, c)
    ensures WellFormed(users) ==> WellFormed(r)
  {
    users[user := UserEntry(users, user)]
  }

  /** The registry with `ctx` stored under (user, code), replacing any earlier context. */
  function Store(users: Users, user: string, code: string, ctx: Ctx): (r: Users)
    ensures r.Keys == users.Keys + {user}
    ensures Find(r, user, code) == Some(ctx)
    ensures forall u, c :: u != user || c != code ==> Find(r, u, c) == Find(users, u, c)
    ensures WellFormed(users) && ctx.username == user && ctx.connectionCode == code ==> WellFormed(r)
  {
    users[user := UserEntry(users, user)[code := ctx]]
  }

  /** Storing twice under the same key keeps only the second context. */
  lemma StoreTwice(users: Users, user: string, code: string, first: Ctx, second: Ctx)
    ensures Store(Store(users, user, code, first), user, code, second) == Store(users, user, code, second)
  {
    var uc := UserEntry(users, user);
    assert UserEntry(Store(users, user, code, first), user) == uc[code := first];
    assert uc[code := first][code := second] == uc[code := second];
    assert users[user := uc[code := first]][user := uc[code := second]] == users[user := uc[code := second]];
  }

  /** The registry without the context under (user, code); user entries stay. */
  function Remove(users: Users, user: string, code: string): (r: Users)
    requires user in users
    ensures r.Keys == users.Keys
    ensures Find(r, user, code) == None
    ensures forall u, c :: u != user || c != code ==> Find(r, u, c) == Find(users, u, c)
    ensures WellFormed(users) ==> WellFormed(r)
  {
    users[user := users[user] - {code}]
  }

  /**
   * The lookup that precedes every query: not-found when the user has no entry or
   * no context under the code, the context otherwise.
   */
  function Lookup(users: Users, user: string, code: string): (r: Result<Ctx, ServiceError>)
    ensures r.Success? <==> Find(users, user, code).Some?
    ensures r.Success? ==> r.value == Find(users, user, code).value
    ensures user !in users ==> r == Failure(NotFound("Connection not found for user: " + user))
    ensures user in users && code !in users[user] ==> r == Failure(NotFound("Connection not found: " + code))
  {
    if user !in users then Failure(NotFound("Connection not found for user: " + user))
    else if code !in users[user] then Failure(NotFound("Connection not found: " + code))
    else Success(users[user][code])
  }

  /** The outcome of one registry operation. */
  datatype Step<R> = Step(reply: R, users: Users, notice: Option<Notification>)

  /** A context as the adapter layer builds it, before its connect primitive runs. */
  function NewContext(user: string, code: string, host: string, ad: Adapter): Ctx
  {
    Ctx(user, code, host, ad.code, ad.name, Disconnected)
  }

  /** The message announcing `ctx`'s current state. */
  function NoticeOf(ctx: Ctx): Notification
  {
    Notification(ctx.username, ctx.connectionCode, ctx.systemCode, ctx.status)
  }

  /** Connect returns early when the code already has a live context. */
  predicate ShortCircuits(users: Users, user: string, code: string)
  {
    Find(users, user, code).Some? && IsLive(Find(users, user, code).value)
  }

  /** The early reply of Connect for a live context. */
  function ShortCircuitReply(ctx: Ctx): ConnectionResult
  {
    if ctx.status == Connected then ConnectionResult(Some(Connected), None, "Already connected")
    else ConnectionResult(Some(Connecting), None, "Still connecting")
  }

  /**
   * Connect for `user` and `code`. `adapters` is the adapter catalog,
   * `newCtxError` the error (if any) of building the context, `adapterReply` the
   * outcome or error of the adapter's connect primitive, `authUrl` the adapter's
   * authorization URL, and `publish` the message bus's answer.
   */
  function ConnectSpec(
    users: Users, user: string, code: string, host: string, spec: ConnectionSpec,
    adapters: map<string, Adapter>, newCtxError: Option<string>,
    adapterReply: Result<ConnectOutcome, string>, authUrl: string, publish: PublishResult)
    : (s: Step<Result<ConnectionResult, ServiceError>>)
    // the user always has an entry afterwards, and no other user gains one
    ensures s.users.Keys == users.Keys + {user}
    // no other (user, code) entry changes
    ensures forall u, c :: u != user || c != code ==> Find(s.users, u, c) == Find(users, u, c)
    ensures WellFormed(users) ==> WellFormed(s.users)
    // a live context: fixed reply, nothing changes, nothing is published
    ensures ShortCircuits(users, user, code) ==>
      && s.users == users
      && s.notice == None
      && s.reply == Success(ShortCircuitReply(Find(users, user, code).value))
      && s.reply.value.status == Some(Find(users, user, code).value.status)
    // an unknown system: not-found, and the entry for the code is untouched
    ensures !ShortCircuits(users, user, code) && spec.systemCode !in adapters ==>
      && s.reply == Failure(NotFound("System not found: " + spec.systemCode))
      && Find(s.users, user, code) == Find(users, user, code)
      && s.notice == None
    // the context cannot be built: an Error result, nothing stored
    ensures !ShortCircuits(users, user, code) && spec.systemCode in adapters && newCtxError.Some? ==>
      && s.reply == Success(ConnectionResult(Some(Error), None, newCtxError.value))
      && Find(s.users, user, code) == Find(users, user, code)
      && s.notice == None
    // once built, the context is stored, whatever the adapter then answers
    ensures !ShortCircuits(users, user, code) && spec.systemCode in adapters && newCtxError.None? ==>
      var ad := adapters[spec.systemCode];
      var status := if adapterReply.Failure? then Error else StatusAfter(adapterReply.value);
      && Find(s.users, user, code) == Some(NewContext(user, code, host, ad).(status := status))
      && (adapterReply.Failure? ==>
            s.reply == Success(ConnectionResult(Some(Error), Some(ActionNone), adapterReply.error)) && s.notice == None)
      && (adapterReply.Success? && publish.PublishFailed? ==>
            s.reply == Success(ConnectionResult(None, None, publish.message)) && s.notice == None)
      && (adapterReply.Success? && publish.Published? ==>
            && s.reply == Success(OutcomeResult(adapterReply.value, user, code, authUrl))
            && s.notice == Some(Notification(user, code, ad.code, status)))
  {
    var users1 := Touch(users, user);
    if ShortCircuits(users, user, code) then
      Step(Success(ShortCircuitReply(users[user][code])), users1, None)
    else if spec.systemCode !in adapters then
      Step(Failure(NotFound("System not found: " + spec.systemCode)), users1, None)
    else if newCtxError.Some? then
      Step(Success(ConnectionResult(Some(Error), None, newCtxError.value)), users1, None)
    else
      var ctx := NewContext(user, code, host, adapters[spec.systemCode]);
      match adapterReply
      case Failure(e) =>
        Step(Success(ConnectionResult(Some(Error), Some(ActionNone), e)), Store(users1, user, code, ctx.(status := Error)), None)
      case Success(outcome) =>
        var connected := ctx.(status := StatusAfter(outcome));
        var users2 := Store(users1, user, code, connected);
        match publish
        case PublishFailed(e) => Step(Success(ConnectionResult(None, None, e)), users2, None)
        case Published => Step(Success(OutcomeResult(outcome, user, code, authUrl)), users2, Some(NoticeOf(connected)))
  }

  /**
   * Disconnect for `user` and `code`; `publish` is the message bus's answer. The
   * adapter's own disconnect result is discarded, so it is no input here.
   */
  function DisconnectSpec(users: Users, user: string, code: string, publish: PublishResult)
    : (s: Step<Option<ServiceError>>)
    ensures s.users.Keys == users.Keys
    ensures forall u, c :: u != user || c != code ==> Find(s.users, u, c) == Find(users, u, c)
    ensures WellFormed(users) ==> WellFormed(s.users)
    // a missing user or code: not-found, nothing changes
    ensures Find(users, user, code).None? ==>
      && s.reply.Some? && s.reply.value.NotFound?
      && s.users == users && s.notice == None
    // an already disconnected context: success, the entry stays
    ensures Find(users, user, code).Some? && Find(users, user, code).value.status == Disconnected ==>
      s == Step(None, users, None)
    // otherwise the change is published first; a publish failure keeps the entry
    ensures Find(users, user, code).Some? && Find(users, user, code).value.status != Disconnected ==>
      var ctx := Find(users, user, code).value;
      && (publish.PublishFailed? ==> s == Step(Some(ServerError(publish.message)), users, None))
      && (publish.Published? ==>
            && s.reply == None
            && Find(s.users, user, code) == None
            && s.notice == Some(NoticeOf(ctx)))
  {
    if user !in users then
      Step(Some(NotFound("Connection not found for user: " + user)), users, None)
    else if code !in users[user] then
      Step(Some(NotFound("Connection not found: " + code)), users, None)
    else
      var ctx := users[user][code];
      if ctx.status == Disconnected then Step(None, users, None)
      else match publish
        case PublishFailed(e) => Step(Some(ServerError(e)), users, None)
        case Published => Step(None, Remove(users, user, code), Some(NoticeOf(ctx)))
  }

  /**
   * The contexts of one user's map, among the codes `codes`, that the adapter's
   * refresh policy `needsRefresh` flags.
   */
  function FlaggedIn(uc: map<string, Ctx>, codes: set<string>, needsRefresh: Ctx -> bool): set<Ctx>
  {
    set c | c in codes && c in uc && needsRefresh(uc[c]) :: uc[c]
  }

  /** Scanning one more code adds that code's context exactly when it is flagged. */
  lemma FlaggedInAdd(uc: map<string, Ctx>, codes: set<string>, c: string, needsRefresh: Ctx -> bool)
    requires c in uc
    ensures FlaggedIn(uc, codes + {c}, needsRefresh)
            == FlaggedIn(uc, codes, needsRefresh) + (if needsRefresh(uc[c]) then {uc[c]} else {})
  {
  }

  /** The flagged contexts of the users in `us`. */
  function CandidatesIn(users: Users, us: set<string>, needsRefresh: Ctx -> bool): set<Ctx>
  {
    set u, c | u in us && u in users && c in users[u] && needsRefresh(users[u][c]) :: users[u][c]
  }

  /**
   * Every context, across all users, that the adapter's refresh policy flags when
   * the registry is scanned.
   */
  function RefreshCandidates(users: Users, needsRefresh: Ctx -> bool): set<Ctx>
  {
    CandidatesIn(users, users.Keys, needsRefresh)
  }

  /** Scanning one more user adds exactly that user's flagged contexts. */
  lemma CandidatesAddUser(users: Users, us: set<string>, u: string, needsRefresh: Ctx -> bool)
    requires u in users
    ensures CandidatesIn(users, us + {u}, needsRefresh)
            == CandidatesIn(users, us, needsRefresh) + FlaggedIn(users[u], users[u].Keys, needsRefresh)
  {
  }

  /** The listing line for a context. */
  function InfoOf(ctx: Ctx): ConnectionInfo
  {
    ConnectionInfo(ctx.username, ctx.connectionCode, ctx.systemCode, ctx.systemName)
  }

  /** The listing lines of one user's contexts among the codes `codes`. */
  function InfosIn(uc: map<string, Ctx>, codes: set<string>): set<ConnectionInfo>
  {
    set c | c in codes && c in uc :: InfoOf(uc[c])
  }

  /** Listing one more code adds exactly that code's line. */
  lemma InfosInAdd(uc: map<string, Ctx>, codes: set<string>, c: string)
    requires c in uc
    ensures InfosIn(uc, codes + {c}) == InfosIn(uc, codes) + {InfoOf(uc[c])}
  {
  }

  /** The listing lines of `user`'s contexts. */
  function Infos(users: Users, user: string): set<ConnectionInfo>
  {
    InfosIn(UserEntry(users, user), UserEntry(users, user).Keys)
  }

  /** No element occurs twice. */
  predicate Distinct<T(==)>(s: seq<T>)
  {
    forall i, j :: 0 <= i < j < |s| ==> s[i] != s[j]
  }

  // ---------------------------------------------------------------------------
  // Properties that relate several calls
  // ---------------------------------------------------------------------------

  /**
   * When Connect reports Connected or Connecting, or reaches the adapter
   * successfully but cannot publish, a repeated Connect for the same pair is
   * answered early: no adapter call, no change, no message.
   */
  lemma RepeatedConnectShortCircuits(
    users: Users, user: string, code: string, host: string, spec: ConnectionSpec,
    adapters: map<string, Adapter>, newCtxError: Option<string>,
    adapterReply: Result<ConnectOutcome, string>, authUrl: string, publish: PublishResult,
    host2: string, spec2: ConnectionSpec, adapters2: map<string, Adapter>, newCtxError2: Option<string>,
    adapterReply2: Result<ConnectOutcome, string>, authUrl2: string, publish2: PublishResult)
    requires
      var s := ConnectSpec(users, user, code, host, spec, adapters, newCtxError, adapterReply, authUrl, publish);
      || (s.reply.Success? && s.reply.value.status in {Some(Connected), Some(Connecting)})
      || (s.reply.Success? && s.reply.value.status == None)
    ensures
      var s := ConnectSpec(users, user, code, host, spec, adapters, newCtxError, adapterReply, authUrl, publish);
      var s2 := ConnectSpec(s.users, user, code, host2, spec2, adapters2, newCtxError2, adapterReply2, authUrl2, publish2);
      && ShortCircuits(s.users, user, code)
      && s2.users == s.users && s2.notice == None
      && s2.reply.Success? && s2.reply.value.message in {"Already connected", "Still connecting"}
  {
  }

  /**
   * A context left in Error is no obstacle: a new Connect for the same pair with a
   * known system code replaces it with a freshly built context.
   */
  lemma ConnectAfterErrorRebuilds(
    users: Users, user: string, code: string, host: string, spec: ConnectionSpec,
    adapters: map<string, Adapter>, adapterError: string, host2: string, spec2: ConnectionSpec,
    newCtxError2: Option<string>, adapterReply2: Result<ConnectOutcome, string>, authUrl2: string,
    publish2: PublishResult, authUrl: string, publish: PublishResult)
    requires !ShortCircuits(users, user, code) && spec.systemCode in adapters
    requires spec2.systemCode in adapters && newCtxError2.None?
    ensures
      var s := ConnectSpec(users, user, code, host, spec, adapters, None, Failure(adapterError), authUrl, publish);
      var s2 := ConnectSpec(s.users, user, code, host2, spec2, adapters, newCtxError2, adapterReply2, authUrl2, publish2);
      && Find(s.users, user, code).value.status == Error
      && !ShortCircuits(s.users, user, code)
      && Find(s2.users, user, code).value.host == host2
      && Find(s2.users, user, code).value.systemCode == adapters[spec2.systemCode].code
  {
  }

  /**
   * A Connect that reached the adapter leaves a context that Disconnect with a
   * successful publish removes, announcing the context's state; afterwards the
   * lookup for the pair is not-found, and so is a second Disconnect.
   */
  lemma DisconnectAfterConnectRemoves(
    users: Users, user: string, code: string, host: string, spec: ConnectionSpec,
    adapters: map<string, Adapter>, adapterReply: Result<ConnectOutcome, string>, authUrl: string,
    publish: PublishResult, publish2: PublishResult, publish3: PublishResult)
    requires !ShortCircuits(users, user, code) && spec.systemCode in adapters
    ensures
      var s := ConnectSpec(users, user, code, host, spec, adapters, None, adapterReply, authUrl, publish);
      var d := DisconnectSpec(s.users, user, code, Published);
      var d2 := DisconnectSpec(d.users, user, code, publish3);
      && d.reply == None
      && d.notice == Some(NoticeOf(Find(s.users, user, code).value))
      && Lookup(d.users, user, code) == Failure(NotFound("Connection not found: " + code))
      && d2 == Step(Some(NotFound("Connection not found: " + code)), d.users, None)
      && (forall u, c :: u != user || c != code ==> Find(d.users, u, c) == Find(users, u, c))
  {
  }

  /**
   * A successful Disconnect of a live context removes exactly that context from
   * the refresh candidates.
   */
  lemma DisconnectDropsRefreshCandidate(users: Users, user: string, code: string, needsRefresh: Ctx -> bool)
    requires WellFormed(users)
    requires Find(users, user, code).Some? && Find(users, user, code).value.status != Disconnected
    ensures RefreshCandidates(DisconnectSpec(users, user, code, Published).users, needsRefresh)
            == RefreshCandidates(users, needsRefresh) - {Find(users, user, code).value}
  {
    var ctx := users[user][code];
    var after := DisconnectSpec(users, user, code, Published).users;
    assert after == Remove(users, user, code);
    forall x | x in RefreshCandidates(after, needsRefresh)
      ensures x in RefreshCandidates(users, needsRefresh) - {ctx}
    {
      var u, c :| u in after && c in after[u] && needsRefresh(after[u][c]) && x == after[u][c];
      assert Find(after, u, c) == Find(users, u, c);
      assert x.username == u && x.connectionCode == c;
    }
    forall x | x in RefreshCandidates(users, needsRefresh) - {ctx}
      ensures x in RefreshCandidates(after, needsRefresh)
    {
      var u, c :| u in users && c in users[u] && needsRefresh(users[u][c]) && x == users[u][c];
      assert u != user || c != code;
      assert Find(after, u, c) == Find(users, u, c);
    }
  }

  /** Connect and Disconnect of one user leave every other user's listing as it was. */
  lemma OtherUsersListingUnchanged(
    users: Users, user: string, code: string, other: string, host: string, spec: ConnectionSpec,
    adapters: map<string, Adapter>, newCtxError: Option<string>,
    adapterReply: Result<ConnectOutcome, string>, authUrl: string, publish: PublishResult)
    requires other != user
    ensures Infos(ConnectSpec(users, user, code, host, spec, adapters, newCtxError, adapterReply, authUrl, publish).users, other)
            == Infos(users, other)
    ensures Infos(DisconnectSpec(users, user, code, publish).users, other) == Infos(users, other)
  {
  }
}
