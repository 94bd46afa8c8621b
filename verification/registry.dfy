/**
 * The process-wide connection registry and the service operations around it.
 * Each operation runs as one atomic step; the locking that makes it so is not
 * modelled. The collaborators a step consults (the adapter catalog, the adapter
 * layer, the message bus) are parameters carrying their answers.
 */
module Registry {
  import opened Wrappers
  import opened Context
  import opened Lifecycle

  /** The messages a step hands to the message bus: none, or the one it published. */
  function Sent(notice: Option<Notification>): seq<Notification>
  {
    if notice.Some? then [notice.value] else []
  }

  class ConnectionRegistry {
    /** User name to connection code to context. */
    var users: Users
    /** The change messages the message bus accepted, oldest first. */
    var published: seq<Notification>

    ghost predicate Valid()
      reads this
    {
      WellFormed(users)
    }

    /** The registry at process start: empty. */
    constructor ()
      ensures Valid()
      ensures users == map[] && published == []
    {
      users := map[];
      published := [];
    }

    /** Publishes the change message for `ctx`; `publish` is the bus's answer. */
    method SendChangeMessage(ctx: Ctx, publish: PublishResult) returns (err: Option<string>)
      modifies this`published
      ensures err == (if publish.PublishFailed? then Some(publish.message) else None)
      ensures published == old(published) + (if publish.Published? then [NoticeOf(ctx)] else [])
    {
      match publish
      case PublishFailed(e) =>
        err := Some(e);
      case Published =>
        published := published + [NoticeOf(ctx)];
        err := None;
    }

    /** Connects the session's user under `code`, as specified by ConnectSpec. */
    method Connect(
      session: Session, code: string, host: string, spec: ConnectionSpec,
      adapters: map<string, Adapter>, newCtxError: Option<string>,
      adapterReply: Result<ConnectOutcome, string>, authUrl: string, publish: PublishResult)
      returns (r: Result<ConnectionResult, ServiceError>)
      requires Valid()
      modifies this
      ensures Valid()
      ensures
        var s := ConnectSpec(old(users), session.username, code, host, spec, adapters,
                             newCtxError, adapterReply, authUrl, publish);
        r == s.reply && users == s.users && published == old(published) + Sent(s.notice)
    {
      var user := session.username;
      ghost var before := users;
      var uc: map<string, Ctx>;
      if user in users {
        uc := users[user];
      } else {
        uc := map[];
        users := users[user := uc];
      }
      assert users == Touch(before, user) && uc == UserEntry(before, user);

      if code in uc {
        var current := uc[code];
        if current.status == Connected {
          return Success(ConnectionResult(Some(Connected), None, "Already connected"));
        }
        if current.status == Connecting {
          return Success(ConnectionResult(Some(Connecting), None, "Still connecting"));
        }
      }

      if spec.systemCode !in adapters {
        return Failure(NotFound("System not found: " + spec.systemCode));
      }
      var ad := adapters[spec.systemCode];

      if newCtxError.Some? {
        return Success(ConnectionResult(Some(Error), None, newCtxError.value));
      }
      var ctx := NewContext(user, code, host, ad);

      assert !ShortCircuits(before, user, code);
      // stored before the adapter runs, replacing any earlier context for the code
      users := Store(users, user, code, ctx);

      var res := ConnectionResult(Some(Error), Some(ActionNone), "");

      // the adapter updates the stored context in place
      var outcome: ConnectOutcome;
      match adapterReply {
        case Failure(e) =>
          ctx := ctx.(status := Error);
          users := Store(users, user, code, ctx);
          StoreTwice(Touch(before, user), user, code, NewContext(user, code, host, ad), ctx);
          return Success(res.(message := e));
        case Success(o) =>
          outcome := o;
      }
      ctx := ctx.(status := StatusAfter(outcome));
      users := Store(users, user, code, ctx);
      StoreTwice(Touch(before, user), user, code, NewContext(user, code, host, ad), ctx);

      var err := SendChangeMessage(ctx, publish);
      if err.Some? {
        return Success(ConnectionResult(None, None, err.value));
      }

      match outcome {
        case OutcomeConnected =>
          res := res.(status := Some(Connected));
        case OutcomeOpenUrl =>
          res := res.(status := Some(Connecting), action := Some(ActionOpenUrl), message := authUrl);
        case OutcomeProxyUrl =>
          res := res.(status := Some(Connecting), action := Some(ActionOpenUrl), message := ProxyLoginUrl(user, code));
      }
      return Success(res);
    }

    /** Disconnects the session's user's connection `code`, as specified by DisconnectSpec. */
    method Disconnect(session: Session, code: string, publish: PublishResult) returns (err: Option<ServiceError>)
      requires Valid()
      modifies this
      ensures Valid()
      ensures
        var s := DisconnectSpec(old(users), session.username, code, publish);
        err == s.reply && users == s.users && published == old(published) + Sent(s.notice)
    {
      var user := session.username;
      if user !in users {
        return Some(NotFound("Connection not found for user: " + user));
      }
      var uc := users[user];
      if code !in uc {
        return Some(NotFound("Connection not found: " + code));
      }
      var ctx := uc[code];
      if ctx.status == Disconnected {
        return None;
      }

      var sendErr := SendChangeMessage(ctx, publish);
      if sendErr.Some? {
        return Some(ServerError(sendErr.value));
      }

      // the adapter's own disconnect runs after the removal; its error is discarded
      users := Remove(users, user, code);
      return None;
    }

    /** The listing of the session user's connections, one line per context, in any order. */
    method GetConnections(session: Session) returns (list: seq<ConnectionInfo>)
      requires Valid()
      ensures forall x :: x in list <==> x in Infos(users, session.username)
      ensures Distinct(list)
      ensures |list| == |UserEntry(users, session.username)|
      ensures session.username !in users ==> list == []
    {
      list := [];
      var user := session.username;
      if user in users {
        var uc := users[user];
        var todo := uc.Keys;
        while todo != {}
          invariant todo <= uc.Keys
          invariant forall x :: x in list <==> x in InfosIn(uc, uc.Keys - todo)
          invariant forall x :: x in list ==> x.connectionCode in uc.Keys - todo
          invariant Distinct(list)
          invariant |list| == |uc.Keys| - |todo|
          decreases todo
        {
          var c :| c in todo;
          var info := InfoOf(uc[c]);
          assert info.connectionCode == c;
          InfosInAdd(uc, uc.Keys - todo, c);
          list := list + [info];
          todo := todo - {c};
        }
        assert uc.Keys - todo == uc.Keys;
        assert |uc.Keys| == |uc|;
      }
    }

    /**
     * Every context, across all users, that the adapter's refresh policy
     * `needsRefresh` flags at scan time; each once, in any order.
     */
    method GetConnectionsToRefresh(needsRefresh: Ctx -> bool) returns (list: seq<Ctx>)
      requires Valid()
      ensures forall x :: x in list <==> x in RefreshCandidates(users, needsRefresh)
      ensures Distinct(list)
    {
      list := [];
      var todo := users.Keys;
      while todo != {}
        invariant todo <= users.Keys
        invariant forall x :: x in list <==> x in CandidatesIn(users, users.Keys - todo, needsRefresh)
        invariant forall x :: x in list ==> x.username in users.Keys - todo
        invariant Distinct(list)
        decreases todo
      {
        var u :| u in todo;
        var uc := users[u];
        var codes := uc.Keys;
        while codes != {}
          invariant codes <= uc.Keys
          invariant forall x :: x in list <==>
            x in CandidatesIn(users, users.Keys - todo, needsRefresh) || x in FlaggedIn(uc, uc.Keys - codes, needsRefresh)
          invariant forall x :: x in list ==>
            x.username in users.Keys - todo || (x.username == u && x.connectionCode in uc.Keys - codes)
          invariant Distinct(list)
          decreases codes
        {
          var c :| c in codes;
          var ctx := uc[c];
          assert ctx.username == u && ctx.connectionCode == c;
          assert uc.Keys - (codes - {c}) == (uc.Keys - codes) + {c};
          FlaggedInAdd(uc, uc.Keys - codes, c, needsRefresh);
          if needsRefresh(ctx) {
            list := list + [ctx];
          }
          codes := codes - {c};
        }
        CandidatesAddUser(users, users.Keys - todo, u, needsRefresh);
        assert users.Keys - (todo - {u}) == (users.Keys - todo) + {u};
        todo := todo - {u};
      }
      assert users.Keys - todo == users.Keys;
    }

    /**
     * The context a delegated query runs against: it is looked up under the
     * session's on-behalf-of user.
     */
    function GetConnectionContext(session: Session, code: string): (r: Result<Ctx, ServiceError>)
      reads this
      requires Valid()
      ensures r == Lookup(users, session.onBehalfOf, code)
      ensures r.Success? ==> r.value.username == session.onBehalfOf && r.value.connectionCode == code
    {
      Lookup(users, session.onBehalfOf, code)
    }

    /**
     * The context TestAdapter runs against: it is looked up under the session's
     * acting user.
     */
    function TestAdapterContext(session: Session, code: string): (r: Result<Ctx, ServiceError>)
      reads this
      requires Valid()
      ensures r == Lookup(users, session.username, code)
      ensures r.Success? ==> r.value.username == session.username && r.value.connectionCode == code
    {
      Lookup(users, session.username, code)
    }
  }
}
