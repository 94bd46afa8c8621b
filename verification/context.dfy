/**
 * Value types of the connection broker: connection contexts, the adapter catalog
 * entries, the requests and replies that cross the service boundary, and the
 * mapping of an adapter's three-way connect outcome onto a connection result.
 */
module Context {
  import opened Wrappers

  /** Status of a connection context. */
  datatype Status = Disconnected | Connecting | Connected | Error

  /** A catalog entry: the code and display name an adapter reports about itself. */
  datatype Adapter = Adapter(code: string, name: string)

  /**
   * One connection context, bound to a user and a connection code. The host is the
   * caller's originating host, kept opaque. Whether a context needs a refresh is
   * the adapter's policy, asked at scan time; it is no field here.
   */
  datatype Ctx = Ctx(
    username: string,
    connectionCode: string,
    host: string,
    systemCode: string,
    systemName: string,
    status: Status)

  /** A context is live while it is connected or still connecting. */
  predicate IsLive(ctx: Ctx)
  {
    IsLiveStatus(ctx.status)
  }

  /** The authenticated session: the acting user and the user it acts on behalf of. */
  datatype Session = Session(username: string, onBehalfOf: string)

  /** What the caller asks to connect to; the two parameter bags go to the adapter. */
  datatype ConnectionSpec = ConnectionSpec(
    systemCode: string,
    configParams: map<string, string>,
    connectParams: map<string, string>)

  /** The three outcomes of an adapter's connect primitive. */
  datatype ConnectOutcome = OutcomeConnected | OutcomeOpenUrl | OutcomeProxyUrl

  datatype Action = ActionNone | ActionOpenUrl

  /**
   * The reply of Connect. `None` in `status` or `action` stands for a field the
   * service leaves at its zero value.
   */
  datatype ConnectionResult = ConnectionResult(status: Option<Status>, action: Option<Action>, message: string)

  /** The typed errors of the service boundary. */
  datatype ServiceError = NotFound(message: string) | ServerError(message: string)

  /** The payload of a connection-change message. */
  datatype Notification = Notification(username: string, connectionCode: string, systemCode: string, status: Status)

  /** One line of the connection listing. */
  datatype ConnectionInfo = ConnectionInfo(username: string, connectionCode: string, systemCode: string, systemName: string)

  /** What the message bus answered to a publish. */
  datatype PublishResult = Published | PublishFailed(message: string)

  const PROXY_LOGIN_PREFIX: string := "https://tradalia-server:8449/api/system/v1/weblogin/"
  const PROXY_LOGIN_SUFFIX: string := "/login"

  /** The broker-hosted login page for a proxied login of `user`'s connection `code`. */
  function ProxyLoginUrl(user: string, code: string): (url: string)
    ensures |url| == |PROXY_LOGIN_PREFIX| + |user| + 1 + |code| + |PROXY_LOGIN_SUFFIX|
    ensures url[..|PROXY_LOGIN_PREFIX|] == PROXY_LOGIN_PREFIX
    ensures url[|PROXY_LOGIN_PREFIX|..|PROXY_LOGIN_PREFIX| + |user|] == user
    ensures url[|PROXY_LOGIN_PREFIX| + |user|] == '/'
    ensures url[|PROXY_LOGIN_PREFIX| + |user| + 1..|url| - |PROXY_LOGIN_SUFFIX|] == code
    ensures url[|url| - |PROXY_LOGIN_SUFFIX|..] == PROXY_LOGIN_SUFFIX
  {
    PROXY_LOGIN_PREFIX + user + "/" + code + PROXY_LOGIN_SUFFIX
  }

  /**
   * For user names without a slash, the proxied login URL identifies the
   * connection it was built for.
   */
  lemma ProxyLoginUrlInjective(u1: string, c1: string, u2: string, c2: string)
    requires '/' !in u1 && '/' !in u2
    requires ProxyLoginUrl(u1, c1) == ProxyLoginUrl(u2, c2)
    ensures u1 == u2 && c1 == c2
  {
  }

  /** The status the adapter gives a context once its connect primitive returned `outcome`. */
  function StatusAfter(outcome: ConnectOutcome): (s: Status)
    ensures IsLiveStatus(s)
    ensures s == Connected <==> outcome == OutcomeConnected
  {
    match outcome
    case OutcomeConnected => Connected
    case OutcomeOpenUrl => Connecting
    case OutcomeProxyUrl => Connecting
  }

  /** A status is live while connected or still connecting. */
  predicate IsLiveStatus(s: Status)
  {
    s == Connected || s == Connecting
  }

  /**
   * The reply to a connect whose adapter call and change message both succeeded.
   * Its status is the status now stored in the context, and the caller is sent to
   * a login page exactly when the handshake is still pending.
   */
  function OutcomeResult(outcome: ConnectOutcome, user: string, code: string, authUrl: string): (r: ConnectionResult)
    ensures r.status == Some(StatusAfter(outcome))
    ensures r.action == Some(ActionOpenUrl) <==> StatusAfter(outcome) == Connecting
    ensures r.action.Some?
    ensures outcome == OutcomeConnected ==> r.message == ""
    ensures outcome == OutcomeOpenUrl ==> r.message == authUrl
    ensures outcome == OutcomeProxyUrl ==> r.message == ProxyLoginUrl(user, code)
  {
    var base := ConnectionResult(Some(Error), Some(ActionNone), "");
    match outcome
    case OutcomeConnected => base.(status := Some(Connected))
    case OutcomeOpenUrl => base.(status := Some(Connecting), action := Some(ActionOpenUrl), message := authUrl)
    case OutcomeProxyUrl => base.(status := Some(Connecting), action := Some(ActionOpenUrl), message := ProxyLoginUrl(user, code))
  }
}
