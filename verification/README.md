# Connection registry of the system adapter, modelled in Dafny

The system adapter is a connection broker. Users connect to external trading and
market-data systems through pluggable adapters. Each user may hold several
connections at once, each under a connection code of their choosing. The broker
keeps every connection in one in-memory registry: a map from user name to that
user's connection contexts, keyed by connection code
(`pkg/business/connection.go`).

This project models that registry and the operations that change or read it:

- **Connect** is a small state machine. It returns early for a context that is
  already live. It fails with not-found for an unknown system code. Otherwise it
  builds a new context and stores it, and only then calls the adapter. The
  adapter's three-way outcome (Connected, OpenUrl, ProxyUrl) becomes the reply.
  A change message is published before the reply.
- **Disconnect** returns not-found for a missing user or code. It does nothing for
  a context that is already disconnected. Otherwise it publishes the change
  first and removes the entry only if the publish succeeded.
- **GetConnections** lists the caller's connections.
- **GetConnectionsToRefresh** scans every user's contexts and keeps those the
  adapter says need a refresh.
- **Two lookups** come before the adapter queries. `getConnectionContext`
  resolves against the session's on-behalf-of user. `TestAdapter` resolves
  against the acting user.

Files:

- `wrappers.dfy`: Option and Result.
- `context.dfy`: contexts, sessions, requests and replies. It also holds the
  mapping from the adapter's connect outcome to a reply, and the broker-hosted
  login URL.
- `lifecycle.dfy`: the registry as a value (`Users`). Connect and Disconnect
  are specified here as functions (`ConnectSpec`, `DisconnectSpec`). Each maps
  the old registry and the collaborators' answers to the reply, the new registry
  and the change message published. Lemmas relate several calls.
- `registry.dfy`: the class `ConnectionRegistry`. Its field `users` is the
  map-of-maps. Its field `published` holds the change messages the bus
  accepted. `Connect` and `Disconnect` are imperative methods that update the
  map in place and are proved equal to the specification functions. The two
  listings are loops over the maps, proved against set-valued specifications.

Collaborators outside the file are parameters that carry their answers:

- the adapter catalog (`adapters`);
- whether building the context fails (`newCtxError`);
- the adapter's connect outcome or error (`adapterReply`);
- the adapter's authorization URL (`authUrl`);
- the message bus's answer (`publish`);
- the caller's originating host (`host`, kept opaque);
- the adapter's refresh policy (`needsRefresh`, a function on contexts), asked
  during the scan as `ctx.NeedsRefresh()` is at
  `pkg/business/connection.go:83`.

The adapter package (`pkg/adapter`) is not part of this model. The model makes
two assumptions about it:

- a freshly built context is Disconnected;
- the adapter's connect sets the context to Connected for a Connected outcome,
  to Connecting for OpenUrl and ProxyUrl, and to Error when it fails.

In the Go code the stored context is a pointer that the adapter updates. The
model writes the updated value back into the map.

Invariant: every stored context carries the user name and the code it is
stored under (`Lifecycle.WellFormed`, kept as `ConnectionRegistry.Valid`).

Two behaviours of the code are worth noting, because a reader might expect
otherwise:

- Connect whose change message cannot be published returns a reply and no
  error. The reply carries only the bus's error message; status and action are
  left at their zero values (`None` here), so the failure does not surface as
  a server error. The stored context stays, and it is live, so a repeated Connect is
  answered early (`RepeatedConnectShortCircuits`).
- Disconnect of a pair with no entry is not-found, not a success no-op. So a
  second Disconnect after a successful one is not-found
  (`DisconnectAfterConnectRemoves`).

## Model

| member | source | states |
|---|---|---|
| `Lifecycle.Touch` | pkg/business/connection.go:117-124 | Connect first gives the user an entry (an empty one if missing). No context changes. No other user gains one. The well-formedness invariant is kept. |
| `Lifecycle.Store` | pkg/business/connection.go:157-160 | Storing a context under (user, code) makes the lookup for that pair return it. It replaces any earlier context. Every other pair is unchanged, and the invariant is kept. |
| `Lifecycle.Remove` | pkg/business/connection.go:226 | Deleting (user, code) leaves the pair absent and every other pair unchanged. User entries all stay, and the invariant is kept. |
| `Lifecycle.Lookup` | pkg/business/connection.go:349-366 | The lookup before a query succeeds exactly when the user has an entry holding the code, and then returns that context. Otherwise it is not-found. The message names the user when the user is missing, and the code when the code is missing. |
| `Lifecycle.ConnectSpec` | pkg/business/connection.go:112-197 | After Connect the user always has an entry, and no other (user, code) pair changes. A live context (Connected, Connecting) gets "Already connected" or "Still connecting" with its status; nothing changes and nothing is published. An unknown system code gives not-found and leaves the pair untouched. A failed build gives status Error with the message and stores nothing. Otherwise the new context is stored, whatever the adapter answers. An adapter error gives status Error, action None, the message, and no publish. A failed publish gives a reply with only the message, and the entry stays. A successful publish gives the mapped outcome and announces the stored context. |
| `Context.OutcomeResult` | pkg/business/connection.go:180-194 | After a successful publish, the reply's status is the status now stored in the context. The action is OpenUrl exactly when the handshake is pending. Connected gives action None and an empty message. OpenUrl gives the adapter's auth URL. ProxyUrl gives the broker-hosted login URL. |
| `Context.StatusAfter` | pkg/business/connection.go:180-194 | Every outcome leaves the context live. It is Connected exactly for the Connected outcome, and Connecting for the other two. |
| `Context.ProxyLoginUrl` | pkg/business/connection.go:189-193 | The proxied login URL is the fixed prefix, then the user, a slash, the code and "/login": each segment is stated at its position. |
| `Context.ProxyLoginUrlInjective` | pkg/business/connection.go:193 | For user names without a slash, two equal proxied login URLs were built for the same user and code. |
| `Lifecycle.DisconnectSpec` | pkg/business/connection.go:201-230 | A missing user or code gives not-found, and nothing changes or is published. An already disconnected context gives success and stays. For a live context the change is published first. A publish failure gives a server error with the bus's message and keeps the entry. Otherwise exactly (user, code) is removed, success is returned and the context's state is announced. No other pair changes. |
| `Lifecycle.RepeatedConnectShortCircuits` | pkg/business/connection.go:126-178 | After a Connect whose reply says Connected or Connecting, or whose publish failed, a second Connect for the same pair is answered early, whatever its other inputs. It makes no change and publishes nothing. |
| `Lifecycle.ConnectAfterErrorRebuilds` | pkg/business/connection.go:126-171 | A context left in Error by a failed adapter connect does not short-circuit. The next Connect with a known system replaces it with a freshly built context. |
| `Lifecycle.DisconnectAfterConnectRemoves` | pkg/business/connection.go:201-230 | Disconnect removes a context that Connect stored, and announces it. The lookup is then not-found, and so is a second Disconnect. Other pairs are as before the Connect. |
| `Lifecycle.DisconnectDropsRefreshCandidate` | pkg/business/connection.go:221-229 | Under any refresh policy, a successful Disconnect removes exactly the disconnected context from the refresh candidates. |
| `Lifecycle.OtherUsersListingUnchanged` | pkg/business/connection.go:53-68 | Connect and Disconnect for one user leave every other user's listing unchanged. |
| `Lifecycle.CandidatesAddUser` | pkg/business/connection.go:81-87 | Scanning one more user adds exactly that user's flagged contexts. |
| `Registry.ConnectionRegistry.constructor` | pkg/business/connection.go:38-41 | The registry starts empty. |
| `Registry.ConnectionRegistry.SendChangeMessage` | pkg/business/connection.go:330-345 | The change message carries the context's user, code, system code and status. It is added to the published messages exactly when the bus accepts it. Otherwise the bus's error is returned. |
| `Registry.ConnectionRegistry.Connect` | pkg/business/connection.go:112-197 | The in-place Connect returns the reply of `ConnectSpec` and leaves its registry. It adds its change message to the published ones, and keeps the invariant. |
| `Registry.ConnectionRegistry.Disconnect` | pkg/business/connection.go:201-230 | The in-place Disconnect returns the error of `DisconnectSpec` and leaves its registry. It adds its change message to the published ones, and keeps the invariant. |
| `Registry.ConnectionRegistry.GetConnections` | pkg/business/connection.go:49-71 | The listing holds exactly the lines of the caller's contexts, with one line per context and no repeats. It is empty when the caller has no entry. |
| `Registry.ConnectionRegistry.GetConnectionsToRefresh` | pkg/business/connection.go:75-90 | The list holds exactly the contexts, across all users, that the adapter's refresh policy flags, each once. |
| `Registry.ConnectionRegistry.GetConnectionContext` | pkg/business/connection.go:349-366 | The query lookup resolves against the on-behalf-of user, and is not-found when that user or the code is missing. A context it returns belongs to that user and code. |
| `Registry.ConnectionRegistry.TestAdapterContext` | pkg/business/connection.go:305-319 | TestAdapter's lookup resolves against the acting user, and is not-found when that user or the code is missing. A context it returns belongs to that user and code. |

## Left out

- Locking (the registry's reader/writer mutex): each operation is one atomic step, and concurrent interleavings are not modelled.
- The message bus and logging in `sendConnectionChangeMessage`: replaced by the bus's answer as an input. Accepted messages are recorded in `published`.
- The adapter package (building a context, connect, disconnect, status, refresh policy, auth URL): its answers are inputs, and its effect on a context's status is the one assumed above. Later status changes made by the adapter outside these operations are not modelled, such as an external login callback finishing a handshake. The refresh policy is a function of the context's registry value, so adapter-internal state it may depend on (token expiry) is folded into that function.
- The adapter's own disconnect call in Disconnect: its error is discarded by the code, so the model has no input for it.
- The two parameter bags of the connection spec: they are only forwarded to the adapter, and are carried but unused.
- The originating host: carried into the context as an opaque string.
- The payloads of GetRootSymbols, GetRootSymbol, GetInstruments, GetPriceBars, GetAccounts and the adapter call of TestAdapter: these are calls into the adapter. Only the lookup before them is modelled.
- GetConnectionContextByInstanceCode, GetOrders and GetPositions: stubs with no behaviour.
- The filter, offset and limit parameters of GetConnections: the code ignores them.
- Iteration order of Go maps: the listings are specified up to order.
- Pointer identity of contexts: contexts are values, so aliasing between the registry and a caller holding a context is not captured.
