# Request/response correlation in the go-jsonrpc client

This project models the core of `client.go` from go-jsonrpc: the bookkeeping
that matches asynchronous responses to the requests that caused them. It
covers the client's `closed` flag, its in-flight table from request id to
future, and the futures themselves. It models the four operations on that
state: `SendAsync`, one iteration of the `readResponses` loop, `Close` and
`Connect`. `NewClient`, `Send` and `SendContext` are modelled as the thin
wrappers they are.

The project is in three modules:

- `Correlation` (correlation.dfy) describes the client's state as a value
  (`ClientState`) and each operation as a function from the old state to the
  new one. A future is a `Slot` that records every `Set` made on it. Its
  observers are assumed to receive the first outcome set (see "Left out"). The futures live in a store
  (`slots`), and the in-flight table names them by index (`SlotRef`), the way
  the table and the caller share one pointer in Go. `Valid` is the invariant
  every operation keeps. `Extends` says that one state is a later one than
  another.
- `Jsonrpc` (client.dfy) holds the class `Client`. Its fields are `closed`,
  `connected` (for `conn != nil`), `inFlight` and `slots`, plus the ghost log
  `written` of the request ids handed to `conn.Write`. Its methods update them
  in place. `Close` walks the table with a loop, as `Range` does.
  `ReadResponses` is the `for !closed` loop. Each method's postcondition
  says that the new state is the one the matching `Correlation` function gives.
- `Properties` (properties.dfy) proves properties over any sequence of calls
  and works through the scenarios the client is meant to handle.

The model follows the code where it departs from the intended design of a
client that releases every caller exactly once:

- A response whose id is not in the table is logged and then type-asserted
  on a missing value (client.go:76-81). That is a panic, not a skip. The
  model's read step returns `Panic`, and `ReadResponses` requires that no
  read in its script panics. For example, a response delivered twice panics
  on the second delivery.
- A failed write sets the future's outcome but leaves its entry in the table
  (client.go:126-131). That future is then set a second time, either by a
  later `Close` or by a response that still finds the entry (client.go:75-81).
  The invariant shows that a future is set at most twice, and a second time
  only after a first `Set` with an error. The only future that is still in
  the table of an open client after a `Set` is one whose write failed.
  With the first-`Set`-wins assumption below, its observers keep the write error.
- `Close` sets `ErrClosed` on every future in the table but deletes no entry
  (client.go:88-91).
- `Connect` does not check that the client is unconnected or open. It
  installs an empty table, which drops every entry still in flight. The
  futures of those entries stay pending, even after `Close`. A second
  `SendAsync` with the same id does the same to the first future
  (client.go:126 overwrites the entry).

## Model

| member | source | states |
|---|---|---|
| Correlation.Slot.Set | client.go:81 | `future.Set`: the future keeps its request, gains exactly one more `Set` on top of its earlier history, and a pending future becomes resolved with the outcome. What a resolved future's observers see stays the same, by the first-`Set`-wins assumption. It stands for every `Set` call (client.go:81, 89, 121, 130) |
| Correlation.NewClient | client.go:40-44 | A new client is open and unconnected, with an empty table, and satisfies the invariant |
| Correlation.Connect | client.go:46-59 | A failed dial returns its error and changes nothing. A successful dial installs an empty table and marks the client connected. `closed`, the futures and the writes are never touched |
| Correlation.SendAsync | client.go:112-134 | The new future is fresh and belongs to the request. On a closed client it is already resolved with `ErrClosed`, and the table and the writes are unchanged. On an open client exactly one entry, keyed by the id, is added or replaced, and no other entry changes. The id is written. The future holds the write error if the write failed and is pending otherwise. Earlier futures are unchanged |
| Correlation.SendAsyncKeepsValid | client.go:112-134 | `SendAsync` keeps the invariant |
| Correlation.Close | client.go:85-96 | The client ends up closed. The first call returns no error and sets `ErrClosed` once on the future of every table entry. The table, the connection, the writes and every other future stay the same. A call on a closed client returns `ErrClosed` and changes nothing |
| Correlation.CloseKeepsValid | client.go:85-96 | `Close` keeps the invariant, and afterwards no future left in the table is pending |
| Correlation.ReadStep | client.go:61-83 | One iteration of the loop on an open client. It panics exactly when a response's id is not in the table. An `ErrClosed` read leaves the loop in the state `Close` produces. A response removes exactly its own entry and sets itself on that entry's future, and every other entry and future stays the same |
| Correlation.ReadStepKeepsValid | client.go:61-83 | A step of the read loop that does not panic keeps the invariant |
| Correlation.RunReads | client.go:61-83 | The loop does nothing on a closed client. It stops early only when the client is closed, and it is closed afterwards exactly when it was closed before, stopped early or ended on the `ErrClosed` read. It never writes, never adds a table entry, keeps the invariant and only extends the futures' histories. A panic happens only on a received response |
| Correlation.Select | client.go:104-109 | The call stays blocked exactly when the context is not done and the future is pending. A done context wins over a pending future. A resolved future's outcome is returned when the context is not done. Whatever is returned is the future's outcome or the context's error |
| Correlation.SendContext | client.go:102-110 | Changes the state exactly as `SendAsync` does. Without cancellation, a closed client yields `ErrClosed`, a failed write yields the write error, and otherwise the call blocks on the new future. An already cancelled context returns its error when nothing is ready yet |
| Correlation.Send | client.go:98-100 | Is `SendContext` with a context that is never cancelled. It blocks exactly when the client is open and the write succeeded, and on a closed client it returns `ErrClosed` |
| Correlation.Apply | client.go:46-134 | Every single call that does not crash makes a later state: futures keep their histories, writes stay, and `closed` never goes back to false |
| Properties.ApplyKeepsValid | client.go:46-134 | Every single call that does not crash keeps the invariant |
| Properties.ExecKeepsValid | client.go:46-134 | Any sequence of calls that does not crash keeps the invariant and ends in a later state |
| Properties.ClosedStaysClosed | client.go:86 | Once closed, a client stays closed through any sequence of calls |
| Properties.OutcomeIsFinal | client.go:81 | Once a future is resolved, what its observers receive never changes, through any sequence of calls. This assumes the first `Set` wins |
| Properties.FuturesGetTheirOwnResponses | client.go:75-81 | From a new client, every future is set at most twice, a second time only after a first `Set` with an error, and every response set on it, by the first `Set` or the second, carries its own request's id. This does not depend on which `Set` observers see |
| Properties.SecondCloseFails | client.go:85-96 | A second `Close` returns `ErrClosed` and leaves the state as the first one left it |
| Properties.DeliverResolves | client.go:75-81 | Delivering a response for a pending entry resolves that future with the response, removes only that entry and leaves other futures alone |
| Properties.RunContinues | client.go:62-82 | After an iteration that continues, the loop runs on the rest of the reads |
| Properties.TwoDeliveries | client.go:61-83 | Two pending requests answered in reverse order each get their own response, and both entries leave the table |
| Properties.ResponsesOutOfOrder | client.go:112-134 | Two requests sent in one order and answered in the other each get their own response, and both entries leave the table |
| Properties.SendReturnsItsResponse | client.go:98-110 | `Send` blocks on its future, and once the matching response is read the wait returns that response |
| Properties.CloseReleasesWaitingSend | client.go:85-110 | A `Send` still waiting when `Close` runs returns `ErrClosed` |
| Properties.ConnectionClosedReleasesAll | client.go:67-70 | An `ErrClosed` read closes the client through `Close` after one read, and every future pending in the table then holds `ErrClosed` |
| Properties.FailedWriteIsSetAgainByClose | client.go:126-131 | After a failed write and a `Close`, the entry is still in the table and its future has been set twice, first with the write error and then with `ErrClosed`. Observers see the write error |
| Properties.FailedWriteIsSetAgainByResponse | client.go:126-131 | After a failed write, a response for the same id still finds the entry. Reading it removes the entry and sets the future a second time on an open client, first with the write error and then with the response |
| Properties.DuplicateDeliveryPanics | client.go:75-81 | A response delivered twice panics on the second delivery |
| Properties.ReusedIdOrphansFuture | client.go:126 | After two sends with the same id, the first future is in no entry and stays pending after `Close` |
| Properties.ReconnectOrphansFutures | client.go:52-53 | `Connect` on a client with a pending request empties the table, and that future stays pending after `Close` |
| Jsonrpc.Client.constructor | client.go:40-44 | The new object's state is `NewClient()` |
| Jsonrpc.Client.Connect | client.go:46-59 | The new state and the result are those of `Correlation.Connect` |
| Jsonrpc.Client.SendAsync | client.go:112-134 | Stores the entry, then records the write outcome on the future. The new state and the future are those of `Correlation.SendAsync` |
| Jsonrpc.Client.SendContext | client.go:102-110 | The new state and the result are those of `Correlation.SendContext` |
| Jsonrpc.Client.Send | client.go:98-100 | Delegates to `SendContext` with a background context. The result is that of `Correlation.Send` |
| Jsonrpc.Client.Close | client.go:85-96 | Checks and sets `closed`, then walks the table. The new state and the result are those of `Correlation.Close` |
| Jsonrpc.Client.CancelInFlight | client.go:88-91 | A loop over the table's keys sets `ErrClosed` once on the future of each entry and on no other future |
| Jsonrpc.Client.Deliver | client.go:75-81 | Takes the entry out of the table and sets the response on its future. The new state is the `Continue` step of `ReadStep` |
| Jsonrpc.Client.ReadResponses | client.go:61-83 | The loop runs while the client is open and breaks after the `ErrClosed` read has closed it. Its final state and the number of reads it consumed are those of `RunReads` |

## Left out

- The goroutine started by `Connect` and every interleaving of `sync.Map` and `atomic.Bool` (client.go:35, 37, 56). The model is sequential and each method is atomic. `ReadResponses` is a method that the caller runs after `Connect`. A race between `SendAsync` and `Close` cannot be expressed.
- The `go-async` future (client.go:20) is not part of this model. A future is the list of its `Set` calls. That its observers receive the outcome of the first `Set` is an assumption about go-async that client.go does not show (`Slot.State`). `OutcomeIsFinal` and the "observers see the write error" parts of `FailedWriteIsSetAgainByClose` and `FailedWriteIsSetAgainByResponse` rest on that assumption. The `Set` history itself does not depend on it. Channels and waking waiters are not modelled; a wait either returns or is `Blocked`.
- Context cancellation in `SendContext` (client.go:104-109). A context is the error it reports once done. When both cases of the `select` are ready, Go picks one at random, and the model takes that choice as a parameter. Waiting over time is not modelled.
- Id generation with nanoid and `Request.EnsureId` / `Response.Id` (client.go:15, 114). These are external, so the request id is a parameter. A response carries its id as a field.
- The `Dialer` and `Connection` transport (client.go:47, 64, 129). The outcomes of `Dial`, `Read` and `Write` are inputs. The requests handed to `Write` are a ghost log of ids, and request payloads are not modelled.
- The logrus logging (client.go:54, 73, 77-79). It never affects control flow.
- Correlation.ReadStep: a read error other than `ErrClosed` is excluded by a precondition (`Covered`). After logging it, the loop goes on to use the response it did not get (client.go:72-75). What happens then depends on the `Connection` implementation.
- Correlation.RunReads: the script of reads is finite. The real loop blocks on `Read` until the connection reports `ErrClosed`. Every read in the script must be covered, including reads the loop never reaches.
- Correlation.SendAsync: calling it on an open client that never connected is excluded by a precondition. In Go it writes to a nil connection and panics.
- Jsonrpc.Client.ReadResponses: a script that makes the loop panic is excluded by a precondition. The panic itself is modelled as `Panic` in `Correlation.ReadStep` and `Panicked` in `Correlation.RunReads`.
- `ErrClosed` is the only error the model tells apart (client.go:17). Every other error is an opaque `Failure`.
