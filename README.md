# Vitess client bookkeeping, modelled in Dafny

This project models five pieces of Vitess (Go and Python) and proves properties of the models:

- **The vtctld tablet health cache** (`go/cmd/vtctld/tablet_data.go`), in `tablet_data.dfy`. The cache maps a tablet alias to a health record.
  - A `Get` that misses creates the record. It also starts a stream that stores every health response it receives.
  - The stream stops once nobody has read the record for `tablet_health_keep_alive` (5 minutes). A stream that ends removes its alias from the map.
  - Readers wait until the record is ready (it holds a first result) or done (its stream ended).
- **The vtgate client API** (`go/vt/vtgate/vtgateconn/vtgateconn.go`), in `vtgateconn.dfy`. It covers:
  - the session kept by a transaction (`VTGateTx`);
  - `Begin` and `Close` of a connection;
  - the forwarders of a connection;
  - the registry of vtgate protocol dialers, and `DialProtocol`.
- **The go rpc implementation of that API** (`go/vt/vtgate/gorpcvtgateconn/conn.go`), in `gorpcvtgateconn.dfy`. It covers:
  - which network an address is dialed on;
  - how the RPC outcome and the error fields of a reply decide the result, the error and the returned session.
- **The vttablet dialer registry** (`go/vt/tabletserver/tabletconn/tablet_conn.go`), in `tablet_conn.dfy`. Registering a name twice is fatal there. The file also holds the error-code constants.
- **The Python vttablet client** (`py/vtdb/tablet.py`), in `vtdb_tablet.dfy`. It covers:
  - error classification: `handle_app_error`, `convert_exception` and `rpc_call_and_extract_error`;
  - the transaction and session ids of a `TabletConnection`;
  - its streaming row cursor `_stream_next`, and row conversion `_make_row`.

`wrappers.dfy`, `errors.dfy` and `strings.dfy` hold the shared types:
- `Option` and `Result`;
- Go error values;
- Python's `str.find`, `s[:k]`, ASCII `lower()` and `int()` of a digit string.

State the source changes in place is a Dafny `class`: the health record and the cache, `VTGateTx`, `VTGateConn`, both dialer maps and `TabletConnection`. The methods with real logic are proved against pure functions that specify them, and the properties are lemmas about those functions:
- `Loop` and `StreamRun` specify the health stream. `TabletHealth.Stream` and `Pump` meet them, and the cache's `Get`, `StreamTask` and `ResumeStream` state each record's new state through them.
- `TxStep` and `TxRun` specify the transaction.
- `BeginSpec` and `FinishSpec` specify the Python transaction ids.
- `StreamNextSpec` and `Calls` specify the cursor.

The other state-changing methods state their new fields directly. These are the cache's `Delete`, `Begin`, `Begin2` and `Close` of `VTGateConn`, both `RegisterDialer`s, and `TabletConnection.StartStream` and `Close`.

Concurrency becomes one sequential interleaving:
- The `ready` and `done` channels become booleans.
- Each locked section becomes one method body.
- What the health stream receives becomes a sequence of events, together with the reads that happen between its iterations.
- When Go's `select` finds several cases ready, the choice is an explicit `preferCtx` input.

Collaborators the code calls become inputs, each given as an outcome: a reply or an error. These are `topo.Server.GetTablet`, the tablet dialer, `StreamHealth`, the rpc client, `bsonrpc`, the vtgate `Impl` and the Python RPC client. Each call made to a vtgate `Impl` is recorded in a ghost log.

The clock is an integer count of nanoseconds.

The session a `VTGateTx` holds is an `interface{}`, modelled as `SessionValue`. Its nil checks see only the interface. The go rpc implementation returns the server's `*proto.Session` inside a non-nil interface even when that pointer is nil. A transaction whose server drops the session therefore stays open on the client side, and later calls reach the server with no session (`NilServerSessionKeepsTransactionOpen`).

The cache deletes by key (`go/cmd/vtctld/tablet_data.go:163`). Each record carries, as a ghost field, the alias it was created for. The cache invariant `TabletHealthCache.Valid` shows that deleting by key is safe: a record whose stream is live is always the one mapped under its own alias. No second record for that alias can exist until the first stream has ended.

## Model

| member | source | states |
|---|---|---|
| TabletData.Initial | go/cmd/vtctld/tablet_data.go:40-46 | A new record is consistent and accessed at its creation time. A reader with a live context blocks on it. |
| TabletData.AfterAwait | go/cmd/vtctld/tablet_data.go:57-61 | lastResult changes only the access time, and only when it gets past the select. It keeps the record consistent. Right after such a read the record is not idle. |
| TabletData.Idle | go/cmd/vtctld/tablet_data.go:101 | The loop can only find a record idle at a time strictly after its last access. |
| TabletData.Finish | go/cmd/vtctld/tablet_data.go:72-77 | The deferred exit stores the error and closes done, and leaves the result, ready and accessed alone. It keeps a record consistent. Every live reader then gets the stored result with that error. |
| TabletData.ExitError | go/cmd/vtctld/tablet_data.go:103-108 | A done context ends the stream with ctx.Err(), which is never nil. A closed stream ends it with what errFunc() returns. |
| TabletData.Await | go/cmd/vtctld/tablet_data.go:48-62 | lastResult blocks exactly when the context is live and neither ready nor done is closed. A done context with no signal cancels with ctx.Err(). A signal returns the stored result and error. If the record is consistent and alive, a snapshot holds a result and a nil error. |
| TabletData.Loop | go/cmd/vtctld/tablet_data.go:100-122 | The stream loop is still running exactly when done is not closed. A running loop consumed every event and left err as it was, which is nil for a consistent record. An ended loop stored its returned error in err. |
| TabletData.LoopConsistent | go/cmd/vtctld/tablet_data.go:100-122 | The loop keeps the record invariant: ready implies a stored result, and err is set only once done. |
| TabletData.LoopExit | go/cmd/vtctld/tablet_data.go:101-108 | The loop ends only at an iteration. It ends idle (accessed KeepAlive or more ago) with a nil error. Otherwise it ends on a done context or a closed stream, with that case's error (ctx.Err() or errFunc()). |
| TabletData.LoopStoresLatest | go/cmd/vtctld/tablet_data.go:110-118 | Each response overwrites the stored one. Ready is closed exactly when some response has arrived. The record holds the latest response received. |
| TabletData.SetupError | go/cmd/vtctld/tablet_data.go:79-98 | Setup fails exactly when one of GetTablet, EndPoint, the dial or StreamHealth fails. It reports the first failure, in that order. |
| TabletData.StreamRun | go/cmd/vtctld/tablet_data.go:71-123 | A failed setup stores its error and closes done without consuming events. Otherwise the run is the loop. |
| TabletData.SetupFailureEndsUnready | go/cmd/vtctld/tablet_data.go:72-98 | After a failed setup, ready is never closed. Every live reader gets a nil result with the setup error. |
| TabletData.ReaderSeesLatest | go/cmd/vtctld/tablet_data.go:48-62 | While the stream runs after at least one response, a reader gets the latest response received and a nil error. |
| TabletData.IdleExitIsClean | go/cmd/vtctld/tablet_data.go:101 | The keep-alive test comes before every receive. An idle record ends its stream with a nil error, whatever the select would deliver. |
| TabletData.AccessKeepsStreamAlive | go/cmd/vtctld/tablet_data.go:60-101 | A read resets the access time (line 60). The next loop head within KeepAlive of it does not end the stream. |
| TabletData.TabletHealth.constructor | go/cmd/vtctld/tablet_data.go:40-46 | A new record: no result, accessed now, no error, neither channel closed. |
| TabletData.TabletHealth.LastResult | go/cmd/vtctld/tablet_data.go:48-62 | Returns what Await specifies. Only a returned snapshot writes accessed. |
| TabletData.TabletHealth.LastAccessed | go/cmd/vtctld/tablet_data.go:64-69 | The time of the latest access. |
| TabletData.TabletHealth.SignalReady | go/cmd/vtctld/tablet_data.go:116 | Closes ready. It must not already be closed. |
| TabletData.TabletHealth.Finish | go/cmd/vtctld/tablet_data.go:72-77 | The deferred exit: stores the error, then closes done. |
| TabletData.TabletHealth.Stream | go/cmd/vtctld/tablet_data.go:71-123 | The record and the returned status are those of StreamRun. |
| TabletData.TabletHealth.Pump | go/cmd/vtctld/tablet_data.go:100-122 | The while loop with its first flag leaves the record and status that Loop specifies, and keeps the record invariant. |
| TabletData.TabletHealthCache.constructor | go/cmd/vtctld/tablet_data.go:132-137 | An empty cache. |
| TabletData.TabletHealthCache.Get | go/cmd/vtctld/tablet_data.go:139-159 | It creates a fresh record for the alias exactly on a miss, not yet streaming. The map gains only that alias, and every other entry keeps its record. The caller waits on the new record (as on Initial(now)) or on the existing one, and that record's new state is AfterAwait of its old one. Every other record keeps its state and its started flag. The invariant holds throughout: each live record is the one mapped under its own alias. |
| TabletData.TabletHealthCache.MapIsInjective | go/cmd/vtctld/tablet_data.go:129 | Under the invariant, distinct aliases map to distinct records. |
| TabletData.TabletHealthCache.StreamTask | go/cmd/vtctld/tablet_data.go:148-153 | Runs the new record's stream. The record is left started and in the state StreamRun gives, and the status is StreamRun's. When the stream ends, exactly that alias leaves the map. |
| TabletData.TabletHealthCache.ResumeStream | go/cmd/vtctld/tablet_data.go:100-152 | More loop events for a running stream. The record is left in the state Loop gives of its old state, and the status is Loop's. When the stream ends, exactly that alias leaves the map. |
| TabletData.TabletHealthCache.Delete | go/cmd/vtctld/tablet_data.go:161-165 | Removes that alias and no other, keeping the invariant. |
| TabletConn.ErrorCodes | go/vt/tabletserver/tabletconn/tablet_conn.go:20-26 | ERR_NORMAL to ERR_NOT_IN_TX are 0 to 4, in order. |
| TabletConn.DialerRegistry.constructor | go/vt/tabletserver/tabletconn/tablet_conn.go:110 | No dialers at first. |
| TabletConn.DialerRegistry.RegisterDialer | go/vt/tabletserver/tabletconn/tablet_conn.go:114-119 | A fresh name is added and other names are unaffected. A repeated name is fatal ("Dialer X already exists") and leaves the map unchanged. |
| TabletConn.DialerRegistry.GetDialer | go/vt/tabletserver/tabletconn/tablet_conn.go:122-128 | Returns the dialer registered under the protocol. An unregistered protocol is fatal ("No dialer registered for tablet protocol X"). |
| TabletConn.DialerRegistry.GetDefaultDialer | go/vt/tabletserver/tabletconn/tablet_conn.go:35 | GetDialer (lines 122-128) for the default protocol "gorpc". |
| VTGateConn.Forward | go/vt/vtgate/vtgateconn/vtgateconn.go:54-93 | Calls made outside a transaction send no session. notInTransaction is false; the batch calls pass asTransaction. The result and the error are handed back. |
| VTGateConn.NotInTransaction | go/vt/vtgate/vtgateconn/vtgateconn.go:178-240 | Each Execute call's "not in transaction" error is a plain error that starts with the call's lower-case name and is 20 characters longer. |
| VTGateConn.Unstarted | go/vt/vtgate/vtgateconn/vtgateconn.go:178-284 | Without a session, only a Rollback succeeds. Each Execute returns its own "not in transaction" error, and both Commits return "commit: not in transaction". |
| VTGateConn.TxStep | go/vt/vtgate/vtgateconn/vtgateconn.go:177-284 | The Impl is called exactly when the transaction has a session, and with that session. Without a session, each call returns its own "not in transaction" error, or nil for a rollback. Commit and Rollback always leave no session. An Execute adopts the session the Impl returned, even alongside an error. |
| VTGateConn.TxRun | go/vt/vtgate/vtgateconn/vtgateconn.go:177-284 | One error for each operation of a sequence. |
| VTGateConn.EndedTxStaysEnded | go/vt/vtgate/vtgateconn/vtgateconn.go:178-284 | A transaction with no session never reaches the Impl again. Every later operation gets its "not in transaction" error (none for a rollback). |
| VTGateConn.FinishThenNothing | go/vt/vtgate/vtgateconn/vtgateconn.go:247-284 | After a Commit or Rollback, nothing reaches the Impl again, whatever follows. The only call made is the commit or rollback with the session. |
| VTGateConn.VTGateTx.constructor | go/vt/vtgate/vtgateconn/vtgateconn.go:138-141 | A transaction holding the Impl and the session. |
| VTGateConn.VTGateTx.ExecuteIn | go/vt/vtgate/vtgateconn/vtgateconn.go:177-244 | The seven Execute calls: new session, result, error and logged call as TxStep specifies. |
| VTGateConn.VTGateTx.Commit | go/vt/vtgate/vtgateconn/vtgateconn.go:247-274 | Commit (lines 247-254) and Commit2 (lines 267-274): session, error and logged call as TxStep specifies. |
| VTGateConn.VTGateTx.Rollback | go/vt/vtgate/vtgateconn/vtgateconn.go:257-284 | Rollback (lines 257-264) and Rollback2 (lines 277-284): session, error and logged call as TxStep specifies. |
| VTGateConn.VTGateConn.constructor | go/vt/vtgate/vtgateconn/vtgateconn.go:379-381 | A connection holding the Impl. |
| VTGateConn.VTGateConn.Begin | go/vt/vtgate/vtgateconn/vtgateconn.go:132-142 | An Impl error is returned with no transaction. Otherwise a fresh transaction holds the returned session. |
| VTGateConn.VTGateConn.Begin2 | go/vt/vtgate/vtgateconn/vtgateconn.go:145-155 | The same, through Begin2. |
| VTGateConn.VTGateConn.Close | go/vt/vtgate/vtgateconn/vtgateconn.go:158-161 | The Impl is closed once, then dropped. |
| VTGateConn.DialProtocol | go/vt/vtgate/vtgateconn/vtgateconn.go:370-382 | An unregistered protocol gives "no dialer registered for VTGate protocol X", whatever the dialers would do. Otherwise the registered dialer's outcome is returned, and its error comes with no connection. |
| VTGateConn.DialerRegistry.constructor | go/vt/vtgate/vtgateconn/vtgateconn.go:358 | No dialers at first. |
| VTGateConn.DialerRegistry.RegisterDialer | go/vt/vtgate/vtgateconn/vtgateconn.go:362-367 | The name maps to the new dialer, overwriting any earlier one (reported). Other names are unaffected. |
| VTGateConn.DialerRegistry.Dial | go/vt/vtgate/vtgateconn/vtgateconn.go:386-388 | DialProtocol with the vtgate_protocol flag at its default "gorpc" (lines 22-27). |
| VTGateConn.DialUsesLastRegistered | go/vt/vtgate/vtgateconn/vtgateconn.go:362-375 | After two registrations under one name, dialing that name uses the last one. |
| GoRpcVTGateConn.Network | go/vt/vtgate/gorpcvtgateconn/conn.go:35-38 | "unix" exactly when the address contains '/', "tcp" exactly when it does not. |
| GoRpcVTGateConn.FromRPCError | go/vt/vtgate/gorpcvtgateconn/conn.go:65 | A nil structured error gives a nil error (also at lines 317, 337, 349 and 363). Any other gives a server error with its code and message. |
| GoRpcVTGateConn.ExecuteMethod | go/vt/vtgate/gorpcvtgateconn/conn.go:59-216 | The RPC method at lines 59, 86, 113, 140, 168, 192 and 216 is "VTGate." followed by a name as long as the call's name in its "not in transaction" error. It starts with that name's first letter, capitalised. |
| GoRpcVTGateConn.Unbox | go/vt/vtgate/gorpcvtgateconn/conn.go:47-50 | The nil interface gives a nil pointer. Any other session gives the pointer it wraps. |
| GoRpcVTGateConn.ExecuteRequest | go/vt/vtgate/gorpcvtgateconn/conn.go:47-57 | The request carries the pointer inside the caller's session (Unbox) and the caller's flag. |
| GoRpcVTGateConn.ExecuteOutcome | go/vt/vtgate/gorpcvtgateconn/conn.go:58-68 | A transport error returns no result and the caller's own session. Once the server replied, the session returned is its pointer in a non-nil interface, even when that pointer is nil. A non-empty error string comes before the structured error. The call succeeds, with the server's result, exactly when no error of any kind came back. Any error comes with no result. The same applies at lines 85-95, 112-122, 139-149, 167-177, 191-201 and 215-225. |
| GoRpcVTGateConn.StringErrorShadowsStructured | go/vt/vtgate/gorpcvtgateconn/conn.go:62-67 | Once the error string is set, the structured error does not affect the outcome. |
| GoRpcVTGateConn.StreamRequest | go/vt/vtgate/gorpcvtgateconn/conn.go:228-280 | Streaming requests carry a nil session. |
| GoRpcVTGateConn.Begin | go/vt/vtgate/gorpcvtgateconn/conn.go:293-299 | A transport error gives the nil interface. Otherwise the decoded session is returned, a non-nil pointer. |
| GoRpcVTGateConn.Begin2 | go/vt/vtgate/gorpcvtgateconn/conn.go:311-326 | Success happens exactly when neither a transport error nor a structured error came back. A success always carries a non-nil pointer: the server's session, or an empty one. |
| GoRpcVTGateConn.Acknowledge | go/vt/vtgate/gorpcvtgateconn/conn.go:301-309 | Commit and Rollback fail exactly on a transport error, and return it. |
| GoRpcVTGateConn.Acknowledge2 | go/vt/vtgate/gorpcvtgateconn/conn.go:328-350 | Commit2 and Rollback2 return the transport error if any, else the structured reply error. |
| GoRpcVTGateConn.SplitQuery | go/vt/vtgate/gorpcvtgateconn/conn.go:352-367 | The transport error, else the structured error, else the splits. |
| GoRpcVTGateConn.TransportFailureKeepsTransaction | go/vt/vtgate/gorpcvtgateconn/conn.go:59-61 | Through VTGateTx, a transport failure leaves the transaction's session as it was. |
| GoRpcVTGateConn.NilServerSessionKeepsTransactionOpen | go/vt/vtgate/gorpcvtgateconn/conn.go:62-68 | Through VTGateTx, a reply with a nil server session leaves a non-nil interface around a nil pointer. The transaction stays open on the client side: its next Execute reaches the server and carries no session. |
| GoRpcVTGateConn.Begin2OpensTransaction | go/vt/vtgate/gorpcvtgateconn/conn.go:320-325 | A transaction from a successful Begin2 has a session. Its first Execute reaches the server with it and sends a non-nil session. |
| Strings.FindFrom | py/vtdb/tablet.py:40 | str.find: -1, or the first index of an occurrence, with no occurrence before it. |
| Strings.ContainsChar | go/vt/vtgate/gorpcvtgateconn/conn.go:36 | strings.Contains with a one-character string holds exactly when the character occurs. |
| Strings.FindEmpty | py/vtdb/tablet.py:40 | str.find of the empty string is 0. |
| Strings.FindAtMost | py/vtdb/tablet.py:40 | An occurrence at an index means str.find returns a non-negative index no greater than it. |
| Strings.PrefixTo | py/vtdb/tablet.py:40 | s[:k] is a prefix of s, of length k when 0 <= k <= len(s). |
| Strings.Lower | py/vtdb/tablet.py:20 | lower() keeps the length. |
| VtdbTablet.DigitRunEnd | py/vtdb/tablet.py:16 | The digit run starting at a position: all digits, followed by a non-digit or the end. |
| VtdbTablet.DigitRunEndOf | py/vtdb/tablet.py:16 | Any digit run ending before a non-digit is the run DigitRunEnd finds. |
| VtdbTablet.ErrnoAtIsPattern | py/vtdb/tablet.py:16 | The match predicate is the regular expression `\(errno (\d+)\)`: it holds exactly where the marker, one or more digits and ')' occur, and the digit group is unique. |
| VtdbTablet.SearchErrno | py/vtdb/tablet.py:33 | re.search: the leftmost match at or after the start, or none anywhere. |
| VtdbTablet.MatchEnd | py/vtdb/tablet.py:33 | A match spans at least nine characters and ends inside the message. |
| VtdbTablet.Errno | py/vtdb/tablet.py:37 | int(match.group(1)): the decimal value of the digits, whichever digit count reads the pattern literally. |
| VtdbTablet.SplitTail | py/vtdb/tablet.py:39 | parts[2] of the split occurs right after the first match. |
| VtdbTablet.PruneAsWritten | py/vtdb/tablet.py:39-40 | The pruning as the code does it is a prefix of the message, never longer than the message through the first match. |
| VtdbTablet.Prune | py/vtdb/tablet.py:35-40 | The intended pruning ends at the first match. It is a prefix of the message and still holds the same "(errno N)" marker, with the same number. |
| VtdbTablet.PruneAsWrittenLosesMessage | py/vtdb/tablet.py:39-40 | When the marker ends the message, the code prunes to "" while the intended pruning keeps the whole message. |
| VtdbTablet.PruneAsWrittenExample | py/vtdb/tablet.py:39-40 | For "(errno 1062)" (errno 1062), the code prunes to "". |
| VtdbTablet.PruneAgreesAwayFromTheEdge | py/vtdb/tablet.py:39-40 | Where the text after the marker first occurs right after it, the two prunings agree. |
| VtdbTablet.HandleAppError | py/vtdb/tablet.py:19-47 | An empty argument tuple raises IndexError. Otherwise the lower-cased first argument is tested for the prefixes retry, fatal and tx_pool_full, in that order, before any errno. Errno 1062 gives IntegrityError: the pruned message, with the other arguments kept. Every other class keeps the arguments. The result is always one of the five database classes. |
| VtdbTablet.HandleAppErrorAsWritten | py/vtdb/tablet.py:19-47 | handle_app_error with the code's own pruning at lines 39-40. An empty argument tuple raises IndexError. Otherwise the result is one of the five database classes, and every class but IntegrityError keeps the arguments. |
| VtdbTablet.HandleAppErrorAsWrittenAgrees | py/vtdb/tablet.py:19-47 | The code as written and the corrected HandleAppError agree on failure and on the class for every input. Outside IntegrityError they give the same exception. For errno 1062 they differ only in the first argument: PruneAsWritten against Prune of the lower-cased message at its first match. |
| VtdbTablet.HandleAppErrorAsWrittenExample | py/vtdb/tablet.py:37-42 | As the code is written, a message that is only "(errno 1062)" becomes an IntegrityError with the empty message. The intended pruning keeps "(errno 1062)". |
| VtdbTablet.HandleAppErrorByErrno | py/vtdb/tablet.py:33-47 | Past the prefixes, the first errno decides. 1062 gives IntegrityError. 1290 with "read-only" in the message gives RetryError. Anything else, or no errno at all, gives DatabaseError. |
| VtdbTablet.ConvertException | py/vtdb/tablet.py:50-60 | The extra arguments are appended. Timeout, App, Programming and other GoRpc errors map to TimeoutError, handle_app_error, ProgrammingError and FatalError. Any other exception comes back unchanged. A converted exception is never a GoRpc error. |
| VtdbTablet.ConvertIdempotent | py/vtdb/tablet.py:50-60 | Converting a converted exception returns it unchanged. |
| VtdbTablet.Reraised | py/vtdb/tablet.py:126-127 | The handler around each RPC (also at lines 144-145 and 161-162) raises the conversion of a GoRpc error, with the connection's description appended. Any other exception passes through unchanged. |
| VtdbTablet.ErrTruthy | py/vtdb/tablet.py:180 | Only a dict Err entry is truthy. A dict with a Message is truthy, and an empty dict is not. |
| VtdbTablet.RpcCallAndExtractError | py/vtdb/tablet.py:164-184 | A raised client exception propagates. A reply that is falsy, is not a dict, or has no truthy Err comes back unchanged. Otherwise AppError is raised with Err's Message, or with "Missing error message", and the method name. |
| VtdbTablet.BeginSpec | py/vtdb/tablet.py:119-127 | An open transaction raises NotSupportedError, sends nothing and changes nothing. Otherwise the request carries id 0 and the session. The transaction opens exactly when the reply is a dict without a truthy Err that carries a TransactionId, and the id becomes that value. On failure the id is unchanged. |
| VtdbTablet.FinishSpec | py/vtdb/tablet.py:129-162 | Afterwards the transaction id is 0, even when the call fails. With no transaction nothing is sent. Otherwise the request carries the old id, and the reply is returned or the converted exception raised. |
| VtdbTablet.ConvertCell | py/vtdb/tablet.py:371-376 | None stays None, a present conversion is applied, and otherwise the value passes through. |
| VtdbTablet.ConvertedRow | py/vtdb/tablet.py:368-378 | The row has length min(len(conversions), len(row)), and each field is converted as ConvertCell says. |
| VtdbTablet.MakeRow | py/vtdb/tablet.py:368-378 | The append loop builds exactly ConvertedRow. |
| VtdbTablet.NextPacket | py/vtdb/tablet.py:327 | client.stream_next() returns the first packet not yet read, or None once they have all been read. |
| VtdbTablet.PopRow | py/vtdb/tablet.py:340-347 | A row comes out exactly when the reply has Rows and the index is inside them: KeyError without Rows, IndexError past them, and then nothing changes. The row is the converted row at the index. After the last row the reply is dropped and the index reset to 0; otherwise the index moves on by one. The conversions and the unread packets never change. |
| VtdbTablet.StreamNextSpec | py/vtdb/tablet.py:319-347 | A terminated cursor returns None and changes nothing. Returning None terminates the cursor. The conversions never change. |
| VtdbTablet.Run | py/vtdb/tablet.py:319-347 | n steps of a cursor step function give n outcomes. |
| VtdbTablet.RunSplit | py/vtdb/tablet.py:319-347 | For any step function, n + m steps are n steps followed by m. |
| VtdbTablet.Calls | py/vtdb/tablet.py:319-347 | n calls of _stream_next in a row give n outcomes. |
| VtdbTablet.CallsSplit | py/vtdb/tablet.py:319-347 | n + m calls are n calls followed by m. |
| VtdbTablet.EndedStreamStaysEnded | py/vtdb/tablet.py:320-322 | Once the stream yields None, every later call returns None and changes nothing. |
| VtdbTablet.RestOfReply | py/vtdb/tablet.py:340-347 | The remaining rows of the current reply come out converted and in order. Then the cursor waits for the next reply at index 0. |
| VtdbTablet.CallsFromFetch | py/vtdb/tablet.py:325-333 | A cursor waiting for a good reply behaves as if that reply were already fetched. |
| VtdbTablet.StreamYieldsRowsInOrder | py/vtdb/tablet.py:319-347 | From the state a stream starts in, well-formed replies yield exactly their rows, converted, in order, reply after reply. They consume exactly those packets. |
| VtdbTablet.EndOfStreamEndsCursor | py/vtdb/tablet.py:325-330 | At the end of the stream the cursor returns None, and None on every later call. |
| VtdbTablet.TabletConnection.constructor | py/vtdb/tablet.py:67-80 | A new connection: ids 0, no stream. |
| VtdbTablet.TabletConnection.Describe | py/vtdb/tablet.py:83-84 | str(self): "<TabletConnection " followed by the address, and ending in '>', with the length of the four fields plus the fixed text. |
| VtdbTablet.TabletConnection.MakeReq | py/vtdb/tablet.py:115-117 | The request carries the current transaction and session ids. |
| VtdbTablet.TabletConnection.Begin | py/vtdb/tablet.py:119-127 | The id, the exception and the request sent are those of BeginSpec. |
| VtdbTablet.TabletConnection.Finish | py/vtdb/tablet.py:129-162 | Zeroes the id before the call. Everything is as FinishSpec says. |
| VtdbTablet.TabletConnection.Commit | py/vtdb/tablet.py:129-145 | FinishSpec for SqlQuery.Commit. |
| VtdbTablet.TabletConnection.Rollback | py/vtdb/tablet.py:147-162 | FinishSpec for SqlQuery.Rollback. |
| VtdbTablet.TabletConnection.Close | py/vtdb/tablet.py:103-110 | Rolls back, ignoring failures. Afterwards both ids are 0. The rollback request is sent exactly when a transaction was open. |
| VtdbTablet.TabletConnection.StartStream | py/vtdb/tablet.py:263-277 | The cursor resets to no reply and index 0, with the field conversions. |
| VtdbTablet.TabletConnection.StreamNext | py/vtdb/tablet.py:319-347 | The new cursor state and the outcome are those of StreamNextSpec. |

## Left out

- Goroutines, channels, `select` and mutexes are replaced by one sequential interleaving: the health stream's events, with reader accesses between iterations. Real concurrency is not verified.
- Logging through glog and the Python logger, and command-line flags other than their defaults.
- The outcomes of `topo.Server.GetTablet`, `EndPoint`, the tablet dialer and `StreamHealth` are inputs. So are the vtgate `Impl` results, the go rpc `Call` results and the Python client's calls. `conn.Close()` of the health stream, `rpcConn.Close()` and `client.close()` are not modelled: they have no effect on the state modelled here.
- `vterrors.FromRPCError` is modelled as building a server error from the code and message, because that package is not part of this model.
- `sendStreamResults` and the `StreamExecute*` methods of the go rpc implementation: goroutine-based forwarding. Only their requests are modelled (`StreamRequest`).
- The `StreamExecute*` and `SplitQuery` forwarders of `VTGateConn` pass their arguments straight through to the Impl and are not modelled separately.
- The go rpc `dial` is modelled only for its network choice; `bsonrpc.DialHTTP` is a collaborator.
- The type assertion `session.(*proto.Session)` in the go rpc implementation cannot fail in the model, since sessions are always `Session` values.
- VTGateConn.VTGateConn.Close: requires an Impl, because a second Close calls a method on a nil interface and panics.
- VTGateConn.VTGateConn.Begin: requires an Impl, for the same reason, after Close. So does VTGateConn.VTGateConn.Begin2.
- TabletData.TabletHealth.SignalReady and TabletData.TabletHealth.Finish: a closed channel cannot be closed again, so both require the channel to be open.
- TabletData.TabletHealthCache.Delete: requires that a record still mapped under the alias has ended, because its only caller is the stream task after its stream returned.
- In `tablet.py`: `dial`, `_execute`, `_execute_batch`, `_stream_execute` and `_stream_execute2` are left out, apart from the cursor reset. So are `is_closed`, `connect` and `field_types`. They are RPC plumbing and field-type conversion tables, and conversions are modelled as opaque functions.
- `__drain_conn_after_streaming_app_error` is modelled only for what it reads. It consumes one packet and raises the go rpc error when that packet is not the end of the stream; the `client.close()` it calls is left out.
- `str.lower()` is ASCII-only here, and every exception argument is a string (`str(exc_args[0])` is the first argument itself).
- A truthy `Err` entry that is not a dict is not modelled (the code would test `'Message' in err` on it). Neither are the messages of the KeyError and TypeError the code raises on malformed replies.
- A stream read past its last packet returns None.
- A streamed packet whose reply is not a dict is not modelled: the code would raise AttributeError at `reply.get('Err')` (`py/vtdb/tablet.py:331`). Every `StreamReply` is a dict.
- VtdbTablet.HandleAppError: prunes 1062 messages with the corrected Prune rather than the code's `msg[:msg.find(parts[2])]` (see Findings). So `ConvertException`, `BeginSpec`, `FinishSpec` and `StreamNextSpec`, which build on it, follow the intended pruning. The code's own version is `HandleAppErrorAsWritten`. The two agree whenever the text after the marker first occurs right after it (`PruneAgreesAwayFromTheEdge`).

## Findings

| source | as written | input that shows it | evidently intended | confidence | as-written member | corrected member |
|---|---|---|---|---|---|---|
| py/vtdb/tablet.py:39-40 | The errno-1062 message is cut at `msg.find(parts[2])`, the first occurrence anywhere of the text that follows the first `(errno N)` marker. | `"(errno 1062)"`, or any 1062 message ending in its marker: `parts[2]` is `""`, `find` returns 0 and the pruned message is `""`. | The message through the marker, `msg[:match.end()]`, as the comment at lines 35-36 says. | not executed; high | VtdbTablet.PruneAsWritten and VtdbTablet.HandleAppErrorAsWritten (related to the corrected version by VtdbTablet.HandleAppErrorAsWrittenAgrees, and shown by VtdbTablet.PruneAsWrittenExample, VtdbTablet.PruneAsWrittenLosesMessage and VtdbTablet.HandleAppErrorAsWrittenExample) | VtdbTablet.Prune |
