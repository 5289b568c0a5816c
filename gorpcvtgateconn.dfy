/** The go rpc protocol implementation of the vtgate client
    (go/vt/vtgate/gorpcvtgateconn/conn.go): which network an address is
    dialed on, and how each call turns the RPC outcome and the reply's error
    fields into a result, a session and an error.

    An RPC is an input: it either fails in transport or brings back a reply.
    vterrors.FromRPCError is modelled as turning a structured reply error into
    a ServerError with the same code and message. */
module GoRpcVTGateConn {
  import opened Wrappers
  import opened Errors
  import Strings
  import V = VTGateConn

  /** dial: a Unix socket exactly when the address holds a '/', TCP otherwise. */
  function Network(address: string): (n: string)
    ensures n == "unix" <==> '/' in address
    ensures n == "tcp" <==> '/' !in address
  {
    Strings.ContainsChar(address, '/');
    if Strings.Contains(address, "/") then "unix" else "tcp"
  }

  /** The outcome of `rpcConn.Call`: a transport error, or the decoded reply. */
  datatype Call<R> = TransportFailed(err: Error) | Replied(reply: R)

  /** The structured error of a reply (rpc.RPCError). */
  datatype RpcError = RpcError(code: int, message: string)

  /** vterrors.FromRPCError: nil stays nil. */
  function FromRPCError(e: Option<RpcError>): (r: Option<Error>)
    ensures r.None? <==> e.None?
    ensures e.Some? ==> r == Some(ServerError(e.value.code, e.value.message))
  {
    match e
    case None => None
    case Some(RpcError(code, message)) => Some(ServerError(code, message))
  }

  /** A request as the model tracks it: the RPC method, the transaction flag
      and the session sent. */
  datatype Request = Request(rpcMethod: string, flag: bool, session: Option<V.Session>)

  /** proto.QueryResult and proto.QueryResultList: a result (or list), the
      server's session, an error string, and a structured error. */
  datatype QueryReply = QueryReply(result: Option<V.Payload>, session: Option<V.Session>,
                                   error: string, err: Option<RpcError>)

  /** The Execute calls and their RPC method names: the service, then a name as
      long as the one the "not in transaction" errors use, starting with that
      name's first letter capitalised. */
  function ExecuteMethod(kind: V.ExecuteKind): (name: string)
    ensures Strings.StartsWith(name, "VTGate.")
    ensures |name| == 7 + |kind.Name()|
    ensures Strings.LowerChar(name[7]) == kind.Name()[0]
  {
    match kind
    case Execute => "VTGate.Execute"
    case ExecuteShard => "VTGate.ExecuteShard"
    case ExecuteKeyspaceIds => "VTGate.ExecuteKeyspaceIds"
    case ExecuteKeyRanges => "VTGate.ExecuteKeyRanges"
    case ExecuteEntityIds => "VTGate.ExecuteEntityIds"
    case ExecuteBatchShard => "VTGate.ExecuteBatchShard"
    case ExecuteBatchKeyspaceIds => "VTGate.ExecuteBatchKeyspaceIds"
  }

  /** The `*proto.Session` inside the caller's session: nil for the nil
      interface, and otherwise the pointer the interface wraps. */
  function Unbox(session: Option<V.SessionValue>): (p: Option<V.Session>)
    ensures session.None? ==> p.None?
    ensures session.Some? ==> p == session.value.ptr
  {
    match session
    case None => None
    case Some(b) => b.ptr
  }

  /** The request of an Execute call (lines 47-57): the pointer inside the
      caller's session, and the caller's flag. */
  function ExecuteRequest(kind: V.ExecuteKind, flag: bool, session: Option<V.SessionValue>): (q: Request)
    ensures q.session == Unbox(session) && q.flag == flag && q.rpcMethod == ExecuteMethod(kind)
  {
    Request(ExecuteMethod(kind), flag, Unbox(session))
  }

  /** What an Execute call returns, from the caller's session and the RPC
      outcome (lines 59-68, and the same steps in every Execute call). Once the
      server has replied, the session handed back is `result.Session` as an
      `interface{}`: never the nil interface, even when the pointer is nil. */
  function ExecuteOutcome(session: Option<V.SessionValue>, call: Call<QueryReply>): (r: V.ExecuteReply)
    // a transport error hands back the caller's own session
    ensures call.TransportFailed? ==> r == V.ExecuteReply(None, session, Some(call.err))
    ensures call.Replied? ==> r.session == Some(V.Boxed(call.reply.session))
    // the string error comes first; then the structured one
    ensures call.Replied? && call.reply.error != "" ==> r.err == Some(Error(call.reply.error))
    ensures call.Replied? && call.reply.error == "" ==> r.err == FromRPCError(call.reply.err)
    // success exactly when no error of any kind came back
    ensures r.err.None? <==> call.Replied? && call.reply.error == "" && call.reply.err.None?
    ensures r.err.None? ==> r.result == call.reply.result
    ensures r.err.Some? ==> r.result == None
  {
    match call
    case TransportFailed(e) => V.ExecuteReply(None, session, Some(e))
    case Replied(reply) =>
      var s := Some(V.Boxed(reply.session));
      if reply.error != "" then V.ExecuteReply(None, s, Some(Error(reply.error)))
      else
        match FromRPCError(reply.err)
        case Some(e) => V.ExecuteReply(None, s, Some(e))
        case None => V.ExecuteReply(reply.result, s, None)
  }

  /** Once the string error is set, the structured error makes no difference. */
  lemma StringErrorShadowsStructured(session: Option<V.SessionValue>, reply: QueryReply, other: Option<RpcError>)
    requires reply.error != ""
    ensures ExecuteOutcome(session, Replied(reply)) == ExecuteOutcome(session, Replied(reply.(err := other)))
  {
  }

  /** The streaming calls and their RPC method names. */
  datatype StreamKind = StreamExecute | StreamExecuteShard | StreamExecuteKeyRanges | StreamExecuteKeyspaceIds

  /** The request of a streaming call carries no session, whatever the caller holds. */
  function StreamRequest(kind: StreamKind): (q: Request)
    ensures q.session == None && !q.flag
    ensures kind == StreamExecute <==> q.rpcMethod == "VTGate.StreamExecute"
  {
    match kind
    case StreamExecute => Request("VTGate.StreamExecute", false, None)
    case StreamExecuteShard => Request("VTGate.StreamExecuteShard", false, None)
    case StreamExecuteKeyRanges => Request("VTGate.StreamExecuteKeyRanges", false, None)
    case StreamExecuteKeyspaceIds => Request("VTGate.StreamExecuteKeyspaceIds", false, None)
  }

  /** Begin (lines 293-299): the decoded session, never a nil pointer, or the
      transport error and the nil interface. */
  function Begin(call: Call<V.Session>): (r: Result<Option<V.SessionValue>, Error>)
    ensures call.TransportFailed? <==> r.Failure?
    ensures r.Failure? ==> r.error == call.err
    ensures r.Success? ==> r.value == Some(V.Boxed(Some(call.reply)))
  {
    match call
    case TransportFailed(e) => Failure(e)
    case Replied(s) => Success(Some(V.Boxed(Some(s))))
  }

  /** proto.BeginResponse. */
  datatype BeginResponse = BeginResponse(session: Option<V.Session>, err: Option<RpcError>)

  /** Begin2 (lines 311-326): the transport error, else the structured error;
      on success a non-nil pointer, the server's session or else an empty one. */
  function Begin2(call: Call<BeginResponse>): (r: Result<Option<V.SessionValue>, Error>)
    ensures r.Success? <==> call.Replied? && call.reply.err.None?
    ensures call.TransportFailed? ==> r == Failure(call.err)
    ensures call.Replied? && call.reply.err.Some? ==> Some(r.error) == FromRPCError(call.reply.err)
    ensures r.Success? ==> r.value.Some? && r.value.value.ptr.Some?
    ensures r.Success? && call.reply.session.Some? ==> r.value == Some(V.Boxed(call.reply.session))
    ensures r.Success? && call.reply.session.None? ==> r.value == Some(V.Boxed(Some(V.EmptySession)))
  {
    match call
    case TransportFailed(e) => Failure(e)
    case Replied(reply) =>
      match FromRPCError(reply.err)
      case Some(e) => Failure(e)
      case None => Success(Some(V.Boxed(Some(reply.session.GetOr(V.EmptySession)))))
  }

  /** The empty reply (rpc.Unused). */
  datatype Unused = Unused

  /** Commit and Rollback: the transport error, and nothing else can fail. */
  function Acknowledge(call: Call<Unused>): (r: Option<Error>)
    ensures r.None? <==> call.Replied?
    ensures r.Some? ==> r.value == call.err
  {
    match call
    case TransportFailed(e) => Some(e)
    case Replied(_) => None
  }

  /** Commit2 and Rollback2: the transport error if any, else the structured
      error of the reply. */
  function Acknowledge2(call: Call<Option<RpcError>>): (r: Option<Error>)
    ensures r.None? <==> call.Replied? && call.reply.None?
    ensures call.TransportFailed? ==> r == Some(call.err)
    ensures call.Replied? ==> r == FromRPCError(call.reply)
  {
    match call
    case TransportFailed(e) => Some(e)
    case Replied(replyErr) => FromRPCError(replyErr)
  }

  datatype SplitQueryPart = SplitQueryPart(sql: string, size: nat)

  /** proto.SplitQueryResult. */
  datatype SplitQueryResult = SplitQueryResult(splits: seq<SplitQueryPart>, err: Option<RpcError>)

  /** SplitQuery: the transport error, else the structured error, else the splits. */
  function SplitQuery(call: Call<SplitQueryResult>): (r: Result<seq<SplitQueryPart>, Error>)
    ensures r.Success? <==> call.Replied? && call.reply.err.None?
    ensures call.TransportFailed? ==> r == Failure(call.err)
    ensures call.Replied? && call.reply.err.Some? ==> Some(r.error) == FromRPCError(call.reply.err)
    ensures r.Success? ==> r.value == call.reply.splits
  {
    match call
    case TransportFailed(e) => Failure(e)
    case Replied(result) =>
      match FromRPCError(result.err)
      case Some(e) => Failure(e)
      case None => Success(result.splits)
  }

  /** Through a transaction: a transport failure leaves the transaction's session
      as it was, so the transaction can go on. */
  lemma TransportFailureKeepsTransaction(session: V.SessionValue, kind: V.ExecuteKind, flag: bool, e: Error)
    ensures V.TxStep(Some(session), V.ExecuteOp(kind, flag, ExecuteOutcome(Some(session), TransportFailed(e)))).session
            == Some(session)
  {
  }

  /** Through a transaction: a reply with a nil session does not end the
      transaction on the client side. The transaction now holds a non-nil
      interface around a nil pointer, so its next Execute passes the
      `tx.session == nil` check and reaches the server, carrying no session. */
  lemma NilServerSessionKeepsTransactionOpen(session: V.SessionValue, kind: V.ExecuteKind, flag: bool,
                                             reply: QueryReply, next: V.ExecuteKind, nextFlag: bool,
                                             nextReply: V.ExecuteReply)
    requires reply.session.None?
    ensures var o := V.TxStep(Some(session), V.ExecuteOp(kind, flag, ExecuteOutcome(Some(session), Replied(reply))));
      && o.session == Some(V.Boxed(None))
      && V.TxStep(o.session, V.ExecuteOp(next, nextFlag, nextReply)).call == Some(V.ExecuteCall(next, nextFlag, o.session))
      && ExecuteRequest(next, nextFlag, o.session).session == None
  {
  }

  /** A transaction begun through Begin2 always has a session, so its first
      Execute reaches the server with that session's pointer, which is not nil. */
  lemma Begin2OpensTransaction(call: Call<BeginResponse>, kind: V.ExecuteKind, flag: bool, reply: V.ExecuteReply)
    requires Begin2(call).Success?
    ensures var s := Begin2(call).value;
      && s.Some? && V.TxStep(s, V.ExecuteOp(kind, flag, reply)).call == Some(V.ExecuteCall(kind, flag, s))
      && ExecuteRequest(kind, flag, s).session.Some?
  {
  }
}
