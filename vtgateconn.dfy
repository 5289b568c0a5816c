/** The vtgate client API (go/vt/vtgate/vtgateconn/vtgateconn.go): the session
    bookkeeping of a transaction (VTGateTx), the calls of a connection
    (VTGateConn), and the registry of protocol dialers.

    A protocol implementation (`Impl`) is a collaborator: each call to it is
    recorded in a ghost log, and what it returns is an input of the method
    that calls it. Contexts, query texts, bind variables and timeouts are
    passed through unread and are left out. */
module VTGateConn {
  import opened Wrappers
  import opened Errors

  /** The protocol the vtgate_protocol flag selects by default. */
  const GoRPCProtocol: string := "gorpc"

  datatype ShardSession = ShardSession(keyspace: string, shard: string, tabletType: string, transactionId: int)

  /** A vtgate session (proto.Session). */
  datatype Session = Session(inTransaction: bool, shardSessions: seq<ShardSession>)

  /** `&proto.Session{}`. */
  const EmptySession: Session := Session(false, [])

  /** A session as VTGateConn holds it: an `interface{}` the Impl hands out.
      None is the nil interface; Boxed is a non-nil interface value wrapping the
      Impl's `*proto.Session`, which may itself be a nil pointer. The checks
      `tx.session == nil` see only the interface, never the pointer inside. */
  datatype SessionValue = Boxed(ptr: Option<Session>)

  datatype QueryResult = QueryResult(rowsAffected: nat, rows: seq<seq<string>>)

  /** What an Execute call returns: one result, or one per query for the batch calls. */
  datatype Payload = One(result: QueryResult) | List(results: seq<QueryResult>)

  /** A protocol implementation, known by the protocol and address it was dialed with. */
  datatype Impl = Impl(protocol: string, address: string)

  /** The seven Execute calls of a transaction. */
  datatype ExecuteKind =
    | Execute | ExecuteShard | ExecuteKeyspaceIds | ExecuteKeyRanges | ExecuteEntityIds
    | ExecuteBatchShard | ExecuteBatchKeyspaceIds
  {
    /** The batch calls take `asTransaction` where the others take `notInTransaction`. */
    predicate IsBatch() {
      this == ExecuteBatchShard || this == ExecuteBatchKeyspaceIds
    }

    /** The method name as the "not in transaction" error spells it. */
    function Name(): string {
      match this
      case Execute => "execute"
      case ExecuteShard => "executeShard"
      case ExecuteKeyspaceIds => "executeKeyspaceIds"
      case ExecuteKeyRanges => "executeKeyRanges"
      case ExecuteEntityIds => "executeEntityIds"
      case ExecuteBatchShard => "executeBatchShard"
      case ExecuteBatchKeyspaceIds => "executeBatchKeyspaceIds"
    }
  }

  /** The error an Execute call of a transaction without a session returns. */
  function NotInTransaction(kind: ExecuteKind): (e: Error)
    ensures e.Error? && |e.message| == |kind.Name()| + 20
    ensures e.message[..|kind.Name()|] == kind.Name()
  {
    Error(kind.Name() + ": not in transaction")
  }

  /** The error Commit and Commit2 return without a session. */
  const CommitNotInTransaction: Error := Error("commit: not in transaction")

  /** A call made to the Impl, with the arguments the model tracks: for Execute,
      the notInTransaction or asTransaction flag and the session. */
  datatype ImplCall =
    | ExecuteCall(kind: ExecuteKind, flag: bool, sent: Option<SessionValue>)
    | BeginCall | Begin2Call
    | CommitCall(session: SessionValue) | Commit2Call(session: SessionValue)
    | RollbackCall(session: SessionValue) | Rollback2Call(session: SessionValue)
    | CloseCall

  /** What the Impl returns from an Execute call. */
  datatype ExecuteReply = ExecuteReply(result: Option<Payload>, session: Option<SessionValue>, err: Option<Error>)

  /** The forwarders of VTGateConn (lines 54-93): the call made, and the result
      and error handed back; the returned session is dropped. */
  function Forward(kind: ExecuteKind, asTransaction: bool, reply: ExecuteReply)
    : (r: (ImplCall, Option<Payload>, Option<Error>))
    // outside a transaction nothing is sent as session, and notInTransaction is false
    ensures r.0 == ExecuteCall(kind, kind.IsBatch() && asTransaction, None)
    ensures r.1 == reply.result && r.2 == reply.err
  {
    (ExecuteCall(kind, if kind.IsBatch() then asTransaction else false, None), reply.result, reply.err)
  }

  /** One call of a transaction: an Execute, or a Commit or Rollback (`second`
      for Commit2 and Rollback2), with what the Impl would return. */
  datatype TxOp =
    | ExecuteOp(kind: ExecuteKind, flag: bool, reply: ExecuteReply)
    | CommitOp(second: bool, implErr: Option<Error>)
    | RollbackOp(second: bool, implErr: Option<Error>)

  /** The Impl call an operation makes with the transaction's session. */
  function CallFor(op: TxOp, session: SessionValue): ImplCall {
    match op
    case ExecuteOp(kind, flag, _) => ExecuteCall(kind, flag, Some(session))
    case CommitOp(second, _) => if second then Commit2Call(session) else CommitCall(session)
    case RollbackOp(second, _) => if second then Rollback2Call(session) else RollbackCall(session)
  }

  /** What an operation returns when the transaction has no session. */
  function Unstarted(op: TxOp): (e: Option<Error>)
    // only a Rollback succeeds without a session
    ensures e.None? <==> op.RollbackOp?
    ensures op.ExecuteOp? ==> e == Some(NotInTransaction(op.kind))
    ensures op.CommitOp? ==> e == Some(CommitNotInTransaction)
  {
    match op
    case ExecuteOp(kind, _, _) => Some(NotInTransaction(kind))
    case CommitOp(_, _) => Some(CommitNotInTransaction)
    case RollbackOp(_, _) => None
  }

  /** The new session, result, error and Impl call of one operation. */
  datatype TxOutcome = TxOutcome(session: Option<SessionValue>, res: Option<Payload>, err: Option<Error>, call: Option<ImplCall>)

  /** One operation of a VTGateTx (lines 177-284). */
  function TxStep(session: Option<SessionValue>, op: TxOp): (o: TxOutcome)
    // the Impl is called exactly when there is a session, and with that session
    ensures o.call.Some? <==> session.Some?
    ensures session.Some? ==> o.call == Some(CallFor(op, session.value))
    // without a session nothing changes and the error names the operation
    ensures session.None? ==> o.session == None && o.res == None && o.err == Unstarted(op)
    // Commit and Rollback always leave the transaction without a session
    ensures !op.ExecuteOp? ==> o.session == None && o.res == None
    // an Execute adopts the returned session, even alongside an error
    ensures session.Some? && op.ExecuteOp? ==>
      o.session == op.reply.session && o.res == op.reply.result && o.err == op.reply.err
    ensures session.Some? && !op.ExecuteOp? ==> o.err == op.implErr
  {
    if session.None? then TxOutcome(None, None, Unstarted(op), None)
    else
      match op
      case ExecuteOp(_, _, reply) => TxOutcome(reply.session, reply.result, reply.err, Some(CallFor(op, session.value)))
      case CommitOp(_, implErr) => TxOutcome(None, None, implErr, Some(CallFor(op, session.value)))
      case RollbackOp(_, implErr) => TxOutcome(None, None, implErr, Some(CallFor(op, session.value)))
  }

  function Logged(call: Option<ImplCall>): seq<ImplCall> {
    if call.Some? then [call.value] else []
  }

  /** A sequence of operations on one transaction: the final session, the Impl
      calls made and the error of each operation. */
  function TxRun(session: Option<SessionValue>, ops: seq<TxOp>): (r: (Option<SessionValue>, seq<ImplCall>, seq<Option<Error>>))
    ensures |r.2| == |ops|
    decreases |ops|
  {
    if ops == [] then (session, [], [])
    else
      var o := TxStep(session, ops[0]);
      var rest := TxRun(o.session, ops[1..]);
      (rest.0, Logged(o.call) + rest.1, [o.err] + rest.2)
  }

  /** After a Commit or a Rollback, the transaction is over: nothing reaches the
      Impl again and every later operation fails with its "not in transaction"
      error (a Rollback with none). */
  lemma {:induction false} EndedTxStaysEnded(ops: seq<TxOp>)
    ensures TxRun(None, ops).0 == None
    ensures TxRun(None, ops).1 == []
    ensures forall i | 0 <= i < |ops| :: TxRun(None, ops).2[i] == Unstarted(ops[i])
    decreases |ops|
  {
    if ops != [] {
      EndedTxStaysEnded(ops[1..]);
    }
  }

  /** A finished transaction, then anything: the one call is the Commit or Rollback. */
  lemma FinishThenNothing(session: SessionValue, finish: TxOp, later: seq<TxOp>)
    requires !finish.ExecuteOp?
    ensures TxRun(Some(session), [finish] + later).1 == [CallFor(finish, session)]
    ensures TxRun(Some(session), [finish] + later).0 == None
  {
    assert ([finish] + later)[1..] == later;
    EndedTxStaysEnded(later);
  }

  /** An ongoing transaction. */
  class VTGateTx {
    const impl: Impl
    var session: Option<SessionValue>
    ghost var calls: seq<ImplCall>

    constructor (impl: Impl, session: Option<SessionValue>)
      ensures this.impl == impl && this.session == session && calls == []
    {
      this.impl := impl;
      this.session := session;
      calls := [];
    }

    /** Execute, ExecuteShard, ... ExecuteBatchKeyspaceIds (lines 177-244);
        `flag` is notInTransaction, or asTransaction for the batch calls. */
    method ExecuteIn(kind: ExecuteKind, flag: bool, reply: ExecuteReply)
      returns (res: Option<Payload>, err: Option<Error>)
      modifies this
      ensures var o := TxStep(old(session), ExecuteOp(kind, flag, reply));
        session == o.session && res == o.res && err == o.err && calls == old(calls) + Logged(o.call)
    {
      if session.None? {
        return None, Some(NotInTransaction(kind));
      }
      calls := calls + [ExecuteCall(kind, flag, session)];
      session := reply.session;
      res, err := reply.result, reply.err;
    }

    /** Commit (lines 247-254) and, with `second`, Commit2 (lines 267-274). */
    method Commit(second: bool, implErr: Option<Error>) returns (err: Option<Error>)
      modifies this
      ensures var o := TxStep(old(session), CommitOp(second, implErr));
        session == o.session && err == o.err && calls == old(calls) + Logged(o.call)
    {
      if session.None? {
        return Some(CommitNotInTransaction);
      }
      calls := calls + [if second then Commit2Call(session.value) else CommitCall(session.value)];
      session := None;
      err := implErr;
    }

    /** Rollback (lines 257-264) and, with `second`, Rollback2 (lines 277-284). */
    method Rollback(second: bool, implErr: Option<Error>) returns (err: Option<Error>)
      modifies this
      ensures var o := TxStep(old(session), RollbackOp(second, implErr));
        session == o.session && err == o.err && calls == old(calls) + Logged(o.call)
    {
      if session.None? {
        return None;
      }
      calls := calls + [if second then Rollback2Call(session.value) else RollbackCall(session.value)];
      session := None;
      err := implErr;
    }
  }

  /** A connection to vtgate; Close drops its Impl. */
  class VTGateConn {
    var impl: Option<Impl>
    ghost var calls: seq<ImplCall>

    constructor (impl: Impl)
      ensures this.impl == Some(impl) && calls == []
    {
      this.impl := Some(impl);
      calls := [];
    }

    /** Begin: an Impl error is returned with no transaction; otherwise the
        transaction holds the session the Impl returned. */
    method Begin(reply: Result<Option<SessionValue>, Error>) returns (tx: VTGateTx?, err: Option<Error>)
      requires impl.Some?
      modifies this
      ensures impl == old(impl) && calls == old(calls) + [BeginCall]
      ensures reply.Failure? ==> tx == null && err == Some(reply.error)
      ensures reply.Success? ==>
        tx != null && fresh(tx) && err == None
        && tx.impl == impl.value && tx.session == reply.value && tx.calls == []
    {
      calls := calls + [BeginCall];
      if reply.Failure? {
        return null, Some(reply.error);
      }
      tx := new VTGateTx(impl.value, reply.value);
      err := None;
    }

    /** Begin2: as Begin, through the Impl's Begin2. */
    method Begin2(reply: Result<Option<SessionValue>, Error>) returns (tx: VTGateTx?, err: Option<Error>)
      requires impl.Some?
      modifies this
      ensures impl == old(impl) && calls == old(calls) + [Begin2Call]
      ensures reply.Failure? ==> tx == null && err == Some(reply.error)
      ensures reply.Success? ==>
        tx != null && fresh(tx) && err == None
        && tx.impl == impl.value && tx.session == reply.value && tx.calls == []
    {
      calls := calls + [Begin2Call];
      if reply.Failure? {
        return null, Some(reply.error);
      }
      tx := new VTGateTx(impl.value, reply.value);
      err := None;
    }

    /** Close: the Impl is closed and dropped; closing twice is a nil dereference. */
    method Close()
      requires impl.Some?
      modifies this
      ensures impl == None && calls == old(calls) + [CloseCall]
    {
      calls := calls + [CloseCall];
      impl := None;
    }
  }

  /** A DialerFunc: from an address, an Impl or an error. */
  type DialerFunc = string -> Result<Impl, Error>

  /** DialProtocol: an unregistered protocol is an error, whatever the dialers do;
      otherwise the registered dialer decides, and an error from it comes back
      with no connection. Success(impl) stands for a VTGateConn wrapping impl. */
  function DialProtocol(dialers: map<string, DialerFunc>, protocol: string, address: string)
    : (r: Result<Impl, Error>)
    ensures protocol !in dialers ==>
      r == Failure(Error("no dialer registered for VTGate protocol " + protocol))
    ensures protocol in dialers ==> r == dialers[protocol](address)
  {
    if protocol !in dialers then Failure(Error("no dialer registered for VTGate protocol " + protocol))
    else
      match dialers[protocol](address)
      case Failure(e) => Failure(e)
      case Success(impl) => Success(impl)
  }

  /** The package-level `dialers` map. */
  class DialerRegistry {
    var dialers: map<string, DialerFunc>

    constructor ()
      ensures dialers == map[]
    {
      dialers := map[];
    }

    /** RegisterDialer: the name now maps to this dialer; a dialer already there
        is overwritten (with a warning), and other names are unaffected. */
    method RegisterDialer(name: string, dialer: DialerFunc) returns (overwritten: bool)
      modifies this
      ensures overwritten == (name in old(dialers))
      ensures dialers == old(dialers)[name := dialer]
    {
      overwritten := name in dialers;
      dialers := dialers[name := dialer];
    }

    /** Dial: DialProtocol with the vtgate_protocol flag at its default. */
    function Dial(address: string): (r: Result<Impl, Error>)
      reads this
      ensures r == DialProtocol(dialers, GoRPCProtocol, address)
    {
      DialProtocol(dialers, "gorpc", address)
    }
  }

  /** Lookup after registration yields the dialer registered last. */
  lemma DialUsesLastRegistered(dialers: map<string, DialerFunc>, name: string,
                               first: DialerFunc, last: DialerFunc, address: string)
    ensures DialProtocol(dialers[name := first][name := last], name, address) == last(address)
  {
  }
}
