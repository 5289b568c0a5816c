/** The Python vttablet client (py/vtdb/tablet.py): how errors from the RPC
    layer become database exceptions, the transaction and session ids of a
    TabletConnection, and its streaming row cursor.

    Exceptions are values: a class and the argument tuple, whose members are
    strings here. The RPC client is a collaborator: the outcome of each call
    (a reply or a raised exception) is an input, and the packets of a stream
    not yet read are a sequence the connection holds. */
module VtdbTablet {
  import opened Wrappers
  import opened Strings

  /** The exception classes the module raises, returns or lets through. */
  datatype ExcClass =
    // net.gorpc: TimeoutError, AppError, ProgrammingError, and GoRpcError or any other subclass of it
    | RpcTimeoutError | RpcAppError | RpcProgrammingError | RpcError
    // vtdb.dbexceptions
    | RetryError | FatalError | TxPoolFull | IntegrityError | DatabaseError
    | TimeoutError | ProgrammingError | NotSupportedError
    // builtins
    | KeyError | TypeError | IndexError
  {
    /** isinstance(exc, gorpc.GoRpcError) */
    predicate IsGoRpc() {
      this == RpcTimeoutError || this == RpcAppError || this == RpcProgrammingError || this == RpcError
    }
  }

  datatype PyExc = PyExc(cls: ExcClass, args: seq<string>)

  // ---------------------------------------------------------------------------
  // The pattern \(errno (\d+)\)

  const ErrnoMarker: string := "(errno "

  /** The end of the run of digits starting at `j`. */
  function DigitRunEnd(s: string, j: nat): (r: nat)
    requires j <= |s|
    ensures j <= r <= |s|
    ensures AllDigits(s[j..r])
    ensures r < |s| ==> !IsDigit(s[r])
    decreases |s| - j
  {
    if j < |s| && IsDigit(s[j]) then
      var r := DigitRunEnd(s, j + 1);
      assert forall k | 0 <= k < r - j :: s[j..r][k] == s[j + k];
      r
    else j
  }

  /** A run of digits ending before a non-digit is the run DigitRunEnd finds. */
  lemma {:induction false} DigitRunEndOf(s: string, j: nat, e: nat)
    requires j <= e < |s| && AllDigits(s[j..e]) && !IsDigit(s[e])
    ensures DigitRunEnd(s, j) == e
    decreases e - j
  {
    if j < e {
      assert s[j..e][0] == s[j];
      assert s[j + 1..e] == s[j..e][1..];
      DigitRunEndOf(s, j + 1, e);
    }
  }

  /** The pattern matches at `i`. \d+ is greedy and ')' is not a digit, so the
      digits are the whole run after the marker. */
  predicate ErrnoAt(s: string, i: int) {
    OccursAt(s, ErrnoMarker, i) &&
    var d := DigitRunEnd(s, i + 7);
    i + 7 < d < |s| && s[d] == ')'
  }

  /** The pattern read literally: the marker, k >= 1 digits, then ')'. */
  predicate PatternAt(s: string, i: int, k: int) {
    OccursAt(s, ErrnoMarker, i) && 1 <= k && i + 7 + k < |s|
    && AllDigits(s[i + 7..i + 7 + k]) && s[i + 7 + k] == ')'
  }

  /** ErrnoAt is the regular expression: it matches exactly where some digit
      count makes the literal pattern match, and that count is unique. */
  lemma ErrnoAtIsPattern(s: string, i: int)
    ensures ErrnoAt(s, i) <==> exists k :: PatternAt(s, i, k)
    ensures forall k | PatternAt(s, i, k) :: k == DigitRunEnd(s, i + 7) - (i + 7)
  {
    if ErrnoAt(s, i) {
      assert PatternAt(s, i, DigitRunEnd(s, i + 7) - (i + 7));
    }
    forall k | PatternAt(s, i, k)
      ensures DigitRunEnd(s, i + 7) == i + 7 + k
    {
      DigitRunEndOf(s, i + 7, i + 7 + k);
    }
  }

  /** re.search: the leftmost match at or after `from`. */
  function SearchErrno(s: string, from: nat): (r: Option<nat>)
    ensures r.Some? ==> from <= r.value && ErrnoAt(s, r.value)
    ensures forall j | from <= j && (r.None? || j < r.value) :: !ErrnoAt(s, j)
    decreases |s| - from
  {
    if from >= |s| then None
    else if ErrnoAt(s, from) then Some(from)
    else SearchErrno(s, from + 1)
  }

  /** Just past the ')' of the match at `i`. */
  function MatchEnd(s: string, i: nat): (e: nat)
    requires ErrnoAt(s, i)
    ensures i + 9 <= e <= |s|
  {
    DigitRunEnd(s, i + 7) + 1
  }

  /** int(match.group(1)) */
  function Errno(s: string, i: nat): (n: nat)
    requires ErrnoAt(s, i)
    // the value of group(1), whichever digit count reads the pattern literally
    ensures forall k | PatternAt(s, i, k) :: n == DecimalValue(s[i + 7..i + 7 + k])
  {
    ErrnoAtIsPattern(s, i);
    DecimalValue(s[i + 7..DigitRunEnd(s, i + 7)])
  }

  /** parts[2] of _errno_pattern.split(s): the text after the first match, up
      to the next match or the end. */
  function SplitTail(s: string, i: nat): (t: string)
    requires ErrnoAt(s, i)
    ensures OccursAt(s, t, MatchEnd(s, i))
  {
    var e := MatchEnd(s, i);
    match SearchErrno(s, e)
    case Some(n) => s[e..n]
    case None => s[e..]
  }

  /** The pruning of lines 39-40 as written: cut at the first place the text
      after the marker occurs. Never longer than the message through the marker. */
  function PruneAsWritten(msg: string, i: nat): (r: string)
    requires ErrnoAt(msg, i)
    ensures |r| <= MatchEnd(msg, i) && r == msg[..|r|]
  {
    FindAtMost(msg, SplitTail(msg, i), MatchEnd(msg, i));
    PrefixTo(msg, Find(msg, SplitTail(msg, i)))
  }

  /** The pruning the comment at lines 35-36 describes: the message through
      the `(errno N)` marker, which the pruned text still carries, with the
      same code. */
  function Prune(msg: string, i: nat): (r: string)
    requires ErrnoAt(msg, i)
    ensures StartsWith(msg, r) && |r| == MatchEnd(msg, i)
    ensures ErrnoAt(r, i) && Errno(r, i) == Errno(msg, i) && MatchEnd(r, i) == |r|
  {
    var r := msg[..MatchEnd(msg, i)];
    var d := DigitRunEnd(msg, i + 7);
    assert r[i + 7..d] == msg[i + 7..d];
    assert r[i..i + 7] == msg[i..i + 7];
    DigitRunEndOf(r, i + 7, d);
    r
  }

  /** When the marker ends the message, the text after it is empty, str.find
      returns 0 and the source keeps nothing of the message. */
  lemma PruneAsWrittenLosesMessage(msg: string, i: nat)
    requires ErrnoAt(msg, i) && MatchEnd(msg, i) == |msg|
    ensures PruneAsWritten(msg, i) == ""
    ensures Prune(msg, i) == msg
  {
    assert SplitTail(msg, i) == "";
    FindEmpty(msg);
  }

  /** The smallest such message. */
  lemma PruneAsWrittenExample()
    ensures ErrnoAt("(errno 1062)", 0) && Errno("(errno 1062)", 0) == 1062
    ensures PruneAsWritten("(errno 1062)", 0) == ""
    ensures Prune("(errno 1062)", 0) == "(errno 1062)"
  {
    var s := "(errno 1062)";
    assert s[0..7] == ErrnoMarker;
    assert s[7..11] == "1062";
    DigitRunEndOf(s, 7, 11);
    assert "1062"[..3] == "106" && "106"[..2] == "10" && "10"[..1] == "1" && "1"[..0] == "";
    assert DecimalValue("1062") == 1062;
    PruneAsWrittenLosesMessage(s, 0);
  }

  /** Where the text after the marker first occurs right after it, the two
      prunings agree. */
  lemma PruneAgreesAwayFromTheEdge(msg: string, i: nat)
    requires ErrnoAt(msg, i) && Find(msg, SplitTail(msg, i)) == MatchEnd(msg, i)
    ensures PruneAsWritten(msg, i) == Prune(msg, i)
  {
  }

  // ---------------------------------------------------------------------------
  // Error classification

  /** handle_app_error: Failure is the IndexError of an empty argument tuple. */
  function HandleAppError(args: seq<string>): (r: Result<PyExc, PyExc>)
    ensures r.Failure? <==> |args| == 0
    ensures r.Failure? ==> r.error.cls == IndexError
    ensures r.Success? ==> r.value.cls in {RetryError, FatalError, TxPoolFull, IntegrityError, DatabaseError}
    // the three prefixes, in this order, before any errno
    ensures |args| > 0 && StartsWith(Lower(args[0]), "retry") ==> r == Success(PyExc(RetryError, args))
    ensures |args| > 0 && !StartsWith(Lower(args[0]), "retry") && StartsWith(Lower(args[0]), "fatal") ==>
      r == Success(PyExc(FatalError, args))
    ensures (|args| > 0 && !StartsWith(Lower(args[0]), "retry") && !StartsWith(Lower(args[0]), "fatal")
             && StartsWith(Lower(args[0]), "tx_pool_full")) ==>
      r == Success(PyExc(TxPoolFull, args))
    // errno 1062: the lower-cased message pruned after the marker, the other arguments kept
    ensures r.Success? && r.value.cls == IntegrityError ==>
      var msg := Lower(args[0]);
      var m := SearchErrno(msg, 0);
      m.Some? && Errno(msg, m.value) == 1062 && r.value.args == [Prune(msg, m.value)] + args[1..]
    ensures r.Success? && r.value.cls != IntegrityError ==> r.value.args == args
  {
    if |args| == 0 then Failure(PyExc(IndexError, ["tuple index out of range"]))
    else
      var msg := Lower(args[0]);
      if StartsWith(msg, "retry") then Success(PyExc(RetryError, args))
      else if StartsWith(msg, "fatal") then Success(PyExc(FatalError, args))
      else if StartsWith(msg, "tx_pool_full") then Success(PyExc(TxPoolFull, args))
      else
        match SearchErrno(msg, 0)
        case None => Success(PyExc(DatabaseError, args))
        case Some(i) =>
          if Errno(msg, i) == 1062 then Success(PyExc(IntegrityError, [Prune(msg, i)] + args[1..]))
          else if Errno(msg, i) == 1290 && Contains(msg, "read-only") then Success(PyExc(RetryError, args))
          else Success(PyExc(DatabaseError, args))
  }

  /** handle_app_error exactly as lines 19-47 are written, with the pruning of
      lines 39-40 in the errno 1062 branch. */
  function HandleAppErrorAsWritten(args: seq<string>): (r: Result<PyExc, PyExc>)
    ensures r.Failure? <==> |args| == 0
    ensures r.Success? ==> r.value.cls in {RetryError, FatalError, TxPoolFull, IntegrityError, DatabaseError}
    ensures r.Success? && r.value.cls != IntegrityError ==> r.value.args == args
  {
    if |args| == 0 then Failure(PyExc(IndexError, ["tuple index out of range"]))
    else
      var msg := Lower(args[0]);
      if StartsWith(msg, "retry") then Success(PyExc(RetryError, args))
      else if StartsWith(msg, "fatal") then Success(PyExc(FatalError, args))
      else if StartsWith(msg, "tx_pool_full") then Success(PyExc(TxPoolFull, args))
      else
        match SearchErrno(msg, 0)
        case None => Success(PyExc(DatabaseError, args))
        case Some(i) =>
          if Errno(msg, i) == 1062 then Success(PyExc(IntegrityError, [PruneAsWritten(msg, i)] + args[1..]))
          else if Errno(msg, i) == 1290 && Contains(msg, "read-only") then Success(PyExc(RetryError, args))
          else Success(PyExc(DatabaseError, args))
  }

  /** The code as written and the corrected classification differ only in the
      message of an integrity error: the same class on every input, the same
      arguments otherwise, and the two prunings of the first match for 1062. */
  lemma {:induction false} HandleAppErrorAsWrittenAgrees(args: seq<string>)
    ensures HandleAppErrorAsWritten(args).Failure? <==> HandleAppError(args).Failure?
    ensures HandleAppErrorAsWritten(args).Success? ==>
      HandleAppErrorAsWritten(args).value.cls == HandleAppError(args).value.cls
    ensures HandleAppError(args).Success? && HandleAppError(args).value.cls != IntegrityError ==>
      HandleAppErrorAsWritten(args) == HandleAppError(args)
    ensures HandleAppError(args).Success? && HandleAppError(args).value.cls == IntegrityError ==>
      var msg := Lower(args[0]);
      var m := SearchErrno(msg, 0);
      && m.Some? && Errno(msg, m.value) == 1062
      && HandleAppErrorAsWritten(args).value.args == [PruneAsWritten(msg, m.value)] + args[1..]
      && HandleAppError(args).value.args == [Prune(msg, m.value)] + args[1..]
  {
    if |args| > 0 {
      var msg := Lower(args[0]);
      if !StartsWith(msg, "retry") && !StartsWith(msg, "fatal") && !StartsWith(msg, "tx_pool_full") {
        match SearchErrno(msg, 0)
        case None =>
        case Some(i) =>
          if Errno(msg, i) == 1062 {
            assert HandleAppError(args) == Success(PyExc(IntegrityError, [Prune(msg, i)] + args[1..]));
            assert HandleAppErrorAsWritten(args) == Success(PyExc(IntegrityError, [PruneAsWritten(msg, i)] + args[1..]));
          }
      }
    }
  }

  /** At the level of the raised exception: a duplicate-key error whose message
      is only the marker becomes an IntegrityError with an empty message. */
  lemma HandleAppErrorAsWrittenExample()
    ensures HandleAppErrorAsWritten(["(errno 1062)"]) == Success(PyExc(IntegrityError, [""]))
    ensures HandleAppError(["(errno 1062)"]) == Success(PyExc(IntegrityError, ["(errno 1062)"]))
  {
    var s := "(errno 1062)";
    var args := [s];
    PruneAsWrittenExample();
    assert args[0] == s && args[1..] == [];
    assert Lower(s) == s;
    assert s[0] == '(' && !StartsWith(s, "retry") && !StartsWith(s, "fatal") && !StartsWith(s, "tx_pool_full");
    assert SearchErrno(s, 0) == Some(0);
    assert Lower(args[0]) == s;
    assert Errno(s, 0) == 1062;
    HandleAppErrorByErrno(args);
    assert HandleAppError(args).Success? && HandleAppError(args).value.cls == IntegrityError;
    assert HandleAppError(args).value.args == [Prune(s, 0)];
    assert HandleAppError(args) == Success(PyExc(IntegrityError, [Prune(s, 0)]));
    var msg := Lower(args[0]);
    assert SearchErrno(msg, 0).value == 0;
    HandleAppErrorAsWrittenAgrees(args);
    assert [PruneAsWritten(msg, 0)] + args[1..] == [""];
  }

  /** Past the prefixes, the first errno decides: 1062 is an integrity error,
      1290 about a read-only server is retried, and anything else, including no
      errno at all, is a database error. */
  lemma HandleAppErrorByErrno(args: seq<string>)
    requires |args| > 0
    requires var msg := Lower(args[0]);
      !StartsWith(msg, "retry") && !StartsWith(msg, "fatal") && !StartsWith(msg, "tx_pool_full")
    ensures var msg := Lower(args[0]);
      var m := SearchErrno(msg, 0);
      && (m.None? ==> HandleAppError(args) == Success(PyExc(DatabaseError, args)))
      && (m.Some? && Errno(msg, m.value) == 1062 ==> HandleAppError(args).value.cls == IntegrityError)
      && (m.Some? && Errno(msg, m.value) == 1290 && Contains(msg, "read-only") ==>
            HandleAppError(args) == Success(PyExc(RetryError, args)))
      && (m.Some? && Errno(msg, m.value) != 1062 && !(Errno(msg, m.value) == 1290 && Contains(msg, "read-only")) ==>
            HandleAppError(args) == Success(PyExc(DatabaseError, args)))
  {
  }

  /** convert_exception: the extra arguments are appended, then the gorpc class
      picks the database class; any other exception comes back as it was. */
  function ConvertException(exc: PyExc, extra: seq<string>): (r: Result<PyExc, PyExc>)
    ensures !exc.cls.IsGoRpc() ==> r == Success(exc)
    ensures |exc.args + extra| > 0 ==> r.Success?
    ensures r.Success? ==> !r.value.cls.IsGoRpc()
    ensures exc.cls == RpcTimeoutError ==> r == Success(PyExc(TimeoutError, exc.args + extra))
    ensures exc.cls == RpcAppError ==> r == HandleAppError(exc.args + extra)
    ensures exc.cls == RpcProgrammingError ==> r == Success(PyExc(ProgrammingError, exc.args + extra))
    ensures exc.cls == RpcError ==> r == Success(PyExc(FatalError, exc.args + extra))
  {
    var newArgs := exc.args + extra;
    match exc.cls
    case RpcTimeoutError => Success(PyExc(TimeoutError, newArgs))
    case RpcAppError => HandleAppError(newArgs)
    case RpcProgrammingError => Success(PyExc(ProgrammingError, newArgs))
    case RpcError => Success(PyExc(FatalError, newArgs))
    case _ => Success(exc)
  }

  /** Converting a converted exception changes nothing, whatever is appended. */
  lemma ConvertIdempotent(exc: PyExc, extra: seq<string>, more: seq<string>)
    requires ConvertException(exc, extra).Success?
    ensures ConvertException(ConvertException(exc, extra).value, more) == ConvertException(exc, extra)
  {
  }

  /** `except gorpc.GoRpcError as e: raise convert_exception(e, str(self))`:
      the exception that leaves the handler. */
  function Reraised(e: PyExc, desc: string): (r: PyExc)
    ensures !e.cls.IsGoRpc() ==> r == e
    ensures e.cls.IsGoRpc() ==> Success(r) == ConvertException(e, [desc]) && !r.cls.IsGoRpc()
  {
    if e.cls.IsGoRpc() then ConvertException(e, [desc]).value else e
  }

  // ---------------------------------------------------------------------------
  // Replies

  /** The `Err` entry of a reply: absent, a falsy value, or a dict with or
      without a `Message` (and possibly other keys). */
  datatype ErrField = ErrAbsent | ErrFalsy | ErrDict(message: Option<string>, otherKeys: bool)

  /** Python truthiness of the entry: an empty dict is falsy. */
  predicate ErrTruthy(e: ErrField)
    ensures ErrTruthy(e) ==> e.ErrDict?
    ensures e.ErrDict? && e.message.Some? ==> ErrTruthy(e)
    ensures e == ErrDict(None, false) ==> !ErrTruthy(e)
  {
    e.ErrDict? && (e.message.Some? || e.otherKeys)
  }

  /** A reply: None (or another falsy value), a non-dict, or a dict with its
      `Err` and `TransactionId` entries. */
  datatype Reply = NoReply | NotADict | ReplyDict(err: ErrField, transactionId: Option<int>)

  const MissingMessage: string := "Missing error message"

  /** rpc_call_and_extract_error: the client's exception propagates; a reply
      with a truthy Err raises AppError with its message (or a stand-in) and the
      method name; every other reply comes back unchanged. */
  function RpcCallAndExtractError(methodName: string, call: Result<Reply, PyExc>): (r: Result<Reply, PyExc>)
    ensures call.Failure? ==> r == call
    ensures call.Success? && (!call.value.ReplyDict? || !ErrTruthy(call.value.err)) ==> r == call
    ensures call.Success? && call.value.ReplyDict? && ErrTruthy(call.value.err) ==>
      r == Failure(PyExc(RpcAppError, [call.value.err.message.GetOr(MissingMessage), methodName]))
  {
    match call
    case Failure(_) => call
    case Success(reply) =>
      if reply.ReplyDict? && ErrTruthy(reply.err) then
        Failure(PyExc(RpcAppError, [reply.err.message.GetOr(MissingMessage), methodName]))
      else call
  }

  // ---------------------------------------------------------------------------
  // Transactions

  /** _make_req */
  datatype Request = Request(transactionId: int, sessionId: int)

  const NestedTransaction: PyExc := PyExc(NotSupportedError, ["Nested transactions not supported"])

  /** begin: the new transaction id, the exception raised, and the request sent. */
  function BeginSpec(transactionId: int, sessionId: int, call: Result<Reply, PyExc>, desc: string)
    : (r: (int, Option<PyExc>, Option<Request>))
    ensures transactionId != 0 ==> r == (transactionId, Some(NestedTransaction), None)
    ensures transactionId == 0 ==> r.2 == Some(Request(0, sessionId))
    // only a reply carrying a TransactionId opens the transaction
    ensures r.1.None? <==>
      transactionId == 0 && call.Success? && call.value.ReplyDict?
      && !ErrTruthy(call.value.err) && call.value.transactionId.Some?
    ensures r.1.None? ==> r.0 == call.value.transactionId.value
    ensures r.1.Some? ==> r.0 == transactionId
    ensures transactionId == 0 && call.Failure? ==> r.1 == Some(Reraised(call.error, desc))
  {
    if transactionId != 0 then (transactionId, Some(NestedTransaction), None)
    else
      var req := Request(transactionId, sessionId);
      match RpcCallAndExtractError("SqlQuery.Begin", call)
      case Failure(e) => (transactionId, Some(Reraised(e, desc)), Some(req))
      case Success(ReplyDict(_, Some(id))) => (id, None, Some(req))
      case Success(ReplyDict(_, None)) => (transactionId, Some(PyExc(KeyError, ["TransactionId"])), Some(req))
      case Success(_) => (transactionId, Some(PyExc(TypeError, [])), Some(req))
  }

  /** commit and rollback (methodName "SqlQuery.Commit" or "SqlQuery.Rollback"):
      the new transaction id, the reply returned, the exception raised and the
      request sent. */
  function FinishSpec(methodName: string, transactionId: int, sessionId: int,
                      call: Result<Reply, PyExc>, desc: string)
    : (r: (int, Option<Reply>, Option<PyExc>, Option<Request>))
    // afterwards there is no transaction, even when the call fails
    ensures r.0 == 0
    ensures transactionId == 0 ==> r == (0, None, None, None)
    ensures transactionId != 0 ==> r.3 == Some(Request(transactionId, sessionId))
    ensures transactionId != 0 ==>
      match RpcCallAndExtractError(methodName, call)
      case Success(reply) => r.1 == Some(reply) && r.2 == None
      case Failure(e) => r.1 == None && r.2 == Some(Reraised(e, desc))
  {
    if transactionId == 0 then (0, None, None, None)
    else
      var req := Request(transactionId, sessionId);
      match RpcCallAndExtractError(methodName, call)
      case Success(reply) => (0, Some(reply), None, Some(req))
      case Failure(e) => (0, None, Some(Reraised(e, desc)), Some(req))
  }

  // ---------------------------------------------------------------------------
  // Rows and the streaming cursor

  /** A field value as it arrives, or as a conversion makes it. */
  datatype Value = Text(s: string) | Number(n: int)

  /** An entry of field_types.conversions. */
  type Conversion = Value -> Value

  type Row = seq<Option<Value>>

  /** One field of _make_row: None stays None, a conversion is applied, and
      otherwise the value passes through. */
  function ConvertCell(conversion: Option<Conversion>, field: Option<Value>): (v: Option<Value>)
    ensures field.None? ==> v.None?
    ensures field.Some? && conversion.Some? ==> v == Some(conversion.value(field.value))
    ensures field.Some? && conversion.None? ==> v == field
  {
    if field.None? then None
    else if conversion.Some? then Some(conversion.value(field.value))
    else field
  }

  function Min(a: int, b: int): int {
    if a <= b then a else b
  }

  /** The row _make_row builds: izip stops at the shorter input. */
  function ConvertedRow(conversions: seq<Option<Conversion>>, row: Row): (r: Row)
    ensures |r| == Min(|conversions|, |row|)
    ensures forall i | 0 <= i < |r| :: r[i] == ConvertCell(conversions[i], row[i])
  {
    seq(Min(|conversions|, |row|), i requires 0 <= i < Min(|conversions|, |row|) =>
      ConvertCell(conversions[i], row[i]))
  }

  /** _make_row */
  method MakeRow(row: Row, conversions: seq<Option<Conversion>>) returns (converted: Row)
    ensures converted == ConvertedRow(conversions, row)
  {
    converted := [];
    var i := 0;
    while i < |conversions| && i < |row|
      invariant 0 <= i <= Min(|conversions|, |row|)
      invariant converted == ConvertedRow(conversions[..i], row[..i])
    {
      var v: Option<Value>;
      if row[i].None? {
        v := None;
      } else if conversions[i].Some? {
        v := Some(conversions[i].value(row[i].value));
      } else {
        v := row[i];
      }
      converted := converted + [v];
      i := i + 1;
    }
    assert conversions[..i] == conversions || row[..i] == row;
  }

  /** A streamed reply: its Err entry and its Rows (None when absent). */
  datatype StreamReply = StreamReply(err: ErrField, rows: Option<seq<Row>>)

  /** What client.stream_next() gives: None at the end, a reply, or an exception. */
  datatype Fetch = EndOfStream | Packet(reply: StreamReply) | FetchRaised(exc: PyExc)

  /** The stream state of a connection: the conversions, the reply being read
      and the index into its rows (None once the stream has ended), and the
      client's packets not yet read (reading past them gives None). */
  datatype Cursor = Cursor(conversions: seq<Option<Conversion>>, result: Option<StreamReply>,
                           index: Option<nat>, stream: seq<Fetch>)

  function NextPacket(stream: seq<Fetch>): (r: (Fetch, seq<Fetch>))
    ensures stream == [] ==> r == (EndOfStream, [])
    ensures stream != [] ==> r == (stream[0], stream[1..])
  {
    if stream == [] then (EndOfStream, []) else (stream[0], stream[1..])
  }

  const DrainMessage: string :=
    "Connection should only have one packet remaining after streaming app error in RPC response."

  /** The new cursor and the outcome of one _stream_next: a row, None, or an exception. */
  datatype Next = Next(cursor: Cursor, out: Result<Option<Row>, PyExc>)

  /** Line 340 on: the row at the index, and the move to the next reply after the last row. */
  function PopRow(c: Cursor): (n: Next)
    requires c.result.Some? && c.index.Some?
    ensures n.cursor.conversions == c.conversions && n.cursor.stream == c.stream
    // a row comes out exactly when the reply has Rows and the index is inside them
    ensures var rows := c.result.value.rows;
      n.out.Success? <==> rows.Some? && c.index.value < |rows.value|
    ensures n.out.Failure? ==> n.cursor == c
    ensures n.out.Failure? ==> n.out.error.cls == (if c.result.value.rows.None? then KeyError else IndexError)
    ensures n.out.Success? ==>
      var rows := c.result.value.rows.value;
      var i := c.index.value;
      && n.out.value == Some(ConvertedRow(c.conversions, rows[i]))
      // after the last row the reply is dropped and the index reset; otherwise the index advances
      && (i + 1 == |rows| ==> n.cursor.result.None? && n.cursor.index == Some(0))
      && (i + 1 < |rows| ==> n.cursor.result == c.result && n.cursor.index == Some(i + 1))
  {
    var i := c.index.value;
    match c.result.value.rows
    case None => Next(c, Failure(PyExc(KeyError, ["Rows"])))
    case Some(rows) =>
      if i >= |rows| then Next(c, Failure(PyExc(IndexError, ["list index out of range"])))
      else if i + 1 == |rows| then
        Next(c.(result := None, index := Some(0)), Success(Some(ConvertedRow(c.conversions, rows[i]))))
      else Next(c.(index := Some(i + 1)), Success(Some(ConvertedRow(c.conversions, rows[i]))))
  }

  /** _stream_next (lines 319-347), with the drain of lines 349-366 after a
      reply carrying an error. */
  function StreamNextSpec(c: Cursor, desc: string): (n: Next)
    ensures c.index.None? ==> n == Next(c, Success(None))
    ensures n.out == Success(None) ==> n.cursor.index.None?
    ensures n.cursor.conversions == c.conversions
  {
    if c.index.None? then Next(c, Success(None))
    else if c.result.Some? then PopRow(c)
    else
      var (p, rest) := NextPacket(c.stream);
      match p
      case EndOfStream => Next(c.(index := None, stream := rest), Success(None))
      case FetchRaised(e) => Next(c.(stream := rest), Failure(Reraised(e, desc)))
      case Packet(reply) =>
        if !ErrTruthy(reply.err) then PopRow(c.(result := Some(reply), stream := rest))
        else
          var (d, rest2) := NextPacket(rest);
          var c2 := c.(result := Some(reply), stream := rest2);
          match d
          case EndOfStream =>
            Next(c2, Failure(Reraised(PyExc(RpcAppError, [reply.err.message.GetOr(MissingMessage)]), desc)))
          case FetchRaised(e) => Next(c2, Failure(Reraised(e, desc)))
          case Packet(_) => Next(c2, Failure(Reraised(PyExc(RpcError, [DrainMessage]), desc)))
  }

  /** n steps of any cursor step function. */
  function Run(step: Cursor -> Next, c: Cursor, n: nat): (r: (seq<Result<Option<Row>, PyExc>>, Cursor))
    ensures |r.0| == n
    decreases n
  {
    if n == 0 then ([], c)
    else
      var s := step(c);
      var rest := Run(step, s.cursor, n - 1);
      ([s.out] + rest.0, rest.1)
  }

  /** Runs of any step function compose. */
  lemma {:induction false} RunSplit(step: Cursor -> Next, c: Cursor, n: nat, m: nat)
    ensures var first := Run(step, c, n);
      var second := Run(step, first.1, m);
      Run(step, c, n + m) == (first.0 + second.0, second.1)
    decreases n
  {
    if n > 0 {
      var s := step(c);
      RunSplit(step, s.cursor, n - 1, m);
      var a := Run(step, s.cursor, n - 1);
      var b := Run(step, a.1, m);
      assert [s.out] + (a.0 + b.0) == ([s.out] + a.0) + b.0;
    } else {
      assert [] + Run(step, c, m).0 == Run(step, c, m).0;
    }
  }

  /** n calls of _stream_next in a row. */
  function Calls(c: Cursor, desc: string, n: nat): (r: (seq<Result<Option<Row>, PyExc>>, Cursor))
    ensures |r.0| == n
  {
    Run(x => StreamNextSpec(x, desc), c, n)
  }

  /** Calls compose. */
  lemma CallsSplit(c: Cursor, desc: string, n: nat, m: nat)
    ensures var first := Calls(c, desc, n);
      var second := Calls(first.1, desc, m);
      Calls(c, desc, n + m) == (first.0 + second.0, second.1)
  {
    RunSplit(x => StreamNextSpec(x, desc), c, n, m);
  }

  /** Once the stream has ended, every later call returns None and changes nothing. */
  lemma {:induction false} EndedStreamStaysEnded(c: Cursor, desc: string, n: nat)
    requires c.index.None?
    ensures Calls(c, desc, n).1 == c
    ensures forall i | 0 <= i < n :: Calls(c, desc, n).0[i] == Success(None)
    decreases n
  {
    if n > 0 {
      EndedStreamStaysEnded(c, desc, n - 1);
    }
  }

  /** The rows a well-formed stream yields: each converted, in order. */
  function Yields(conversions: seq<Option<Conversion>>, rows: seq<Row>): (r: seq<Result<Option<Row>, PyExc>>)
    ensures |r| == |rows|
  {
    seq(|rows|, i requires 0 <= i < |rows| => Success(Some(ConvertedRow(conversions, rows[i]))))
  }

  /** The rest of the reply being read comes out in order, and then the cursor
      waits for the next reply. */
  lemma {:induction false} RestOfReply(c: Cursor, desc: string, rows: seq<Row>, i: nat)
    requires c.result.Some? && c.result.value.rows == Some(rows) && c.index == Some(i) && i < |rows|
    ensures Calls(c, desc, |rows| - i) == (Yields(c.conversions, rows[i..]), c.(result := None, index := Some(0)))
    decreases |rows| - i
  {
    var s := StreamNextSpec(c, desc);
    assert s.out == Success(Some(ConvertedRow(c.conversions, rows[i])));
    if i + 1 == |rows| {
      assert s.cursor == c.(result := None, index := Some(0));
      assert Calls(c, desc, 1) == ([s.out] + Calls(s.cursor, desc, 0).0, Calls(s.cursor, desc, 0).1);
      assert [s.out] + [] == [s.out];
      assert Yields(c.conversions, rows[i..]) == [s.out];
    } else {
      RestOfReply(s.cursor, desc, rows, i + 1);
      assert Yields(c.conversions, rows[i..]) == [s.out] + Yields(c.conversions, rows[i + 1..]);
    }
  }

  /** A reply without a truthy Err and with rows. */
  predicate GoodReply(r: StreamReply) {
    !ErrTruthy(r.err) && r.rows.Some? && |r.rows.value| > 0
  }

  function AllRows(replies: seq<StreamReply>): seq<Row>
    requires forall k | 0 <= k < |replies| :: GoodReply(replies[k])
  {
    if replies == [] then []
    else
      assert GoodReply(replies[0]);
      replies[0].rows.value + AllRows(replies[1..])
  }

  function Packets(replies: seq<StreamReply>): (ps: seq<Fetch>)
    ensures |ps| == |replies|
  {
    seq(|replies|, k requires 0 <= k < |replies| => Packet(replies[k]))
  }

  lemma YieldsAppend(conversions: seq<Option<Conversion>>, a: seq<Row>, b: seq<Row>)
    ensures Yields(conversions, a + b) == Yields(conversions, a) + Yields(conversions, b)
  {
  }

  /** From the state a stream starts in, well-formed replies yield exactly their
      rows, converted and in order, one reply after the other. */
  lemma {:induction false} StreamYieldsRowsInOrder(c: Cursor, desc: string, replies: seq<StreamReply>, rest: seq<Fetch>)
    requires c.result.None? && c.index == Some(0) && c.stream == Packets(replies) + rest
    requires forall k | 0 <= k < |replies| :: GoodReply(replies[k])
    ensures Calls(c, desc, |AllRows(replies)|) == (Yields(c.conversions, AllRows(replies)), c.(stream := rest))
    decreases |replies|
  {
    if replies == [] {
      assert c.stream == rest;
    } else {
      assert GoodReply(replies[0]);
      var rows := replies[0].rows.value;
      var later := AllRows(replies[1..]);
      assert AllRows(replies) == rows + later;
      assert c.stream[0] == Packet(replies[0]);
      assert c.stream[1..] == Packets(replies[1..]) + rest;
      var c1 := c.(result := Some(replies[0]), stream := c.stream[1..]);
      CallsFromFetch(c, c1, desc, |rows| + |later|);
      RestOfReply(c1, desc, rows, 0);
      assert rows[0..] == rows;
      var c2 := c1.(result := None, index := Some(0));
      assert c2 == c.(stream := Packets(replies[1..]) + rest);
      StreamYieldsRowsInOrder(c2, desc, replies[1..], rest);
      CallsSplit(c1, desc, |rows|, |later|);
      YieldsAppend(c.conversions, rows, later);
      assert c2.(stream := rest) == c.(stream := rest);
    }
  }

  /** A cursor waiting for a good reply behaves as that reply already fetched. */
  lemma CallsFromFetch(c: Cursor, c1: Cursor, desc: string, n: nat)
    requires c.result.None? && c.index == Some(0) && c.stream != [] && c.stream[0].Packet?
    requires GoodReply(c.stream[0].reply)
    requires c1 == c.(result := Some(c.stream[0].reply), stream := c.stream[1..])
    requires n > 0
    ensures Calls(c, desc, n) == Calls(c1, desc, n)
  {
    assert StreamNextSpec(c, desc) == StreamNextSpec(c1, desc);
  }

  /** After the replies, the end of the stream: one None, and None from then on. */
  lemma EndOfStreamEndsCursor(c: Cursor, desc: string, n: nat)
    requires c.result.None? && c.index.Some? && (c.stream == [] || c.stream[0] == EndOfStream)
    ensures Calls(c, desc, n).1.index.None?  || n == 0
    ensures forall i | 0 <= i < n :: Calls(c, desc, n).0[i] == Success(None)
  {
    if n > 0 {
      var s := StreamNextSpec(c, desc);
      assert s.out == Success(None) && s.cursor.index.None?;
      EndedStreamStaysEnded(s.cursor, desc, n - 1);
    }
  }

  // ---------------------------------------------------------------------------
  // The connection

  /** A TabletConnection. */
  class TabletConnection {
    const addr: string
    const tabletType: string
    const keyspace: string
    const shard: string
    var transactionId: int
    var sessionId: int
    var streamConversions: seq<Option<Conversion>>
    var streamResult: Option<StreamReply>
    var streamResultIndex: Option<nat>
    /** The client's stream packets not yet read. */
    var stream: seq<Fetch>

    constructor (addr: string, tabletType: string, keyspace: string, shard: string)
      ensures this.addr == addr && this.tabletType == tabletType && this.keyspace == keyspace && this.shard == shard
      ensures transactionId == 0 && sessionId == 0
      ensures streamResult == None && streamResultIndex == None && stream == []
    {
      this.addr := addr;
      this.tabletType := tabletType;
      this.keyspace := keyspace;
      this.shard := shard;
      transactionId := 0;
      sessionId := 0;
      streamConversions := [];
      streamResult := None;
      streamResultIndex := None;
      stream := [];
    }

    /** str(self) */
    function Describe(): (d: string)
      reads this
      ensures |d| == 22 + |addr| + |tabletType| + |keyspace| + |shard|
      ensures d[18..18 + |addr|] == addr && d[|d| - 1] == '>'
    {
      "<TabletConnection " + addr + " " + tabletType + " " + keyspace + "/" + shard + ">"
    }

    /** _make_req */
    function MakeReq(): (r: Request)
      reads this
      ensures r.transactionId == transactionId && r.sessionId == sessionId
    {
      Request(transactionId, sessionId)
    }

    ghost function StreamState(): Cursor
      reads this
    {
      Cursor(streamConversions, streamResult, streamResultIndex, stream)
    }

    method Begin(call: Result<Reply, PyExc>) returns (raised: Option<PyExc>, sent: Option<Request>)
      modifies this`transactionId
      ensures (transactionId, raised, sent) == BeginSpec(old(transactionId), sessionId, call, Describe())
    {
      if transactionId != 0 {
        return Some(NestedTransaction), None;
      }
      sent := Some(MakeReq());
      var response := RpcCallAndExtractError("SqlQuery.Begin", call);
      match response {
        case Failure(e) =>
          raised := Some(Reraised(e, Describe()));
        case Success(reply) =>
          if reply.ReplyDict? && reply.transactionId.Some? {
            transactionId := reply.transactionId.value;
            raised := None;
          } else if reply.ReplyDict? {
            raised := Some(PyExc(KeyError, ["TransactionId"]));
          } else {
            raised := Some(PyExc(TypeError, []));
          }
      }
    }

    /** commit and rollback: the id is zeroed before the call. */
    method Finish(methodName: string, call: Result<Reply, PyExc>)
      returns (reply: Option<Reply>, raised: Option<PyExc>, sent: Option<Request>)
      modifies this`transactionId
      ensures (transactionId, reply, raised, sent) ==
              FinishSpec(methodName, old(transactionId), sessionId, call, Describe())
    {
      if transactionId == 0 {
        return None, None, None;
      }
      sent := Some(MakeReq());
      transactionId := 0;
      var response := RpcCallAndExtractError(methodName, call);
      match response {
        case Failure(e) =>
          reply, raised := None, Some(Reraised(e, Describe()));
        case Success(r) =>
          reply, raised := Some(r), None;
      }
    }

    method Commit(call: Result<Reply, PyExc>) returns (reply: Option<Reply>, raised: Option<PyExc>, sent: Option<Request>)
      modifies this`transactionId
      ensures (transactionId, reply, raised, sent) ==
              FinishSpec("SqlQuery.Commit", old(transactionId), sessionId, call, Describe())
    {
      reply, raised, sent := Finish("SqlQuery.Commit", call);
    }

    method Rollback(call: Result<Reply, PyExc>) returns (reply: Option<Reply>, raised: Option<PyExc>, sent: Option<Request>)
      modifies this`transactionId
      ensures (transactionId, reply, raised, sent) ==
              FinishSpec("SqlQuery.Rollback", old(transactionId), sessionId, call, Describe())
    {
      reply, raised, sent := Finish("SqlQuery.Rollback", call);
    }

    /** close: a rollback whose failure is ignored, then no session. */
    method Close(call: Result<Reply, PyExc>) returns (sent: Option<Request>)
      modifies this`transactionId, this`sessionId
      ensures transactionId == 0 && sessionId == 0
      ensures sent == (if old(transactionId) == 0 then None else Some(Request(old(transactionId), old(sessionId))))
    {
      var _, _, s := Rollback(call);
      sent := s;
      sessionId := 0;
    }

    /** The stream state _stream_execute sets up (lines 263-266, 275-277):
        the conversions of the fields, no reply, index 0. */
    method StartStream(conversions: seq<Option<Conversion>>, packets: seq<Fetch>)
      modifies this`streamConversions, this`streamResult, this`streamResultIndex, this`stream
      ensures StreamState() == Cursor(conversions, None, Some(0), packets)
    {
      streamConversions := conversions;
      streamResult := None;
      streamResultIndex := Some(0);
      stream := packets;
    }

    /** _stream_next */
    method StreamNext() returns (out: Result<Option<Row>, PyExc>)
      modifies this`streamResult, this`streamResultIndex, this`stream
      ensures Next(StreamState(), out) == StreamNextSpec(old(StreamState()), Describe())
    {
      if streamResultIndex.None? {
        return Success(None);
      }
      if streamResult.None? {
        var p := if stream == [] then EndOfStream else stream[0];
        stream := if stream == [] then [] else stream[1..];
        match p {
          case EndOfStream =>
            streamResultIndex := None;
            return Success(None);
          case FetchRaised(e) =>
            return Failure(Reraised(e, Describe()));
          case Packet(reply) =>
            streamResult := Some(reply);
            if ErrTruthy(reply.err) {
              var d := if stream == [] then EndOfStream else stream[0];
              stream := if stream == [] then [] else stream[1..];
              match d {
                case EndOfStream =>
                  return Failure(Reraised(PyExc(RpcAppError, [reply.err.message.GetOr(MissingMessage)]), Describe()));
                case FetchRaised(e) =>
                  return Failure(Reraised(e, Describe()));
                case Packet(_) =>
                  return Failure(Reraised(PyExc(RpcError, [DrainMessage]), Describe()));
              }
            }
        }
      }
      var i := streamResultIndex.value;
      if streamResult.value.rows.None? {
        return Failure(PyExc(KeyError, ["Rows"]));
      }
      var rows := streamResult.value.rows.value;
      if i >= |rows| {
        return Failure(PyExc(IndexError, ["list index out of range"]));
      }
      var row := MakeRow(rows[i], streamConversions);
      streamResultIndex := Some(i + 1);
      if i + 1 == |rows| {
        streamResult := None;
        streamResultIndex := Some(0);
      }
      out := Success(Some(row));
    }
  }
}
