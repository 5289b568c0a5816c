/** The vttablet client registry (go/vt/tabletserver/tabletconn/tablet_conn.go):
    error codes, and the package-level map of dialers by protocol name, where a
    second registration under one name is fatal. */
module TabletConn {
  import opened Wrappers

  /** Error codes of a vttablet ServerError, in declaration order (iota). */
  const ErrNormal: int := 0
  const ErrRetry: int := 1
  const ErrFatal: int := 2
  const ErrTxPoolFull: int := 3
  const ErrNotInTx: int := 4

  /** Messages of the two OperationalError constants. */
  const ConnClosed: string := "vttablet: Connection Closed"
  const Cancelled: string := "vttablet: Context Cancelled"

  /** Default of the tablet_protocol flag. */
  const DefaultTabletProtocol: string := "gorpc"

  /** A TabletDialer; the model never calls one. */
  datatype TabletDialer = TabletDialer(name: string)

  /** The message log.Fatalf prints before the process exits. */
  datatype Fatal = Fatal(message: string)

  /** The error codes are the consecutive integers 0 to 4, one per code. */
  function ErrorCodes(): (codes: seq<int>)
    ensures |codes| == 5
    ensures forall i | 0 <= i < |codes| :: codes[i] == i
  {
    [ErrNormal, ErrRetry, ErrFatal, ErrTxPoolFull, ErrNotInTx]
  }

  /** The package-level `dialers` map. */
  class DialerRegistry {
    var dialers: map<string, TabletDialer>

    constructor ()
      ensures dialers == map[]
    {
      dialers := map[];
    }

    /** RegisterDialer: a fresh name is added; an existing one is fatal, and the
        process stops before the map is written. */
    method RegisterDialer(name: string, dialer: TabletDialer) returns (fatal: Option<Fatal>)
      modifies this
      ensures name in old(dialers) ==>
        fatal == Some(Fatal("Dialer " + name + " already exists")) && dialers == old(dialers)
      ensures name !in old(dialers) ==>
        fatal == None && dialers == old(dialers)[name := dialer]
    {
      if name in dialers {
        return Some(Fatal("Dialer " + name + " already exists"));
      }
      dialers := dialers[name := dialer];
      fatal := None;
    }

    /** GetDialer for the protocol the tablet_protocol flag selects. */
    function GetDialer(protocol: string): (r: Result<TabletDialer, Fatal>)
      reads this
      ensures r.Success? <==> protocol in dialers
      ensures r.Success? ==> r.value == dialers[protocol]
      ensures r.Failure? ==> r.error == Fatal("No dialer registered for tablet protocol " + protocol)
    {
      if protocol in dialers then Success(dialers[protocol])
      else Failure(Fatal("No dialer registered for tablet protocol " + protocol))
    }

    /** GetDialer with the flag at its default. */
    function GetDefaultDialer(): (r: Result<TabletDialer, Fatal>)
      reads this
      ensures r == GetDialer(DefaultTabletProtocol)
    {
      GetDialer("gorpc")
    }
  }
}
