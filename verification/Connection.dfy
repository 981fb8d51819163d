/** The browser's connection to the message router. What discovery needs from it is when an epoch, the
    time between an open and the next close, begins and ends. */
module Connection {
  import opened Prelude

  datatype Status = Idle | Connected | Disconnected | SessionExpired

  datatype Conn = Conn(connectCalled: bool, attached: bool, isConnected: bool, status: Status, timer: Option<int>)

  const NOT_CONNECTED := Conn(false, false, false, Idle, None)

  const DISCONNECT_SESSION_AFTER := 1000 * 60 * 15

  function OnConnect(c: Conn): Conn {
    if c.connectCalled then c else c.(connectCalled := true, attached := true)
  }

  function OnDisconnect(c: Conn): Conn {
    c.(connectCalled := false)
  }

  /** Events reach the connection once it has set its handlers. */
  function OnOpened(c: Conn, now: int): Conn {
    if !c.attached then c else c.(isConnected := true, status := Connected, timer := Some(now + DISCONNECT_SESSION_AFTER))
  }

  function OnClosed(c: Conn, byUs: bool): Conn {
    if !c.attached then c else c.(isConnected := false, status := if byUs then SessionExpired else Disconnected, timer := None)
  }

  /** The session has lasted long enough. */
  function OnAutoDisconnect(c: Conn, now: int): Conn {
    if c.timer.Some? && c.timer.value <= now then OnDisconnect(c.(timer := None)) else c
  }

  /** Connected is what the status says, and only a connected session is going to be ended. */
  predicate ConnOk(c: Conn) {
    && (c.isConnected <==> c.status.Connected?)
    && (c.timer.Some? ==> c.isConnected)
    && (c.connectCalled || c.isConnected ==> c.attached)
  }

  class RouterConnection {
    var connectCalled: bool
    var attached: bool
    var isConnected: bool
    var status: Status
    var autoDisconnect: Option<int>

    function State(): Conn
      reads this
    {
      Conn(connectCalled, attached, isConnected, status, autoDisconnect)
    }

    constructor ()
      ensures State() == NOT_CONNECTED && ConnOk(State())
    {
      connectCalled, attached, isConnected, status, autoDisconnect := false, false, false, Idle, None;
    }

    method Connect()
      requires ConnOk(State())
      modifies this
      ensures State() == OnConnect(old(State())) && ConnOk(State())
    {
      if !connectCalled {
        connectCalled := true;
        attached := true;
      }
    }

    method Disconnect() returns (closing: bool)
      requires ConnOk(State())
      modifies this`connectCalled
      ensures State() == OnDisconnect(old(State())) && ConnOk(State())
      ensures closing == old(connectCalled)
    {
      closing := connectCalled;
      if connectCalled {
        connectCalled := false;
      }
    }

    method Opened(now: int)
      requires ConnOk(State()) && attached
      modifies this
      ensures State() == OnOpened(old(State()), now) && ConnOk(State())
    {
      isConnected := true;
      autoDisconnect := Some(now + DISCONNECT_SESSION_AFTER);
      status := Connected;
    }

    method Closed(byUs: bool)
      requires ConnOk(State()) && attached
      modifies this
      ensures State() == OnClosed(old(State()), byUs) && ConnOk(State())
    {
      isConnected := false;
      autoDisconnect := None;
      status := if byUs then SessionExpired else Disconnected;
    }

    method AutoDisconnect(now: int) returns (closing: bool)
      requires ConnOk(State()) && autoDisconnect.Some? && autoDisconnect.value <= now
      modifies this
      ensures State() == OnAutoDisconnect(old(State()), now) && ConnOk(State())
      ensures closing == old(connectCalled)
    {
      autoDisconnect := None;
      closing := Disconnect();
    }
  }
}
