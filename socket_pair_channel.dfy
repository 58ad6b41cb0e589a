/**
 * The channel that wraps one end of a native socket pair. The socket is
 * already connected when it is handed over, so the runtime's connect step is
 * a formality: it only accepts the sentinel address and records that it was
 * made. The channel is active once that step has run and while the wrapped
 * socket is still open.
 */
module SocketPair {
  import opened Wrappers

  /** Socket addresses, abstracted: the sentinel every channel reports, or any other address. */
  datatype Address = Sentinel | Elsewhere(id: nat)

  /** The fixed placeholder address shared by every channel (`new InetSocketAddress(0)`). */
  const ADDRESS: Address := Sentinel

  const InvalidRemoteAddress: string := "Invalid remoteAddress"
  const FailedToOpen: string := "Failed to open a socket."

  /** The native socket handed over by the handle provider; `open` stands for what the runtime reports about it. */
  datatype SocketHandle = SocketHandle(open: bool)

  /** The state of one channel: whether the connect step ran, and whether the wrapped socket is open. */
  datatype ChannelState = ChannelState(calledDoConnect: bool, open: bool)

  /** Both conditions are needed for the channel to count as active. */
  predicate Active(s: ChannelState) {
    s.calledDoConnect && s.open
  }

  /** The connect step: what it returns and the state it leaves. */
  function ConnectStep(s: ChannelState, remote: Option<Address>, local: Option<Address>)
    : (out: (Result<bool, Exception>, ChannelState))
    ensures out.0.Success? <==> remote == Some(ADDRESS)
    ensures out.0.Success? ==> out.0.value && out.1.calledDoConnect
    ensures out.0.Failure? ==> out.0.error == IllegalArgumentException("Invalid remoteAddress") && out.1 == s
    ensures out.1.open == s.open
  {
    if remote != Some(ADDRESS) then (Failure(IllegalArgumentException(InvalidRemoteAddress)), s)
    else (Success(true), s.(calledDoConnect := true))
  }

  /** The local address plays no part, and a second connect to the sentinel changes nothing. */
  lemma ConnectIgnoresLocalAndIsIdempotent(s: ChannelState, remote: Option<Address>,
                                           local1: Option<Address>, local2: Option<Address>)
    ensures ConnectStep(s, remote, local1) == ConnectStep(s, remote, local2)
    ensures var t := ConnectStep(s, remote, local1).1;
            ConnectStep(t, remote, local2) == (ConnectStep(s, remote, local1).0, t)
  {
  }

  /** What can happen to a channel: the runtime's connect step, or the wrapped socket closing. */
  datatype Event = DoConnect(remote: Option<Address>, local: Option<Address>) | SocketClosed

  /** A connect step that succeeds. */
  predicate Connects(e: Event) {
    e.DoConnect? && e.remote == Some(ADDRESS)
  }

  function Step(s: ChannelState, e: Event): (t: ChannelState)
    ensures t.calledDoConnect == (s.calledDoConnect || Connects(e))
    ensures t.open == (s.open && !e.SocketClosed?)
  {
    match e
    case DoConnect(remote, local) => ConnectStep(s, remote, local).1
    case SocketClosed => s.(open := false)
  }

  /** The state after the events of `trace`, in order. */
  function Run(s: ChannelState, trace: seq<Event>): (t: ChannelState)
    // the flag is never cleared, and a closed socket stays closed
    ensures s.calledDoConnect ==> t.calledDoConnect
    ensures t.open ==> s.open
    decreases |trace|
  {
    if trace == [] then s else Run(Step(s, trace[0]), trace[1..])
  }

  /** The flag is set exactly when the channel started with it or some connect step succeeded;
      the socket is open exactly when it started open and never closed. */
  lemma {:induction false} RunState(s: ChannelState, trace: seq<Event>)
    ensures Run(s, trace).calledDoConnect <==>
              s.calledDoConnect || exists i :: 0 <= i < |trace| && Connects(trace[i])
    ensures Run(s, trace).open <==>
              s.open && forall i :: 0 <= i < |trace| ==> !trace[i].SocketClosed?
    decreases |trace|
  {
    if trace != [] {
      var rest := trace[1..];
      RunState(Step(s, trace[0]), rest);
      if !Connects(trace[0]) && exists i :: 0 <= i < |rest| && Connects(rest[i]) {
        var i :| 0 <= i < |rest| && Connects(rest[i]);
        assert trace[i + 1] == rest[i];
      }
      if exists i :: 0 <= i < |trace| && Connects(trace[i]) {
        var i :| 0 <= i < |trace| && Connects(trace[i]);
        if i > 0 {
          assert rest[i - 1] == trace[i];
        }
      }
      if !(forall i :: 0 <= i < |trace| ==> !trace[i].SocketClosed?) {
        var i :| 0 <= i < |trace| && trace[i].SocketClosed?;
        if i > 0 {
          assert rest[i - 1] == trace[i];
        }
      }
    }
  }

  /** A fresh channel becomes active exactly when its socket was open, a connect step succeeded
      and the socket has not closed since; before any successful connect step it is never active. */
  lemma {:induction false} FreshChannelActive(open: bool, trace: seq<Event>)
    ensures Active(Run(ChannelState(false, open), trace)) <==>
              open && (exists i :: 0 <= i < |trace| && Connects(trace[i]))
                   && (forall i :: 0 <= i < |trace| ==> !trace[i].SocketClosed?)
  {
    RunState(ChannelState(false, open), trace);
  }

  /** An active channel stays active until its socket closes, whatever connect steps follow. */
  lemma {:induction false} ActiveUntilClosed(s: ChannelState, trace: seq<Event>)
    requires Active(s)
    requires forall i :: 0 <= i < |trace| ==> !trace[i].SocketClosed?
    ensures Active(Run(s, trace))
  {
    RunState(s, trace);
  }

  /** `SocketPairChannel`, with the state that the Java superclass keeps reduced to `open`. */
  class SocketPairChannel {
    var calledDoConnect: bool
    /** Stands for what the superclass's `isActive()` reports about the wrapped socket. */
    var open: bool

    function State(): ChannelState
      reads this
    {
      ChannelState(calledDoConnect, open)
    }

    /** A new channel has not been connected, so it is inactive even over an open socket. */
    constructor (socket: SocketHandle)
      ensures State() == ChannelState(false, socket.open)
      ensures !IsActive()
    {
      calledDoConnect := false;
      open := socket.open;
    }

    function IsActive(): (active: bool)
      reads this
      ensures active == Active(State())
    {
      calledDoConnect && open
    }

    function LocalAddress(): (a: Address)
      ensures a == ADDRESS
    {
      ADDRESS
    }

    function RemoteAddress(): (a: Address)
      ensures a == ADDRESS
    {
      ADDRESS
    }

    /** The runtime's connect step: rejects any remote address but the sentinel, otherwise sets the flag. */
    method DoConnect(remote: Option<Address>, local: Option<Address>) returns (r: Result<bool, Exception>)
      modifies this`calledDoConnect
      ensures (r, State()) == ConnectStep(old(State()), remote, local)
      ensures remote != Some(ADDRESS) ==>
                r == Failure(IllegalArgumentException("Invalid remoteAddress")) &&
                calledDoConnect == old(calledDoConnect)
      ensures remote == Some(ADDRESS) ==> r == Success(true) && calledDoConnect
    {
      if remote != Some(ADDRESS) {
        return Failure(IllegalArgumentException(InvalidRemoteAddress));
      }
      calledDoConnect := true;
      return Success(true);
    }
  }

  /** Construction over the outcome of the native provider: an `IOException` it throws becomes a
      ChannelException, and any other exception passes through unwrapped. */
  method NewSocketPairChannel(native: Result<SocketHandle, Exception>)
    returns (r: Result<SocketPairChannel, Exception>)
    ensures native.Failure? && native.error.IOException? ==>
              r == Failure(ChannelException("Failed to open a socket.", native.error))
    ensures native.Failure? && !native.error.IOException? ==> r == Failure(native.error)
    ensures native.Success? ==>
              r.Success? && fresh(r.value) && r.value.State() == ChannelState(false, native.value.open)
  {
    if native.Failure? {
      if native.error.IOException? {
        return Failure(ChannelException(FailedToOpen, native.error));
      }
      return Failure(native.error);
    }
    var channel := new SocketPairChannel(native.value);
    return Success(channel);
  }
}
