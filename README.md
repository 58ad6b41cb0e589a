# JniChannelProvider, modelled in Dafny

ZetaSQL's Java client talks to its local service over one end of a native
socket pair, wrapped so that Netty and gRPC treat it as a connected stream
socket. This project models the three pieces of logic in
`JniChannelProvider` that decide anything:

- **Library path selection** (`LibraryPath`, `library_path.dfy`): the system
  property `zetasql.local_service.path` wins when it is set. Otherwise the path
  is `/zetasql/local_service/` followed by `liblocal_service_jni.so` on
  `Linux` or `liblocal_service_jni.dylib` on `Mac OS X`. Any other
  `os.name`, or none at all, throws `RuntimeException("Unsupported os")`. The
  system properties are a `map<string, string>` parameter, and an absent key
  stands for `null`.
- **`SocketPairChannel`** (`SocketPair`, `socket_pair_channel.dfy`): a class
  with the `calledDoConnect` flag and an `open` field. The `open` field stands
  for the superclass's `isActive()`. `DoConnect` rejects every remote address
  except the sentinel `ADDRESS` with `IllegalArgumentException`. Otherwise it
  sets the flag and returns `true`. `IsActive` is the flag and `open` together.
  Both addresses are always the sentinel. A value-level model
  (`ChannelState`, `Event`, `Run`) replays any sequence of connect steps and
  socket closes. Lemmas over it state when a channel is active.
- **Lazy event-loop group** (`EventLoop`, `event_loop.dfy`): the static
  `eventLoop` field is a nullable field of a `JniChannelProvider` object,
  which stands for the class's static state. `GetEventLoop` creates the group
  (pool `zetasqlJniChannel`, daemon threads, thread count 0 meaning the
  runtime default) on the first call. Every later call returns the same group.
  A ghost list of created groups records that at most one is ever made. A
  value-level model (`LoopCell`, `GetEventLoopCalls`) numbers groups by
  creation order. It proves that any number of calls creates exactly one group
  and returns it every time.

`Wrappers` (`wrappers.dfy`) defines `Option` for Java's `null`, `Result`
for a thrown exception, and the exceptions involved.

Two details of the code that the model keeps:

- `getLibraryPath` reports an unsupported system with a plain
  `RuntimeException("Unsupported os")`
  (java/com/google/zetasql/JniChannelProvider.java:53).
- `doConnect` sets the flag on every successful call, and nothing ever clears
  it (java/com/google/zetasql/JniChannelProvider.java:122-124).

## Model

| member | source | states |
|---|---|---|
| LibraryPath.GetLibraryPath | java/com/google/zetasql/JniChannelProvider.java:40-54 | An override in `zetasql.local_service.path` is returned unchanged. Without one, the result succeeds exactly on `Linux` and `Mac OS X`, with the two literal default paths. Every failure happens without an override and is `RuntimeException("Unsupported os")`. |
| LibraryPath.DefaultPathsSpelledOut | java/com/google/zetasql/JniChannelProvider.java:46-51 | The directory prefix joined with each file name gives exactly the two default paths. |
| LibraryPath.OverrideIgnoresOs | java/com/google/zetasql/JniChannelProvider.java:41-44 | With the override set, changing or removing `os.name` leaves the result unchanged, and it is the override. |
| LibraryPath.DefaultPathShape | java/com/google/zetasql/JniChannelProvider.java:46-51 | A default path starts with `/zetasql/local_service/`. The rest is the `.so` name exactly on Linux and the `.dylib` name exactly on Mac OS X. |
| LibraryPath.OnlyTwoPropertiesRead | java/com/google/zetasql/JniChannelProvider.java:41-47 | Two property sets that agree on the override and on `os.name` give the same result. |
| SocketPair.ConnectStep | java/com/google/zetasql/JniChannelProvider.java:117-126 | The connect step succeeds exactly for remote `ADDRESS` and then returns `true` and sets the flag. Otherwise it fails with `IllegalArgumentException("Invalid remoteAddress")` and the state unchanged. The socket's openness never changes. |
| SocketPair.ConnectIgnoresLocalAndIsIdempotent | java/com/google/zetasql/JniChannelProvider.java:117-126 | The local address does not affect the outcome. Repeating a connect step returns the same result and changes nothing more. |
| SocketPair.Step | java/com/google/zetasql/JniChannelProvider.java:117-124 | After an event, the flag is set iff it was set before or the event is a successful connect. The socket is open iff it was open and the event is not a close. |
| SocketPair.Run | java/com/google/zetasql/JniChannelProvider.java:85-126 | Over any sequence of events the flag is never cleared, and a closed socket never reopens. |
| SocketPair.RunState | java/com/google/zetasql/JniChannelProvider.java:85-126 | After any sequence of events, the flag is set iff it started set or some connect step to `ADDRESS` occurred. The socket is open iff it started open and no close occurred. |
| SocketPair.FreshChannelActive | java/com/google/zetasql/JniChannelProvider.java:85-103 | A new channel is active after a sequence of events iff its socket was open, some connect step succeeded and no close occurred. In particular it is inactive before any successful connect, even over an open socket. |
| SocketPair.ActiveUntilClosed | java/com/google/zetasql/JniChannelProvider.java:100-103 | An active channel stays active through any sequence of events without a close. |
| SocketPair.SocketPairChannel.constructor | java/com/google/zetasql/JniChannelProvider.java:84-97 | A new channel has `calledDoConnect` false and the socket's openness, so it reports inactive. |
| SocketPair.SocketPairChannel.IsActive | java/com/google/zetasql/JniChannelProvider.java:99-104 | Active iff `calledDoConnect` and the wrapped socket is open, which is `Active` of the channel's state. |
| SocketPair.SocketPairChannel.LocalAddress | java/com/google/zetasql/JniChannelProvider.java:106-109 | Always the sentinel `ADDRESS`. |
| SocketPair.SocketPairChannel.RemoteAddress | java/com/google/zetasql/JniChannelProvider.java:111-114 | Always the sentinel `ADDRESS`. |
| SocketPair.SocketPairChannel.DoConnect | java/com/google/zetasql/JniChannelProvider.java:116-126 | Result and new state are those of `ConnectStep`. A remote other than `ADDRESS` (including none) gives the `IllegalArgumentException` and leaves the flag as it was. `ADDRESS` gives `true` with the flag set. `open` is not modified. |
| SocketPair.NewSocketPairChannel | java/com/google/zetasql/JniChannelProvider.java:87-97 | An `IOException` from the native provider becomes `ChannelException("Failed to open a socket.", cause)`; any other exception passes through unwrapped. Otherwise the result is a fresh channel over the handle, not yet connected. |
| EventLoop.EventLoopGroup.constructor | java/com/google/zetasql/JniChannelProvider.java:132-134 | The group keeps the pool name, daemon flag and thread count it was created with. |
| EventLoop.JniChannelProvider.constructor | java/com/google/zetasql/JniChannelProvider.java:38 | The field starts `null` and no group has been created. |
| EventLoop.JniChannelProvider.GetEventLoop | java/com/google/zetasql/JniChannelProvider.java:129-137 | Afterwards the field holds the returned group, which is the only group ever created. A stored group is returned unchanged with nothing created. Otherwise the group is fresh. It is named `zetasqlJniChannel`, uses daemon threads and asks for 0 threads. The step agrees with `GetEventLoopStep`. |
| EventLoop.GetEventLoopStep | java/com/google/zetasql/JniChannelProvider.java:129-137 | The cell afterwards stores the returned group. A stored group is returned with the cell unchanged. Otherwise the next group in creation order is created and stored. |
| EventLoop.GetEventLoopCalls | java/com/google/zetasql/JniChannelProvider.java:129-137 | `n` calls return a sequence of `n` group numbers, and after at least one call a group is stored. |
| EventLoop.LaterCallsReuse | java/com/google/zetasql/JniChannelProvider.java:130-136 | Once a group is stored, any number of calls returns it every time and creates nothing. |
| EventLoop.SingletonCreatedOnce | java/com/google/zetasql/JniChannelProvider.java:129-137 | From the initial `null` field, any positive number of calls creates exactly one group and returns that group every time. |

## Left out

- The static initializer (java/com/google/zetasql/JniChannelProvider.java:56-76) is not modelled: it sets a system property, loads the native library from the jar and registers a gRPC load balancer by reflection. Only the path choice it depends on is modelled.
- The native `getSocketChannel` call is not modelled. Its outcome, a handle or the exception it throws, is a parameter of `NewSocketPairChannel`.
- Netty's own channel state behind `super.isActive()` is reduced to the `open` field. No class method changes it. Closing the socket appears only as the `SocketClosed` event of the value-level model. No socket I/O is modelled.
- `newChannel` is not modelled. It configures a `NettyChannelBuilder` whose behaviour is outside this code. That each channel shares the one group follows from `GetEventLoop`.
- `synchronized`, `stateLock` and thread scheduling are not modelled. Every method runs sequentially, so no happens-before ordering between threads is stated.
- The thread factory and the worker threads of `NioEventLoopGroup` exist only as the recorded pool name, daemon flag and requested thread count.
- `InetSocketAddress` equality is not modelled. Addresses are an abstract datatype with one sentinel value, and `null` is `None`.
- `eventLoop` is a static field, so Java shares one group across every provider instance. The model covers a single class-wide state: one `JniChannelProvider` object stands for the class's static state, and two such objects would wrongly hold two groups. `getEventLoop` is `synchronized` on the instance although the field it guards is static; locking is not modelled.
