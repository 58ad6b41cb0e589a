/**
 * The shared event-loop group that drives every channel the provider builds:
 * created on the first request, kept in a field, and handed out unchanged on
 * every later request.
 */
module EventLoop {
  import opened Wrappers

  const PoolName: string := "zetasqlJniChannel"

  /** An event-loop group with the configuration it was created with; `nThreads == 0` asks the runtime for its default count. */
  class EventLoopGroup {
    const poolName: string
    const daemon: bool
    const nThreads: nat

    constructor (poolName: string, daemon: bool, nThreads: nat)
      ensures this.poolName == poolName && this.daemon == daemon && this.nThreads == nThreads
    {
      this.poolName := poolName;
      this.daemon := daemon;
      this.nThreads := nThreads;
    }
  }

  /** The provider's static state: the lazily created group. */
  class JniChannelProvider {
    var eventLoop: EventLoopGroup?
    /** Every group ever created by this provider, in creation order. */
    ghost var groups: seq<EventLoopGroup>

    /** At most one group is ever created, it is the one stored, and it is configured as the provider creates it. */
    ghost predicate Valid()
      reads this
    {
      && (eventLoop == null <==> groups == [])
      && (eventLoop != null ==> groups == [eventLoop])
      && (eventLoop != null ==> eventLoop.poolName == PoolName && eventLoop.daemon && eventLoop.nThreads == 0)
    }

    /** The stored group and the creation count, in the terms of `LoopCell`. */
    ghost function Cell(): LoopCell
      reads this
      requires Valid()
    {
      LoopCell(if eventLoop == null then None else Some(|groups| - 1), |groups|)
    }

    /** Before the first request no group exists. */
    constructor ()
      ensures Valid() && eventLoop == null && groups == []
    {
      eventLoop := null;
      groups := [];
    }

    /** Returns the stored group, creating and storing it first if there is none. */
    method GetEventLoop() returns (g: EventLoopGroup)
      requires Valid()
      modifies this
      ensures Valid() && eventLoop == g && groups == [g]
      ensures old(eventLoop) != null ==> g == old(eventLoop) && groups == old(groups)
      ensures old(eventLoop) == null ==> fresh(g)
      ensures g.poolName == PoolName && g.daemon && g.nThreads == 0
      // the same step as the value-level model, with groups numbered by creation order
      ensures Cell() == GetEventLoopStep(old(Cell())).1 && g == groups[GetEventLoopStep(old(Cell())).0]
    {
      if eventLoop == null {
        var created := new EventLoopGroup(PoolName, true, 0);
        eventLoop := created;
        groups := groups + [created];
      }
      g := eventLoop;
    }
  }

  /** The lazily filled field as a value: the number of the stored group, if any, and how many groups were created.
      Groups are numbered 0, 1, ... in the order they are created. */
  datatype LoopCell = LoopCell(stored: Option<nat>, created: nat)

  /** One request: the number of the group returned and the cell afterwards. */
  function GetEventLoopStep(c: LoopCell): (r: (nat, LoopCell))
    ensures r.1.stored == Some(r.0)
    ensures c.stored.Some? ==> r.0 == c.stored.value && r.1 == c
    ensures c.stored.None? ==> r.0 == c.created && r.1.created == c.created + 1
  {
    match c.stored
    case Some(id) => (id, c)
    case None => (c.created, LoopCell(Some(c.created), c.created + 1))
  }

  /** `n` requests in a row: the groups returned, in order, and the cell afterwards. */
  function GetEventLoopCalls(c: LoopCell, n: nat): (r: (seq<nat>, LoopCell))
    ensures |r.0| == n
    ensures n > 0 ==> r.1.stored.Some?
    decreases n
  {
    if n == 0 then ([], c)
    else
      var (id, next) := GetEventLoopStep(c);
      var (ids, last) := GetEventLoopCalls(next, n - 1);
      ([id] + ids, last)
  }

  /** Once a group is stored, every request returns it and nothing more is created. */
  lemma {:induction false} LaterCallsReuse(id: nat, created: nat, n: nat)
    ensures var (ids, last) := GetEventLoopCalls(LoopCell(Some(id), created), n);
            last == LoopCell(Some(id), created) && forall i :: 0 <= i < n ==> ids[i] == id
    decreases n
  {
    if n > 0 {
      LaterCallsReuse(id, created, n - 1);
      var (ids, last) := GetEventLoopCalls(LoopCell(Some(id), created), n - 1);
      assert GetEventLoopCalls(LoopCell(Some(id), created), n) == ([id] + ids, last);
    }
  }

  /** Starting with no group, any number of requests creates exactly one group and returns it every time. */
  lemma {:induction false} SingletonCreatedOnce(n: nat)
    requires n > 0
    ensures var (ids, last) := GetEventLoopCalls(LoopCell(None, 0), n);
            last == LoopCell(Some(0), 1) && forall i :: 0 <= i < n ==> ids[i] == 0
  {
    LaterCallsReuse(0, 1, n - 1);
    var (ids, last) := GetEventLoopCalls(LoopCell(Some(0), 1), n - 1);
    assert GetEventLoopCalls(LoopCell(None, 0), n) == ([0] + ids, last);
  }
}
