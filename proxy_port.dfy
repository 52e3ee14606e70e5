/**
 * One end of a proxified message port: the caller proxy (a member path), the
 * correlation table of pending calls, the messages posted, the settlement of
 * each call's promise, and closing (`proxify`, `makeProxy`,
 * `closeProxifyPort`, `unproxify`).
 */
module ProxyPort {
  import opened Wrappers
  import opened ProxyValues
  import opened ProxyTarget

  // ----- Caller proxies -----

  /** A caller proxy: the member path it stands for, and the proxy it was read from (none for the root). */
  datatype ProxyNode = ProxyNode(path: seq<Key>, parent: Option<ProxyNode>)

  /** The proxy `proxify(port)` returns: `makeProxy(port, null, [])`. */
  const ROOT: ProxyNode := ProxyNode([], None)

  /** What reading a property of a proxy gives: another proxy, undefined, or null. */
  datatype Access = Proxy(node: ProxyNode) | UndefinedValue | NullValue

  const THEN: Key := Name("then")

  /**
   * The `get` trap: the proxy a proxy was read from for UNREACHABLE (null for
   * the root), undefined for 'then', and otherwise a new proxy one member
   * further down. It posts nothing: it is a function of the proxy alone.
   */
  function Get(node: ProxyNode, property: Key): (a: Access)
    ensures property == UNREACHABLE ==> (a.Proxy? <==> node.parent.Some?)
    ensures property == THEN ==> a == UndefinedValue
    ensures property != UNREACHABLE && property != THEN ==>
      a.Proxy? && a.node.path == node.path + [property]
  {
    if property == UNREACHABLE then
      if node.parent.Some? then Proxy(node.parent.value) else NullValue
    else if property == THEN then UndefinedValue
    else Proxy(ProxyNode(node.path + [property], Some(node)))
  }

  /** Reading the keys one after another, starting at a proxy. */
  function ReadAll(node: ProxyNode, keys: seq<Key>): Access
    decreases |keys|
  {
    if keys == [] then Proxy(node)
    else
      match Get(node, keys[0])
      case Proxy(next) => ReadAll(next, keys[1..])
      case other => other
  }

  /** Plain member names: neither UNREACHABLE nor 'then'. */
  predicate PlainKeys(keys: seq<Key>)
  {
    forall i :: 0 <= i < |keys| ==> keys[i] != UNREACHABLE && keys[i] != THEN
  }

  /** `proxy.a.b.c` is a proxy whose path is the keys read, after the path of the proxy read from. */
  lemma {:induction false} ReadAllPath(node: ProxyNode, keys: seq<Key>)
    requires PlainKeys(keys)
    ensures ReadAll(node, keys).Proxy? && ReadAll(node, keys).node.path == node.path + keys
    decreases |keys|
  {
    if keys != [] {
      var next := Get(node, keys[0]).node;
      assert PlainKeys(keys[1..]) by {
        forall i | 0 <= i < |keys[1..]| ensures keys[1..][i] != UNREACHABLE && keys[1..][i] != THEN {
          assert keys[1..][i] == keys[i + 1];
        }
      }
      ReadAllPath(next, keys[1..]);
      assert node.path + [keys[0]] + keys[1..] == node.path + keys;
    }
  }

  /** UNREACHABLE undoes a member read: it leads back to the proxy read from. */
  lemma UnreachableUndoesGet(node: ProxyNode, property: Key)
    requires property != UNREACHABLE && property != THEN
    ensures Get(Get(node, property).node, UNREACHABLE) == Proxy(node)
  {
  }

  // ----- Settlement of call promises -----

  /** Why a call's promise was rejected. */
  datatype Reason =
    | PortClosed
    /** `Object.assign(new Error(), data.error)`: the error record received, if any. */
    | RemoteError(error: Option<ErrorPayload>)

  datatype Settlement = Resolved(value: Value) | Rejected(reason: Reason)

  /** A promise settles once: later resolve or reject calls change nothing. */
  function Settle(settled: map<nat, Settlement>, call: nat, s: Settlement): (r: map<nat, Settlement>)
    ensures call in r && r.Keys == settled.Keys + {call}
    ensures forall c :: c in settled ==> r[c] == settled[c]
    ensures call !in settled ==> r[call] == s
  {
    if call in settled then settled else settled[call := s]
  }

  /** Every given call rejected with "port closed", unless it had settled already. */
  function RejectAll(settled: map<nat, Settlement>, calls: set<nat>): (r: map<nat, Settlement>)
    ensures r.Keys == settled.Keys + calls
    ensures forall c :: c in settled ==> r[c] == settled[c]
    ensures forall c :: c in calls && c !in settled ==> r[c] == Rejected(PortClosed)
  {
    map c | c in settled.Keys + calls :: if c in settled then settled[c] else Rejected(PortClosed)
  }

  /** The `forEach` of closeProxifyPort: rejects the given calls one at a time. */
  method RejectEach(settled: map<nat, Settlement>, callbacks: set<nat>) returns (rejected: map<nat, Settlement>)
    ensures forall c :: c in rejected <==> c in settled || c in callbacks
    ensures forall c :: c in rejected ==> rejected[c] == if c in settled then settled[c] else Rejected(PortClosed)
  {
    rejected := settled;
    var todo := callbacks;
    while todo != {}
      invariant todo <= callbacks
      invariant forall c :: c in rejected <==> c in settled || (c in callbacks && c !in todo)
      invariant forall c :: c in rejected ==> rejected[c] == if c in settled then settled[c] else Rejected(PortClosed)
      decreases |todo|
    {
      var c :| c in todo;
      if c !in rejected {
        rejected := rejected[c := Rejected(PortClosed)];
      }
      todo := todo - {c};
    }
  }

  /** A map that agrees with RejectAll key by key is RejectAll. */
  lemma RejectAllPointwise(settled: map<nat, Settlement>, calls: set<nat>, r: map<nat, Settlement>)
    requires forall c :: c in r <==> c in settled || c in calls
    requires forall c :: c in r ==> r[c] == if c in settled then settled[c] else Rejected(PortClosed)
    ensures r == RejectAll(settled, calls)
  {
  }

  /** What a response does to its call's promise: `data.hasOwnProperty('result') ? resolve : reject`. */
  function SettlementOf(data: Message): Settlement
    requires !data.Close?
  {
    match data
    case Response(_, result) => Resolved(result)
    case ErrorResponse(_, error) => Rejected(RemoteError(Some(error)))
    case Request(_, _, _) => Rejected(RemoteError(None))
  }

  /** No settlement is ever changed or withdrawn. */
  predicate Extends(before: map<nat, Settlement>, after: map<nat, Settlement>)
  {
    forall c :: c in before ==> c in after && after[c] == before[c]
  }

  /** The argument of `unproxify`: a caller proxy, or the port itself. */
  datatype Handle = ProxyHandle(node: ProxyNode) | PortHandle

  /**
   * A message port, with the module state kept for it: the callbacks of the
   * caller listener, whether they are registered in
   * `mapPortToPromiseCallbacks`, and the target listener's target.
   */
  class Endpoint {
    /** Every `postMessage` on this port, in order. */
    var outbox: seq<Posted>
    /** `port.close()` has been called. */
    var closed: bool
    /** `proxify(port, target)` with a truthy target: the object graph and the target. */
    var target: Option<(Heap, Value)>
    /** `proxify(port)`: the caller listener is installed. */
    var callerListener: bool
    /** `mapPortToPromiseCallbacks.has(port)` */
    var registered: bool
    /** The caller listener's `callbacks` Map: correlation id to call number. */
    var pending: map<Id, nat>
    /** How each call's promise settled, by call number. */
    var settled: map<nat, Settlement>
    /** Number of calls made through the proxies of this port. */
    var calls: nat

    ghost predicate Valid()
      reads this`pending, this`calls, this`settled, this`registered, this`callerListener
    {
      && (forall id :: id in pending ==> pending[id] < calls)
      && (forall id1, id2 :: id1 in pending && id2 in pending && id1 != id2 ==> pending[id1] != pending[id2])
      && (forall c :: c in settled ==> c < calls)
      && (registered ==> callerListener && forall id :: id in pending ==> pending[id] !in settled)
      && (!callerListener ==> pending == map[])
    }

    /**
     * `proxify(port, target)`: a truthy target installs the target listener;
     * otherwise the caller listener is installed with an empty, registered
     * correlation table, and the root proxy is handed out.
     */
    constructor Proxify(heap: Heap, target: Value)
      ensures Valid()
      ensures outbox == [] && !closed && pending == map[] && settled == map[] && calls == 0
      ensures Truthy(target) ==> this.target == Some((heap, target)) && !callerListener && !registered
      ensures !Truthy(target) ==> this.target.None? && callerListener && registered
    {
      outbox, closed, pending, settled, calls := [], false, map[], map[], 0;
      if Truthy(target) {
        this.target := Some((heap, target));
        callerListener, registered := false, false;
      } else {
        this.target := None;
        callerListener, registered := true, true;
      }
    }

    /** An id that no pending call uses (the source draws a random one and does not check). */
    method ChooseId() returns (id: Id)
      ensures id !in pending
    {
      var todo := pending.Keys;
      id := 0;
      while todo != {}
        invariant todo <= pending.Keys
        invariant forall k :: k in pending && k !in todo ==> k < id
        decreases |todo|
      {
        var k :| k in todo;
        if k >= id {
          id := k + 1;
        }
        todo := todo - {k};
      }
    }

    /**
     * The `apply` trap of a proxy of this port, called with args under the id
     * drawn for it. With no registered table the call is rejected with "port
     * closed" and nothing is posted; otherwise the id is entered in the table
     * and exactly one request is posted, with the call's transfer list.
     */
    method Invoke(node: ProxyNode, args: seq<Value>, id: Id, registry: TransferRegistry) returns (call: nat)
      requires Valid()
      modifies this
      ensures Valid()
      ensures call == old(calls) && calls == old(calls) + 1
      ensures closed == old(closed) && registered == old(registered)
      ensures target == old(target) && callerListener == old(callerListener)
      ensures !registered ==>
        && outbox == old(outbox) && pending == old(pending)
        && settled == old(settled)[call := Rejected(PortClosed)]
      ensures registered ==>
        && outbox == old(outbox) + [Posted(Request(id, node.path, args), Some(CallTransferables(registry.lists, args)))]
        && pending == old(pending)[id := call] && settled == old(settled)
    {
      call := calls;
      calls := calls + 1;
      if !registered {
        settled := settled[call := Rejected(PortClosed)];
        return;
      }
      pending := pending[id := call];
      var transferables := CallTransferables(registry.lists, args);
      outbox := outbox + [Posted(Request(id, node.path, args), Some(transferables))];
    }

    /**
     * `closeProxifyPort(port)`: posts `{ close: true }`, closes the port and,
     * if the table is still registered, rejects every call in it once with
     * "port closed" and drops the registration. The callbacks Map itself is
     * kept by the caller listener. A second close posts again and rejects
     * nothing.
     */
    method CloseProxifyPort()
      requires Valid()
      modifies this
      ensures Valid()
      ensures outbox == old(outbox) + [Posted(Close, None)]
      ensures closed && !registered
      ensures pending == old(pending) && calls == old(calls)
      ensures target == old(target) && callerListener == old(callerListener)
      ensures settled == if old(registered) then RejectAll(old(settled), old(pending).Values) else old(settled)
    {
      outbox := outbox + [Posted(Close, None)];
      closed := true;
      if registered {
        var rejected := RejectEach(settled, pending.Values);
        RejectAllPointwise(settled, pending.Values, rejected);
        settled := rejected;
        registered := false;
      }
    }

    /**
     * The caller listener. `{ close: true }` closes the port. Any other
     * message settles the call its id names (resolved with its result, or
     * rejected with its error record) and removes that id from the table; an
     * id not in the table makes the listener throw a TypeError, changing
     * nothing.
     */
    method DeliverToCaller(data: Message) returns (r: Result<(), TypeError>)
      requires Valid() && callerListener
      modifies this
      ensures Valid()
      ensures calls == old(calls) && target == old(target) && callerListener == old(callerListener)
      ensures Extends(old(settled), settled)
      ensures data.Close? ==>
        && r.Ok? && outbox == old(outbox) + [Posted(Close, None)] && closed && !registered
        && pending == old(pending)
        && settled == if old(registered) then RejectAll(old(settled), old(pending).Values) else old(settled)
      ensures !data.Close? && data.id !in old(pending) ==>
        && r == Err(ReadError("undefined", Name(if data.Response? then "resolve" else "reject")))
        && outbox == old(outbox) && closed == old(closed) && registered == old(registered)
        && pending == old(pending) && settled == old(settled)
      ensures !data.Close? && data.id in old(pending) ==>
        && r.Ok? && outbox == old(outbox) && closed == old(closed) && registered == old(registered)
        && pending == old(pending) - {data.id}
        && settled == Settle(old(settled), old(pending)[data.id], SettlementOf(data))
    {
      if data.Close? {
        CloseProxifyPort();
        return Ok(());
      }
      if data.id !in pending {
        // `callbacks.get(data.id)` is undefined: `{ id, result }` reads `resolve` off it, anything else `reject`.
        return Err(ReadError("undefined", Name(if data.Response? then "resolve" else "reject")));
      }
      var call := pending[data.id];
      settled := Settle(settled, call, SettlementOf(data));
      pending := pending - {data.id};
      r := Ok(());
    }

    /**
     * The target listener. `{ close: true }` closes the port and is not
     * answered; any other message is answered with exactly one reply
     * carrying its id.
     */
    method DeliverToTarget(data: Message, registry: TransferRegistry)
      requires Valid() && target.Some?
      modifies this
      ensures Valid()
      ensures calls == old(calls) && target == old(target) && callerListener == old(callerListener)
      ensures unchanged(this`pending)
      ensures data.Close? ==>
        && outbox == old(outbox) + [Posted(Close, None)] && closed && !registered
        && settled == if old(registered) then RejectAll(old(settled), old(pending).Values) else old(settled)
      ensures !data.Close? ==>
        && outbox == old(outbox) + [TargetReply(target.value.0, registry.lists, target.value.1, data)]
        && unchanged(this`closed, this`registered, this`settled)
    {
      if data.Close? {
        CloseProxifyPort();
        return;
      }
      Answer(data, registry);
    }

    /** The target listener's reply to a message other than `{ close: true }`: one post, nothing else changes. */
    method Answer(data: Message, registry: TransferRegistry)
      requires target.Some? && !data.Close?
      modifies this`outbox
      ensures outbox == old(outbox) + [TargetReply(target.value.0, registry.lists, target.value.1, data)]
    {
      var reply := TargetReply(target.value.0, registry.lists, target.value.1, data);
      outbox := outbox + [reply];
    }

    /**
     * `unproxify(proxyOrPort)`: the root proxy and the port itself close the
     * port. Every proxy answers PROXY_DETECTOR, but only the root is in
     * `mapProxyToPort`: for any other proxy `closeProxifyPort(undefined)`
     * throws a TypeError and nothing changes.
     */
    method Unproxify(handle: Handle) returns (r: Result<(), TypeError>)
      requires Valid()
      modifies this
      ensures Valid()
      ensures var closes := handle.PortHandle? || (handle.node == ROOT && callerListener);
        && (r.Ok? <==> closes)
        && (closes ==>
              && outbox == old(outbox) + [Posted(Close, None)] && closed && !registered
              && pending == old(pending)
              && settled == if old(registered) then RejectAll(old(settled), old(pending).Values) else old(settled))
        && (!closes ==>
              && outbox == old(outbox) && closed == old(closed) && registered == old(registered)
              && settled == old(settled) && pending == old(pending))
      ensures calls == old(calls) && target == old(target) && callerListener == old(callerListener)
    {
      if handle.ProxyHandle? {
        assert Get(handle.node, PROXY_DETECTOR).Proxy?;
        if !(handle.node == ROOT && callerListener) {
          return Err(ReadError("undefined", Name("postMessage")));
        }
      }
      CloseProxifyPort();
      r := Ok(());
    }
  }

  /** Closing rejects every call that was pending on a registered table, and keeps every earlier settlement. */
  lemma CloseRejectsPending(settled: map<nat, Settlement>, pending: map<Id, nat>, id: Id)
    requires id in pending && pending[id] !in settled
    ensures RejectAll(settled, pending.Values)[pending[id]] == Rejected(PortClosed)
    ensures Extends(settled, RejectAll(settled, pending.Values))
  {
  }

  /**
   * Closing twice: the second `closeProxifyPort` finds no registration, so it
   * rejects nothing and leaves every settlement as the first close left it,
   * but it posts `{ close: true }` once more.
   */
  method CloseTwice(e: Endpoint)
    requires e.Valid()
    modifies e
    ensures e.Valid() && e.closed && !e.registered
    ensures e.outbox == old(e.outbox) + [Posted(Close, None), Posted(Close, None)]
    ensures e.settled == if old(e.registered) then RejectAll(old(e.settled), old(e.pending).Values) else old(e.settled)
  {
    e.CloseProxifyPort();
    e.CloseProxifyPort();
  }

  /**
   * One call from a caller proxy to the target on the other end of the
   * channel: the caller posts the request, the target answers it, the answer
   * is delivered back. The call's promise settles with the target's outcome
   * and the id leaves the table.
   */
  method CallThrough(caller: Endpoint, callee: Endpoint, node: ProxyNode, args: seq<Value>, registry: TransferRegistry)
    returns (call: nat)
    requires caller != callee && caller.Valid() && callee.Valid()
    requires caller.registered && callee.target.Some?
    modifies caller, callee
    ensures caller.Valid() && callee.Valid()
    ensures callee.target == old(callee.target)
    ensures call == old(caller.calls) && call in caller.settled
    ensures var outcome := Outcome(callee.target.value.0, callee.target.value.1, node.path, args);
      caller.settled[call] ==
        match outcome
        case Ok(v) => Resolved(v)
        case Err(f) => Rejected(RemoteError(Some(ErrorPayloadOf(callee.target.value.0, f))))
    ensures caller.pending == old(caller.pending)
  {
    ghost var heap, target := callee.target.value.0, callee.target.value.1;
    var id := caller.ChooseId();
    call := caller.Invoke(node, args, id, registry);
    assert caller.pending == old(caller.pending)[id := call] && call !in caller.settled;
    var request := caller.outbox[|caller.outbox| - 1].data;
    assert request == Request(id, node.path, args);
    callee.DeliverToTarget(request, registry);
    var reply := callee.outbox[|callee.outbox| - 1].data;
    assert reply == Reply(heap, registry.lists, target, request).data;
    ReplySettlement(heap, registry.lists, target, request);
    ghost var before := caller.settled;
    var _ := caller.DeliverToCaller(reply);
    assert caller.settled == Settle(before, call, SettlementOf(reply));
    assert caller.pending == old(caller.pending)[id := call] - {id};
  }

  /** The caller settles a call with what the target's reply to its request carries: the outcome of the call. */
  lemma ReplySettlement(heap: Heap, lists: map<Value, seq<Value>>, target: Value, request: Message)
    requires request.Request?
    ensures var reply := Reply(heap, lists, target, request).data;
      && !reply.Close? && reply.id == request.id
      && SettlementOf(reply) ==
           match Outcome(heap, target, request.path, request.args)
           case Ok(v) => Resolved(v)
           case Err(f) => Rejected(RemoteError(Some(ErrorPayloadOf(heap, f))))
  {
  }
}
