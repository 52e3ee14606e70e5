/**
 * The target side of a proxified port: how a request's member path is
 * dereferenced from the target, how the member is applied, and the one
 * message sent back, a result or a contained error.
 */
module ProxyTarget {
  import opened Wrappers
  import opened ProxyValues

  /** A call's outcome once awaited: a value, or a thrown value. */
  datatype Completion = Return(value: Value) | Throw(thrown: Value)

  /** A function's behaviour: from the receiver (`this`) and the arguments to its completion. */
  type Behaviour = (Value, seq<Value>) -> Completion

  /**
   * An object of the target's object graph: its own members, whether it is
   * an `Error`, and its behaviour when it is a function.
   */
  datatype Obj = Obj(members: map<Key, Value>, isError: bool, call: Option<Behaviour>)

  type Heap = map<nat, Obj>

  /** What the try block of the target listener can end in. */
  datatype Fault = Thrown(value: Value) | EngineError(error: TypeError)

  /**
   * `obj[property]`: reading a member of null or undefined throws; an
   * object gives its own member or undefined.
   */
  function Member(heap: Heap, obj: Value, property: Key): (r: Result<Value, Fault>)
    ensures r.Err? <==> obj.Null? || obj.Undefined?
    ensures obj.Undefined? ==> r == Err(EngineError(ReadError("undefined", property)))
    ensures obj.Null? ==> r == Err(EngineError(ReadError("null", property)))
    ensures obj.Ref? && obj.oid in heap && property in heap[obj.oid].members ==>
      r == Ok(heap[obj.oid].members[property])
    ensures !obj.Null? && !obj.Undefined? && !(obj.Ref? && obj.oid in heap && property in heap[obj.oid].members) ==>
      r == Ok(Undefined)
    ensures r.Ok? && r.value != Undefined ==>
      obj.Ref? && obj.oid in heap && property in heap[obj.oid].members
      && heap[obj.oid].members[property] == r.value
  {
    match obj
    case Undefined => Err(EngineError(ReadError("undefined", property)))
    case Null => Err(EngineError(ReadError("null", property)))
    case Ref(id) =>
      if id in heap && property in heap[id].members then Ok(heap[id].members[property]) else Ok(Undefined)
    case _ => Ok(Undefined)
  }

  /**
   * `data.path.reduce(([_, obj], property) => [obj, obj[property]], [null, target])`:
   * the member the path names and its owner, reduced left to right.
   */
  function ResolvePath(heap: Heap, target: Value, path: seq<Key>): (r: Result<(Value, Value), Fault>)
    ensures path == [] ==> r == Ok((Null, target))
  {
    if path == [] then Ok((Null, target))
    else
      match ResolvePath(heap, target, path[..|path| - 1])
      case Err(f) => Err(f)
      case Ok((_, obj)) =>
        match Member(heap, obj, path[|path| - 1])
        case Err(f) => Err(f)
        case Ok(m) => Ok((obj, m))
  }

  /** A reference reading of a path: one member at a time, from the front. */
  function Walk(heap: Heap, from: Value, path: seq<Key>): Result<Value, Fault>
    decreases |path|
  {
    if path == [] then Ok(from)
    else
      match Member(heap, from, path[0])
      case Err(f) => Err(f)
      case Ok(m) => Walk(heap, m, path[1..])
  }

  lemma {:induction false} WalkAppend(heap: Heap, from: Value, path: seq<Key>, property: Key)
    ensures Walk(heap, from, path + [property]) ==
      match Walk(heap, from, path)
      case Err(f) => Err(f)
      case Ok(obj) => Member(heap, obj, property)
    decreases |path|
  {
    if path == [] {
      assert ([] + [property])[1..] == [];
    } else {
      assert (path + [property])[0] == path[0];
      assert (path + [property])[1..] == path[1..] + [property];
      match Member(heap, from, path[0])
      case Err(f) =>
      case Ok(m) => WalkAppend(heap, m, path[1..], property);
    }
  }

  /**
   * The reduction finds what walking the path from the target finds, and the
   * owner is what the path without its last key leads to.
   */
  lemma {:induction false} ResolveIsWalk(heap: Heap, target: Value, path: seq<Key>)
    ensures ResolvePath(heap, target, path).Ok? <==> Walk(heap, target, path).Ok?
    ensures ResolvePath(heap, target, path).Ok? ==>
      ResolvePath(heap, target, path).value.1 == Walk(heap, target, path).value
    ensures ResolvePath(heap, target, path).Ok? && path != [] ==>
      Walk(heap, target, path[..|path| - 1]).Ok?
      && ResolvePath(heap, target, path).value.0 == Walk(heap, target, path[..|path| - 1]).value
  {
    if path != [] {
      var init, k := path[..|path| - 1], path[|path| - 1];
      assert init + [k] == path;
      ResolveIsWalk(heap, target, init);
      WalkAppend(heap, target, init, k);
      ResolveStep(heap, target, init, k);
    }
  }

  /** One step of the reduction: the member of the last key, read off what the rest resolved to. */
  lemma ResolveStep(heap: Heap, target: Value, init: seq<Key>, k: Key)
    ensures ResolvePath(heap, target, init + [k]) ==
      match ResolvePath(heap, target, init)
      case Err(f) => Err(f)
      case Ok((_, obj)) =>
        match Member(heap, obj, k)
        case Err(f) => Err(f)
        case Ok(m) => Ok((obj, m))
  {
    assert (init + [k])[..|init + [k]| - 1] == init;
  }

  /**
   * `member.apply(obj, args)`, awaited: only a function can be applied.
   * Reading `.apply` off undefined or null already throws; on any other
   * value that is not a function `.apply` is undefined and calling it throws.
   */
  function Apply(heap: Heap, owner: Value, member: Value, args: seq<Value>): (r: Result<Value, Fault>)
    ensures member.Undefined? ==> r == Err(EngineError(ReadError("undefined", Name("apply"))))
    ensures member.Null? ==> r == Err(EngineError(ReadError("null", Name("apply"))))
    ensures !(member.Ref? && member.oid in heap && heap[member.oid].call.Some?) && !member.Undefined? && !member.Null? ==>
      r == Err(EngineError(TypeError("member.apply is not a function")))
    ensures member.Ref? && member.oid in heap && heap[member.oid].call.Some? ==>
      var c := heap[member.oid].call.value(owner, args);
      && (c.Return? ==> r == Ok(c.value))
      && (c.Throw? ==> r == Err(Thrown(c.thrown)))
    ensures r.Err? && r.error.Thrown? ==> member.Ref? && member.oid in heap && heap[member.oid].call.Some?
  {
    if member.Undefined? then Err(EngineError(ReadError("undefined", Name("apply"))))
    else if member.Null? then Err(EngineError(ReadError("null", Name("apply"))))
    else if member.Ref? && member.oid in heap && heap[member.oid].call.Some? then
      match heap[member.oid].call.value(owner, args)
      case Return(v) => Ok(v)
      case Throw(e) => Err(Thrown(e))
    else Err(EngineError(TypeError("member.apply is not a function")))
  }

  /**
   * The caught value as it is sent: an `Error` becomes the record of its own
   * property names (symbol-keyed members are not among them), anything else
   * goes as it is. An engine TypeError carries its message.
   */
  function ErrorPayloadOf(heap: Heap, fault: Fault): (p: ErrorPayload)
    ensures fault.Thrown? && fault.value.Ref? && fault.value.oid in heap && heap[fault.value.oid].isError ==>
      p.Flattened? && forall k :: k in p.fields <==> Name(k) in heap[fault.value.oid].members
    ensures fault.Thrown? && fault.value.Ref? && fault.value.oid in heap && heap[fault.value.oid].isError ==>
      forall k :: k in p.fields ==> p.fields[k] == heap[fault.value.oid].members[Name(k)]
    ensures fault.Thrown? && !(fault.value.Ref? && fault.value.oid in heap && heap[fault.value.oid].isError) ==>
      p == Raw(fault.value)
  {
    match fault
    case EngineError(e) => Flattened(map["message" := Str(e.message)])
    case Thrown(v) =>
      if v.Ref? && v.oid in heap && heap[v.oid].isError then
        var members := heap[v.oid].members;
        var names := set k | k in members && k.Name? :: k.name;
        assert forall s :: s in names <==> Name(s) in members;
        Flattened(map s | s in names :: members[Name(s)])
      else Raw(v)
  }

  /** What the try block computes for a request: the awaited result, or the fault it ended in. */
  function Outcome(heap: Heap, target: Value, path: seq<Key>, args: seq<Value>): Result<Value, Fault>
  {
    match ResolvePath(heap, target, path)
    case Err(f) => Err(f)
    case Ok((owner, member)) => Apply(heap, owner, member, args)
  }

  /**
   * The one message the target listener posts for a request: `{ id, result }`
   * with the result's transfer list, or `{ id, error }` without a transfer
   * list when anything threw.
   */
  function Reply(heap: Heap, lists: map<Value, seq<Value>>, target: Value, data: Message): (p: Posted)
    requires data.Request?
    ensures p.data.Response? || p.data.ErrorResponse?
    ensures p.data.id == data.id
    ensures p.data.Response? <==> Outcome(heap, target, data.path, data.args).Ok?
    ensures p.data.Response? ==>
      p.data.result == Outcome(heap, target, data.path, data.args).value
      && p.transfer == Some(ResultTransferables(lists, p.data.result))
    ensures p.data.ErrorResponse? ==>
      p.transfer.None? && p.data.error == ErrorPayloadOf(heap, Outcome(heap, target, data.path, data.args).error)
  {
    match Outcome(heap, target, data.path, data.args)
    case Ok(result) => Posted(Response(data.id, result), Some(ResultTransferables(lists, result)))
    case Err(f) => Posted(ErrorResponse(data.id, ErrorPayloadOf(heap, f)), None)
  }

  /**
   * The target listener's answer to any message but `{ close: true }`. A
   * message without a path (a response that reached the target side) fails
   * in `data.path.reduce` and is answered with that TypeError.
   */
  function TargetReply(heap: Heap, lists: map<Value, seq<Value>>, target: Value, data: Message): (p: Posted)
    requires !data.Close?
    ensures p.data.Response? || p.data.ErrorResponse?
    ensures p.data.id == data.id
    ensures !data.Request? ==> p.data.ErrorResponse? && p.transfer.None?
    ensures data.Request? ==> p == Reply(heap, lists, target, data)
  {
    if data.Request? then Reply(heap, lists, target, data)
    else
      var fault := EngineError(ReadError("undefined", Name("reduce")));
      Posted(ErrorResponse(data.id, ErrorPayloadOf(heap, fault)), None)
  }

  /** An empty path calls the target itself, with null as the receiver. */
  lemma EmptyPathCallsTarget(heap: Heap, target: Value, args: seq<Value>)
    ensures Outcome(heap, target, [], args) == Apply(heap, Null, target, args)
  {
  }

  /**
   * A path of one or more keys calls the member the path leads to, with the
   * object the path without its last key leads to as the receiver.
   */
  lemma MemberCallReceiver(heap: Heap, target: Value, path: seq<Key>, args: seq<Value>)
    requires path != [] && Walk(heap, target, path).Ok?
    ensures Walk(heap, target, path[..|path| - 1]).Ok?
    ensures Outcome(heap, target, path, args)
      == Apply(heap, Walk(heap, target, path[..|path| - 1]).value, Walk(heap, target, path).value, args)
  {
    ResolveIsWalk(heap, target, path);
    WalkAppend(heap, target, path[..|path| - 1], path[|path| - 1]);
    assert path[..|path| - 1] + [path[|path| - 1]] == path;
  }
}
