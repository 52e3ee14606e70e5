/**
 * The values that travel between the two ends of a proxified port, the
 * messages they travel in, and the transfer lists that go with them
 * (`transfer`, and the sets built before each `postMessage`).
 */
module ProxyValues {
  import opened Wrappers

  /** A property key: a string, or a symbol (numbered). */
  datatype Key = Name(name: string) | Symbol(symbol: nat)

  /** The two module-level symbols. */
  const UNREACHABLE: Key := Symbol(0)
  const PROXY_DETECTOR: Key := Symbol(1)

  /**
   * A value: a primitive, a reference to an object of the target's object
   * graph, or a `MessagePort` (the one auto-transferable class). Numbers are
   * mathematical reals.
   */
  datatype Value =
    | Undefined
    | Null
    | Bool(b: bool)
    | Num(x: real)
    | Str(s: string)
    | Ref(oid: nat)
    | PortRef(port: nat)

  predicate IsObject(v: Value) { v.Ref? || v.PortRef? }

  /** JavaScript truthiness. */
  predicate Truthy(v: Value)
  {
    match v
    case Undefined => false
    case Null => false
    case Bool(b) => b
    case Num(x) => x != 0.0
    case Str(s) => s != []
    case _ => true
  }

  /** A correlation id (a random base-36 string in the source). */
  type Id = nat

  /** What the target side sends back in place of a thrown value. */
  datatype ErrorPayload =
    /** An `Error`, flattened to a record of its own property names. */
    | Flattened(fields: map<string, Value>)
    /** Any other thrown value, sent as it is. */
    | Raw(thrown: Value)

  /** The `data` of a message event. */
  datatype Message =
    | Request(id: Id, path: seq<Key>, args: seq<Value>)   // { id, path, args }
    | Response(id: Id, result: Value)                     // { id, result }
    | ErrorResponse(id: Id, error: ErrorPayload)          // { id, error }
    | Close                                               // { close: true }

  /** A TypeError the JavaScript engine throws, with its message. */
  datatype TypeError = TypeError(message: string)

  /** How the engine names a key in a message: a string as it is, a symbol by its description, which is not kept here. */
  function KeyText(k: Key): string
  {
    match k
    case Name(s) => s
    case Symbol(_) => "Symbol()"
  }

  /** The TypeError for reading `property` off undefined or null (`base`), in the V8 engine's words. */
  function ReadError(base: string, property: Key): (e: TypeError)
    ensures property.Name? ==>
      e.message == "Cannot read properties of " + base + " (reading '" + property.name + "')"
  {
    TypeError("Cannot read properties of " + base + " (reading '" + KeyText(property) + "')")
  }

  /** One `postMessage(data, transferables?)`. */
  datatype Posted = Posted(data: Message, transfer: Option<seq<Value>>)

  // ----- Deduplication: `new Set([...])` spread back into an array -----

  predicate NoDup(s: seq<Value>)
  {
    forall i, j :: 0 <= i < j < |s| ==> s[i] != s[j]
  }

  /** The elements of s in order of first occurrence, each once. */
  function Dedup(s: seq<Value>): (r: seq<Value>)
    ensures NoDup(r)
    ensures forall v :: v in r <==> v in s
    ensures |r| <= |s|
  {
    if s == [] then []
    else
      var p := Dedup(s[..|s| - 1]);
      var v := s[|s| - 1];
      assert forall u :: u in s <==> u in s[..|s| - 1] || u == v;
      if v in p then p else p + [v]
  }

  /** A list without repetitions is its own deduplication. */
  lemma {:induction false} DedupNoDup(s: seq<Value>)
    requires NoDup(s)
    ensures Dedup(s) == s
  {
    if s != [] {
      var p := s[..|s| - 1];
      assert NoDup(p);
      DedupNoDup(p);
      assert s[|s| - 1] !in p;
      assert p + [s[|s| - 1]] == s;
    }
  }

  // ----- Transfer lists -----

  /** `mapObjectToTransferables.get(v) ?? []` */
  function ListOf(lists: map<Value, seq<Value>>, v: Value): seq<Value>
  {
    if v in lists then lists[v] else []
  }

  /** `args.filter(arg => AUTO_TRANSFERABLES.has(arg?.constructor))` */
  function PortsAmong(args: seq<Value>): (r: seq<Value>)
    ensures forall v :: v in r <==> v in args && v.PortRef?
  {
    if args == [] then []
    else
      var p := PortsAmong(args[..|args| - 1]);
      var a := args[|args| - 1];
      assert forall u :: u in args <==> u in args[..|args| - 1] || u == a;
      if a.PortRef? then p + [a] else p
  }

  /** `args.map(arg => mapObjectToTransferables.get(arg) ?? [])`, flattened. */
  function MarkedAmong(lists: map<Value, seq<Value>>, args: seq<Value>): (r: seq<Value>)
    ensures forall v :: v in r <==> exists a :: a in args && v in ListOf(lists, a)
  {
    if args == [] then []
    else
      var p := MarkedAmong(lists, args[..|args| - 1]);
      var a := args[|args| - 1];
      assert forall u :: u in args <==> u in args[..|args| - 1] || u == a;
      p + ListOf(lists, a)
  }

  /** The transfer list of a call: ports among the arguments, then the arguments' marked lists, each once. */
  function CallTransferables(lists: map<Value, seq<Value>>, args: seq<Value>): seq<Value>
  {
    Dedup(PortsAmong(args) + MarkedAmong(lists, args))
  }

  /** The transfer list of a result: the result if it is a port, then its marked list, each once. */
  function ResultTransferables(lists: map<Value, seq<Value>>, result: Value): seq<Value>
  {
    Dedup((if result.PortRef? then [result] else []) + ListOf(lists, result))
  }

  /**
   * A call transfers exactly the ports among its arguments and what the
   * arguments were marked with, each once.
   */
  lemma CallTransferablesExactly(lists: map<Value, seq<Value>>, args: seq<Value>)
    ensures NoDup(CallTransferables(lists, args))
    ensures forall v :: v in CallTransferables(lists, args) <==>
      (v in args && v.PortRef?) || (exists a :: a in args && v in ListOf(lists, a))
  {
    var s := PortsAmong(args) + MarkedAmong(lists, args);
    assert forall v :: v in s <==> v in PortsAmong(args) || v in MarkedAmong(lists, args);
  }

  /** A result transfers exactly itself when it is a port, and what it was marked with, each once. */
  lemma ResultTransferablesExactly(lists: map<Value, seq<Value>>, result: Value)
    ensures NoDup(ResultTransferables(lists, result))
    ensures forall v :: v in ResultTransferables(lists, result) <==>
      (v == result && result.PortRef?) || v in ListOf(lists, result)
  {
    var s := (if result.PortRef? then [result] else []) + ListOf(lists, result);
    assert forall v :: v in s <==> (v == result && result.PortRef?) || v in ListOf(lists, result);
  }

  /** The module-level `mapObjectToTransferables`. */
  class TransferRegistry {
    var lists: map<Value, seq<Value>>

    constructor ()
      ensures lists == map[]
    {
      lists := map[];
    }

    /**
     * `transfer(obj, transferables)`: records the list for obj and returns obj
     * unchanged. A WeakMap takes only objects as keys: any other obj throws
     * a TypeError and nothing is recorded.
     */
    method Transfer(obj: Value, transferables: seq<Value>) returns (r: Result<Value, TypeError>)
      modifies this
      ensures r.Ok? <==> IsObject(obj)
      ensures r.Ok? ==> r.value == obj && lists == old(lists)[obj := transferables]
      ensures r.Err? ==> lists == old(lists)
    {
      if !IsObject(obj) {
        return Err(TypeError("Invalid value used as weak map key"));
      }
      lists := lists[obj := transferables];
      r := Ok(obj);
    }
  }
}
