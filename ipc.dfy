/**
 * The process channel and the RPC layer over it: an event emitter that
 * forwards every emit to the other process until the channel has exited,
 * and the request/response/callback correlation tables of `createRPC`.
 */
module Ipc {
  import opened Values

  // ---------------------------------------------------------------------
  // Messages on the channel
  // ---------------------------------------------------------------------

  type RequestId = nat
  type CallbackId = nat
  /** A function value of the local process. */
  type FnRef = nat

  /** One argument of a remote call: plain data, or a local function. */
  datatype Arg = Val(v: Json) | Fn(f: FnRef)

  /**
   * The argument of an emitted event, as the channel's JSON encoding
   * delivers it: plain data, or one of the three RPC records.
   */
  datatype Payload =
    | Plain(v: Json)
    | RequestMsg(id: RequestId, name: string, args: seq<Json>, fds: map<nat, CallbackId>)
    | ResponseMsg(id: RequestId, result: Option<Json>, error: Option<Json>)
    | CallbackMsg(id: CallbackId, args: seq<Json>)

  /** `{ channel, args }`, the unit `proc.send` carries. */
  datatype Envelope = Envelope(channel: string, args: seq<Payload>)

  // ---------------------------------------------------------------------
  // createEmitter
  // ---------------------------------------------------------------------

  /** The emitter of `createEmitter(proc)`. */
  class Emitter {
    /** Every envelope handed to `proc.send`, in order. */
    var outbox: seq<Envelope>
    /** Set by the process's `exit` event and never cleared. */
    var dead: bool
    /** Every event the emitter dispatched to its own listeners, in order. */
    var events: seq<Envelope>

    constructor ()
      ensures outbox == [] && !dead && events == []
    {
      outbox, dead, events := [], false, [];
    }

    /** `emitter.emit(channel, ...args)`: sent to the other process while it lives, dropped after its exit. */
    method Emit(channel: string, args: seq<Payload>)
      modifies this`outbox
      ensures outbox == old(outbox) + (if dead then [] else [Envelope(channel, args)])
    {
      if !dead {
        outbox := outbox + [Envelope(channel, args)];
      }
    }

    /** The `message` event of the process: the envelope is dispatched locally, whether or not the channel is dead. */
    method OnMessage(e: Envelope)
      modifies this`events
      ensures events == old(events) + [e]
    {
      events := events + [e];
    }

    /** The `error` event of the process: re-emitted locally as `error`; it does not mark the channel dead. */
    method OnError(error: Payload)
      modifies this`events
      ensures events == old(events) + [Envelope("error", [error])]
    {
      events := events + [Envelope("error", [error])];
    }

    /** The `exit` event of the process: the channel is dead from now on, and `exit` is re-emitted locally. */
    method OnExit(code: Payload)
      modifies this`dead, this`events
      ensures dead
      ensures events == old(events) + [Envelope("exit", [code])]
    {
      dead := true;
      events := events + [Envelope("exit", [code])];
    }
  }

  // ---------------------------------------------------------------------
  // The caller's marshalling of arguments
  // ---------------------------------------------------------------------

  /** A function argument crosses the JSON channel as `null`. */
  function Wire(a: Arg): Json {
    if a.Fn? then JNull else a.v
  }

  function WireArgs(args: seq<Arg>): (r: seq<Json>)
    ensures |r| == |args|
    ensures forall i :: 0 <= i < |args| ==> r[i] == Wire(args[i])
  {
    seq(|args|, i requires 0 <= i < |args| => Wire(args[i]))
  }

  /** How many arguments are functions. */
  function FnCount(args: seq<Arg>): nat {
    if args == [] then 0
    else FnCount(args[..|args| - 1]) + (if args[|args| - 1].Fn? then 1 else 0)
  }

  /**
   * The request's `fds` object, as the map/filter/reduce builds it: the
   * index of each function argument, in order, to the next fresh id.
   */
  function Fds(args: seq<Arg>, next: CallbackId): (r: map<nat, CallbackId>)
    ensures forall i :: i in r ==> i < |args|
    ensures |r| == FnCount(args)
  {
    if args == [] then map[]
    else
      var init := args[..|args| - 1];
      var m := Fds(init, next);
      if args[|args| - 1].Fn? then m[|args| - 1 := next + FnCount(init)] else m
  }

  /** The entries `fds[id] = fn` that the same pass adds to the callback table. */
  function Callbacks(args: seq<Arg>, next: CallbackId): (r: map<CallbackId, FnRef>)
    ensures forall id :: id in r ==> next <= id < next + FnCount(args)
    ensures |r| == FnCount(args)
  {
    if args == [] then map[]
    else
      var init := args[..|args| - 1];
      var m := Callbacks(init, next);
      if args[|args| - 1].Fn? then m[next + FnCount(init) := args[|args| - 1].f] else m
  }

  /** The keys of `fds` are exactly the indices of the function arguments, and each maps to an id issued in this pass. */
  lemma {:induction false} FdsKeys(args: seq<Arg>, next: CallbackId)
    ensures var fds := Fds(args, next);
            (forall i: nat :: i in fds <==> i < |args| && args[i].Fn?) &&
            (forall i :: i in fds ==> next <= fds[i] < next + FnCount(args))
  {
    if args != [] {
      var init := args[..|args| - 1];
      FdsKeys(init, next);
      assert forall i :: 0 <= i < |init| ==> init[i] == args[i];
    }
  }

  /** Distinct function arguments get distinct callback ids. */
  lemma {:induction false} FdsDistinct(args: seq<Arg>, next: CallbackId)
    ensures var fds := Fds(args, next);
            forall i, j :: i in fds && j in fds && i != j ==> fds[i] != fds[j]
  {
    if args != [] {
      var init := args[..|args| - 1];
      FdsDistinct(init, next);
      FdsKeys(init, next);
    }
  }

  /** The callback table gains exactly the ids issued in this pass. */
  lemma {:induction false} CallbacksKeys(args: seq<Arg>, next: CallbackId)
    ensures forall id :: id in Callbacks(args, next) <==> next <= id < next + FnCount(args)
  {
    if args != [] {
      var init := args[..|args| - 1];
      CallbacksKeys(init, next);
    }
  }

  /** The callback table maps the id of each function argument back to that function. */
  lemma {:induction false} CallbacksMatch(args: seq<Arg>, next: CallbackId)
    ensures var fds := Fds(args, next);
            var table := Callbacks(args, next);
            forall i :: 0 <= i < |args| && args[i].Fn? ==> i in fds && fds[i] in table && table[fds[i]] == args[i].f
  {
    FdsKeys(args, next);
    if args != [] {
      var init := args[..|args| - 1];
      CallbacksMatch(init, next);
      FdsKeys(init, next);
      assert forall i :: 0 <= i < |init| ==> init[i] == args[i];
    }
  }

  // ---------------------------------------------------------------------
  // The responder's materialisation of arguments
  // ---------------------------------------------------------------------

  /** An argument as the responder's api receives it: the value, or a stub for a remote function. */
  datatype Local = Given(v: Json) | Stub(id: CallbackId)

  /** `request.args.map(...)`: an index listed in `fds` becomes a stub that calls back with that id. */
  function Materialise(args: seq<Json>, fds: map<nat, CallbackId>): (r: seq<Local>)
    ensures |r| == |args|
    ensures forall i :: 0 <= i < |args| ==> r[i] == (if i in fds then Stub(fds[i]) else Given(args[i]))
  {
    seq(|args|, i requires 0 <= i < |args| => if i in fds then Stub(fds[i]) else Given(args[i]))
  }

  /**
   * The marshalling round trip: what the responder's api receives for the
   * caller's arguments is each plain value unchanged and, for each
   * function, a stub whose id the caller's callback table maps back to
   * that very function.
   */
  lemma {:induction false} ArgsRoundTrip(args: seq<Arg>, next: CallbackId)
    ensures var local := Materialise(WireArgs(args), Fds(args, next));
            |local| == |args| &&
            (forall i :: 0 <= i < |args| && args[i].Val? ==> local[i] == Given(args[i].v)) &&
            (forall i :: 0 <= i < |args| && args[i].Fn? ==>
               local[i].Stub? && local[i].id in Callbacks(args, next) &&
               Callbacks(args, next)[local[i].id] == args[i].f)
  {
    FdsKeys(args, next);
    CallbacksMatch(args, next);
  }

  // ---------------------------------------------------------------------
  // Responses and their settlement
  // ---------------------------------------------------------------------

  /**
   * How one api invocation went: its value (`None` for `undefined`) or
   * thrown value, and how many ms passed between the start of the timer
   * and its settlement, or it never settled. The timer is created after
   * `fn()` has returned, so time the api spends blocking synchronously
   * does not count.
   */
  datatype ApiRun =
    | Gives(result: Option<Json>, after: nat)
    | Raises(error: Json, after: nat)
    | Stalls

  /** `new Error('timeout')` after the channel's JSON encoding, which keeps none of an Error's own properties. */
  const TimeoutError: Json := JObj(map[])

  /**
   * The response of `Promise.race([fn(), timeout(ms)])`: the api's value or
   * thrown value when it settles before the timer, the timeout error
   * otherwise.
   */
  function Reply(id: RequestId, run: ApiRun, ms: int): (p: Payload)
    ensures p.ResponseMsg? && p.id == id
    ensures run.Gives? && run.after < TimerDelay(ms) ==> p.result == run.result && p.error.None?
    ensures run.Raises? && run.after < TimerDelay(ms) ==> p.result.None? && p.error == Some(run.error)
    ensures run.Stalls? || run.after >= TimerDelay(ms) ==> p.result.None? && p.error == Some(TimeoutError)
  {
    if run.Stalls? || run.after >= TimerDelay(ms) then ResponseMsg(id, None, Some(TimeoutError))
    else if run.Gives? then ResponseMsg(id, run.result, None)
    else ResponseMsg(id, None, Some(run.error))
  }

  /** The caller's deferred promise for one request. */
  datatype Cell = Pending | Resolved(value: Option<Json>) | Rejected(reason: Json)

  /** The `response` handler's `if (error) reject(error) else resolve(result)`. */
  function Settlement(result: Option<Json>, error: Option<Json>): (c: Cell)
    ensures c.Rejected? <==> Present(error)
    ensures c.Rejected? ==> c.reason == error.value
    ensures c.Resolved? ==> c.value == result
    ensures !c.Pending?
  {
    if Present(error) then Rejected(error.value) else Resolved(result)
  }

  /**
   * The request/response round trip: the caller's promise resolves with
   * the api's value, `undefined` included, when the api returned in time;
   * it is rejected exactly when the api threw a truthy value in time or
   * ran out of time; a falsy thrown value resolves it with `undefined`.
   */
  lemma CallRoundTrip(id: RequestId, run: ApiRun, ms: int)
    ensures var p := Reply(id, run, ms);
            var c := Settlement(p.result, p.error);
            var inTime := !run.Stalls? && run.after < TimerDelay(ms);
            (c.Resolved? && c.value.Some? <==> run.Gives? && inTime && run.result.Some?) &&
            (run.Gives? && inTime ==> c == Resolved(run.result)) &&
            (c.Resolved? <==> inTime && (run.Gives? || !Truthy(run.error))) &&
            (c.Rejected? <==> !inTime || (run.Raises? && Truthy(run.error))) &&
            (run.Raises? && inTime && !Truthy(run.error) ==> c == Resolved(None)) &&
            (!inTime ==> c == Rejected(TimeoutError))
  {
  }

  /** The test's `sum(1, 2)` against an api that returns `a + b` at once: the caller's promise resolves with 3. */
  lemma SumResolves(id: RequestId)
    ensures var p := Reply(id, Gives(Some(JNum(1 + 2)), 0), 10000);
            p == ResponseMsg(id, Some(JNum(3)), None) && Settlement(p.result, p.error) == Resolved(Some(JNum(3)))
  {
  }

  /**
   * A call whose api returns `undefined`, such as the queue's `emit`
   * through the proxy: the response carries no `result` and no `error`
   * key, and the caller's promise resolves with `undefined`.
   */
  lemma UndefinedResolves(id: RequestId, after: nat)
    requires after < 10000
    ensures var p := Reply(id, Gives(None, after), 10000);
            p == ResponseMsg(id, None, None) && Settlement(p.result, p.error) == Resolved(None)
  {
  }

  // ---------------------------------------------------------------------
  // createRPC
  // ---------------------------------------------------------------------

  /** An `outgoing` entry: the request the caller sent. */
  datatype Outgoing = Outgoing(name: string, args: seq<Arg>)

  /** An `incoming` entry: the request with its arguments materialised. */
  datatype Received = Received(name: string, args: seq<Local>)

  /** One call `fds[id](...args)` of a local function by the other process. */
  datatype Invocation = Invocation(f: FnRef, args: seq<Json>)

  /** The object of `createRPC(remote, api, options)`, one per process. */
  class Rpc {
    const remote: Emitter
    /** `options.timeout`, the responder's limit for one api call. */
    const timeout: int
    /** `incoming`: requests of the other process whose api call has not settled. */
    var incoming: map<RequestId, Received>
    /** `outgoing`: requests of this process awaiting their response. */
    var outgoing: map<RequestId, Outgoing>
    /** The deferred promise of every request this process sent. */
    var cells: map<RequestId, Cell>
    /** `fds`: the callback table; entries are never removed. */
    var fds: map<CallbackId, FnRef>
    /** Every local function call a `callback` message made, in order. */
    var invoked: seq<Invocation>
    /** The next value `uuid()` returns. */
    var nextId: nat

    /**
     * A promise is pending exactly while its request is in `outgoing`, and
     * every id in use was issued by `uuid()`.
     */
    ghost predicate Valid()
      reads this
    {
      (forall id :: id in outgoing ==> id in cells && cells[id].Pending?) &&
      (forall id :: id in cells && cells[id].Pending? ==> id in outgoing) &&
      (forall id :: id in cells ==> id < nextId) &&
      (forall id :: id in fds ==> id < nextId)
    }

    /** `createRPC(remote, api, { timeout })`. */
    constructor (remote: Emitter, timeout: int)
      ensures Valid()
      ensures this.remote == remote && this.timeout == timeout
      ensures incoming == map[] && outgoing == map[] && cells == map[] && fds == map[] && invoked == []
    {
      this.remote := remote;
      this.timeout := timeout;
      incoming, outgoing, cells, fds, invoked := map[], map[], map[], map[], [];
      nextId := 0;
    }

    /**
     * `remote[name](...args)` through the proxy: a fresh request id is
     * registered with a pending promise, every function argument is stored
     * under a fresh callback id, and one `request` is emitted. There is no
     * caller-side timeout: the entry stays until a response arrives.
     */
    method Call(name: string, args: seq<Arg>) returns (id: RequestId)
      requires Valid()
      modifies this`outgoing, this`cells, this`fds, this`nextId, remote`outbox
      ensures Valid()
      ensures id == old(nextId) && id !in old(cells) && id !in old(outgoing)
      ensures outgoing == old(outgoing)[id := Outgoing(name, args)]
      ensures cells == old(cells)[id := Pending]
      ensures fds == old(fds) + Callbacks(args, id + 1)
      ensures forall k :: k in old(fds) ==> k !in Callbacks(args, id + 1)
      ensures nextId == id + 1 + FnCount(args)
      ensures remote.outbox == old(remote.outbox) +
                (if remote.dead then [] else [Envelope("request", [RequestMsg(id, name, WireArgs(args), Fds(args, id + 1))])])
    {
      CallbacksKeys(args, nextId + 1);
      id := nextId;
      outgoing := outgoing[id := Outgoing(name, args)];
      cells := cells[id := Pending];
      var request := RequestMsg(id, name, WireArgs(args), Fds(args, id + 1));
      fds := fds + Callbacks(args, id + 1);
      nextId := id + 1 + FnCount(args);
      remote.Emit("request", [request]);
    }

    /**
     * The `request` handler up to the api call: the request is recorded in
     * `incoming` with its marked arguments replaced by callback stubs; the
     * returned arguments are what the api is called with.
     */
    method Receive(id: RequestId, name: string, args: seq<Json>, marks: map<nat, CallbackId>)
      returns (local: seq<Local>)
      modifies this`incoming
      ensures local == Materialise(args, marks)
      ensures incoming == old(incoming)[id := Received(name, local)]
    {
      local := Materialise(args, marks);
      incoming := incoming[id := Received(name, local)];
    }

    /** A stub called by the api: it emits one `callback` and waits for nothing. */
    method InvokeStub(stub: Local, args: seq<Json>)
      requires stub.Stub?
      modifies remote`outbox
      ensures remote.outbox == old(remote.outbox) +
                (if remote.dead then [] else [Envelope("callback", [CallbackMsg(stub.id, args)])])
    {
      remote.Emit("callback", [CallbackMsg(stub.id, args)]);
    }

    /** The settled race of a request: exactly one `response` with its id is emitted, then the `incoming` entry goes. */
    method Respond(id: RequestId, run: ApiRun)
      modifies this`incoming, remote`outbox
      ensures remote.outbox == old(remote.outbox) +
                (if remote.dead then [] else [Envelope("response", [Reply(id, run, timeout)])])
      ensures incoming == old(incoming) - {id}
    {
      remote.Emit("response", [Reply(id, run, timeout)]);
      incoming := incoming - {id};
    }

    /**
     * The `response` handler: the entry leaves `outgoing` and its promise
     * settles, rejected on a truthy error and resolved with the result
     * otherwise; a response to an unknown id changes nothing.
     */
    method HandleResponse(id: RequestId, result: Option<Json>, error: Option<Json>)
      requires Valid()
      modifies this`outgoing, this`cells
      ensures Valid()
      ensures outgoing == old(outgoing) - {id}
      ensures id in old(outgoing) ==> cells == old(cells)[id := Settlement(result, error)]
      ensures id !in old(outgoing) ==> cells == old(cells)
      ensures forall k :: k in old(cells) && !old(cells)[k].Pending? ==> cells[k] == old(cells)[k]
    {
      if id in outgoing {
        cells := cells[id := Settlement(result, error)];
      }
      outgoing := outgoing - {id};
    }

    /**
     * The `callback` handler: `fds[id](...args)` calls the stored function;
     * for an id not in the table the call throws, reported here as `false`
     * with nothing invoked.
     */
    method HandleCallback(id: CallbackId, args: seq<Json>) returns (ok: bool)
      modifies this`invoked
      ensures ok <==> id in fds
      ensures invoked == old(invoked) + (if id in fds then [Invocation(fds[id], args)] else [])
    {
      ok := id in fds;
      if ok {
        invoked := invoked + [Invocation(fds[id], args)];
      }
    }
  }
}
