/** `ConnectionBasedSync` (connectionbasedsync.js): a backend that talks to
    its peers over a connection that can drop. Outbound messages wait in a
    queue while disconnected and are flushed, through the `pre` chain, once
    the connection is open; inbound data is decoded through the `post` chain
    and dispatched on its `method` to the `get`, `got` and `set` handlers.
    The transport's own `connect` and `deliver` are foreign code: their calls
    are recorded. Timers are explicit: a pending timer is a handle in
    `timers`, and `FireTimer` runs one. */
module ConnectionSync {
  import opened JsValues
  import opened Resources
  import opened Pipeline

  /** A queued message: the resource it is about, carried apart from the
      fields (it is detached before the message is processed). */
  datatype Message = Message(resource: Resource, body: map<string, JsValue>)

  /** One call of `deliver(resource, msg, preprocessed)`. */
  datatype DeliverCall = DeliverCall(resource: Resource, body: map<string, JsValue>, payload: JsValue)

  /** What an inbound message asks for, once decoded and accepted. */
  datatype Route = Route(verb: string, name: string, msg: JsValue)

  /** The fields `send` leaves on a message (connectionbasedsync.js:136-141):
      a non-object becomes `{}`, and `method` and `name` are set. */
  function Body(msg: JsValue, verb: string, name: string): map<string, JsValue> {
    (FieldsOf(msg) - {"resource"})["method" := Str(verb)]["name" := Str(name)]
  }

  /** The `deliver` calls a flush of queue `q` makes, in queue order: every
      message whose run through the `pre` chain settles (connectionbasedsync.js:149-161). */
  function Transmit(pre: seq<Processor>, q: seq<Message>): seq<DeliverCall> {
    if q == [] then []
    else
      var m := q[|q| - 1];
      Transmit(pre, q[..|q| - 1])
      + match RunThroughSpec(pre, Pre, Obj(m.body)) case Err(_) => [] case Ok(p) => [DeliverCall(m.resource, m.body, p)]
  }

  lemma {:induction false} TransmitAppend(pre: seq<Processor>, a: seq<Message>, b: seq<Message>)
    ensures Transmit(pre, a + b) == Transmit(pre, a) + Transmit(pre, b)
    decreases |b|
  {
    if b == [] {
      assert a + b == a;
    } else {
      assert (a + b)[..|a + b| - 1] == a + b[..|b| - 1];
      assert (a + b)[|a + b| - 1] == b[|b| - 1];
      TransmitAppend(pre, a, b[..|b| - 1]);
    }
  }

  /** When every message gets through the chain, each is delivered once, in
      queue order, with its own processed payload. */
  lemma {:induction false} TransmitInOrder(pre: seq<Processor>, q: seq<Message>)
    requires forall i :: 0 <= i < |q| ==> RunThroughSpec(pre, Pre, Obj(q[i].body)).Ok?
    ensures |Transmit(pre, q)| == |q|
    ensures forall i :: 0 <= i < |q| ==>
              Transmit(pre, q)[i] == DeliverCall(q[i].resource, q[i].body, RunThroughSpec(pre, Pre, Obj(q[i].body)).value)
  {
    if q != [] {
      TransmitInOrder(pre, q[..|q| - 1]);
    }
  }

  /** `should_process` (connectionbasedsync.js:54-60); reading a field of
      null or undefined throws. */
  function ShouldProcess(msg: JsValue): Result<bool> {
    match GetProp(msg, "method")
    case Err(e) => Err(e)
    case Ok(m) => Ok(!m.Undefined? && !GetProp(msg, "name").value.Undefined?)
  }

  /** `delivery` up to the dispatch (connectionbasedsync.js:41-52): decode
      through `post`, refuse what `should_process` refuses, and read the
      method and name as the property keys they are used as. */
  function Inbound(post: seq<Processor>, data: JsValue): Option<Route> {
    match RunThroughSpec(post, Post, data)
    case Err(_) => None
    case Ok(msg) =>
      match ShouldProcess(msg)
      case Err(_) => None
      case Ok(accept) =>
        if !accept then None
        else Some(Route(ToString(GetProp(msg, "method").value), ToString(GetProp(msg, "name").value), msg))
  }

  /** A message is dispatched exactly when it decodes to an object whose
      `method` and `name` are both defined. */
  lemma InboundNeedsMethodAndName(post: seq<Processor>, data: JsValue)
    ensures Inbound(post, data).Some? <==>
              && RunThroughSpec(post, Post, data).Ok?
              && var msg := RunThroughSpec(post, Post, data).value;
                 && msg.Obj?
                 && "method" in msg.fields && !msg.fields["method"].Undefined?
                 && "name" in msg.fields && !msg.fields["name"].Undefined?
  {
  }

  /** Inbound verbs that have a handler. */
  predicate Handled(verb: string) {
    verb == "get" || verb == "got" || verb == "set"
  }

  /** The `got` reply a `get` event sends, if any (connectionbasedsync.js:67-82):
      the one-shot subscriber fires with the first answer to arrive, ignores
      null or undefined, and stays quiet when preprocessing rejects or the
      asker's `hash` already matches the digest of what would be sent. */
  function Reply(pre: seq<Processor>, name: string, meta: JsValue, msg: JsValue,
                 answers: seq<Result<JsValue>>, digest: JsValue -> string): Option<JsValue> {
    match FirstOk(answers)
    case None => None
    case Some(v) =>
      if Nullish(v) then None
      else
        match Preprocessed(pre, name, meta, v)
        case Err(_) => None
        case Ok(p) =>
          match GetProp(msg, "hash")
          case Err(_) => None
          case Ok(h) => if h.Str? && h.s == digest(p) then None else Some(p)
  }

  /** Without an answer from any relay backend a `get` event is never answered. */
  lemma NoAnswerNoReply(pre: seq<Processor>, name: string, meta: JsValue, msg: JsValue,
                        answers: seq<Result<JsValue>>, digest: JsValue -> string)
    requires forall i :: 0 <= i < |answers| ==> answers[i].Err?
    ensures Reply(pre, name, meta, msg, answers, digest).None?
  {
    assert FirstOk(answers).None? by {
      NoOkAnswer(answers);
    }
  }

  lemma {:induction false} NoOkAnswer(answers: seq<Result<JsValue>>)
    requires forall i :: 0 <= i < |answers| ==> answers[i].Err?
    ensures FirstOk(answers).None?
  {
    if answers != [] {
      NoOkAnswer(answers[..|answers| - 1]);
    }
  }

  /** The object prototype's members: `watch` is a plain object, so reading
      one of these names finds an inherited value. */
  const ObjectPrototypeKeys: set<string> := {
    "constructor", "hasOwnProperty", "isPrototypeOf", "propertyIsEnumerable",
    "toLocaleString", "toString", "valueOf", "__proto__",
    "__defineGetter__", "__defineSetter__", "__lookupGetter__", "__lookupSetter__"
  }

  /** `typeof this.watch[name] !== 'undefined'` (connectionbasedsync.js:101). */
  predicate WatchHas(watch: map<string, Resource>, name: string) {
    name in watch || name in ObjectPrototypeKeys
  }

  /** The message `get` sends for a resource it starts watching
      (connectionbasedsync.js:105-122): the digest of the preprocessed value
      when there is one, the packed null otherwise; nothing when
      preprocessing rejects. */
  function GetRequest(pre: seq<Processor>, name: string, meta: JsValue, value: JsValue,
                      digest: JsValue -> string): Option<JsValue> {
    if Nullish(value) then Some(Pack(name, meta, Null))
    else
      match Preprocessed(pre, name, meta, value)
      case Err(_) => None
      case Ok(p) => Some(Obj(map["hash" := Str(digest(p))]))
  }

  class ConnectionBasedSync {
    const sync: Sync
    /** The reconnect delay in milliseconds. */
    const timeout: nat
    var connected: bool
    var outgoing: seq<Message>
    var watch: map<string, Resource>
    /** The `reconnect_timeout` slot: the handle of a reconnect timer, if any. */
    var reconnectTimeout: Option<nat>
    /** Pending timers, by handle, with their delay. Every timer this object
        sets runs `_reconnect`. */
    var timers: map<nat, nat>
    var nextHandle: nat
    /** How many times `connect` was called. */
    var connects: nat
    /** Every `deliver` call, oldest first. */
    var delivered: seq<DeliverCall>

    /** Timer handles are never reused. */
    predicate Valid()
      reads this
    {
      && (forall h :: h in timers ==> h < nextHandle)
      && (reconnectTimeout.Some? ==> reconnectTimeout.value < nextHandle)
    }

    /** A queue that is flushed exactly when connected: either `q` is still
        waiting, or it went to `deliver`. */
    predicate Flushed(q: seq<Message>, before: seq<DeliverCall>)
      reads this
    {
      && outgoing == (if connected then [] else q)
      && delivered == before + (if connected then Transmit(sync.pre, q) else [])
    }

    constructor Init(sync: Sync)
      ensures this.sync == sync && timeout == 2000
      ensures !connected && outgoing == [] && watch == map[] && reconnectTimeout == None
      ensures timers == map[] && nextHandle == 0 && connects == 0 && delivered == []
      ensures Valid()
    {
      this.sync := sync;
      timeout := 2000;
      connected := false;
      outgoing := [];
      watch := map[];
      reconnectTimeout := None;
      timers := map[];
      nextHandle := 0;
      connects := 0;
      delivered := [];
    }

    /** connectionbasedsync.js:4-24: the `Sync` part, the fresh state, then
        the checks that the transport implements `connect` and `deliver`
        (`resource_event` is this class's own and always passes). */
    static method Create(syncs: seq<JsValue>, name: string, pre: seq<Processor>, post: seq<Processor>,
                         relay: JsValue, meta: JsValue, value: JsValue,
                         connect: JsValue, deliver: JsValue) returns (r: Result<ConnectionBasedSync>)
      requires !meta.Null? && !meta.Arr?
      ensures !connect.Func? ==> r == Err("ConnectionBasedSyncs must implement connect")
      ensures connect.Func? && !deliver.Func? ==> r == Err("ConnectionBasedSyncs must implement deliver")
      ensures connect.Func? && deliver.Func? ==>
                && r.Ok? && fresh(r.value) && fresh(r.value.sync) && r.value.Valid()
                && r.value.sync.syncs == syncs && r.value.sync.name == name
                && r.value.sync.meta == InitialMeta(meta, "sync") && r.value.sync.value == value
                && r.value.sync.pre == pre && r.value.sync.post == post
                && r.value.sync.relay == (if relay.Arr? then relay.items else [])
                && r.value.timeout == 2000 && !r.value.connected && r.value.outgoing == []
                && r.value.watch == map[] && r.value.reconnectTimeout == None && r.value.timers == map[]
                && r.value.nextHandle == 0 && r.value.connects == 0 && r.value.delivered == []
    {
      var s := new Sync(syncs, name, pre, post, relay, meta, value);
      var c := new ConnectionBasedSync.Init(s);
      if !connect.Func? {
        return Err("ConnectionBasedSyncs must implement connect");
      }
      if !deliver.Func? {
        return Err("ConnectionBasedSyncs must implement deliver");
      }
      r := Ok(c);
    }

    /** `process` (connectionbasedsync.js:145-162): when connected, the queue
        is taken whole and emptied, and each message, without its resource,
        goes through the `pre` chain to `deliver`. */
    method Process()
      modifies this`outgoing, this`delivered
      ensures connected ==> outgoing == [] && delivered == old(delivered) + Transmit(sync.pre, old(outgoing))
      ensures !connected ==> outgoing == old(outgoing) && delivered == old(delivered)
    {
      if !connected {
        return;
      }
      var queue := outgoing;
      outgoing := [];
      var i := 0;
      while i < |queue|
        invariant 0 <= i <= |queue|
        invariant outgoing == []
        invariant delivered == old(delivered) + Transmit(sync.pre, queue[..i])
      {
        assert queue[..i + 1][..i] == queue[..i];
        var m := queue[i];
        var p := sync.RunThrough(sync.pre, Pre, Obj(m.body));
        if p.Ok? {
          delivered := delivered + [DeliverCall(m.resource, m.body, p.value)];
        }
        i := i + 1;
      }
      assert queue[..i] == queue;
    }

    /** `send` (connectionbasedsync.js:135-144): the message is queued at the
        tail and the queue processed. Tagging null throws. */
    method Send(resource: Resource, verb: string, name: string, msg: JsValue) returns (o: Outcome)
      requires !msg.Arr?
      modifies this`outgoing, this`delivered
      ensures msg.Null? ==> o.Fail? && outgoing == old(outgoing) && delivered == old(delivered)
      ensures !msg.Null? ==> o == Pass && Flushed(old(outgoing) + [Message(resource, Body(msg, verb, name))], old(delivered))
    {
      if msg.Null? {
        return Fail("TypeError: cannot set properties of null");
      }
      outgoing := outgoing + [Message(resource, Body(msg, verb, name))];
      Process();
      o := Pass;
    }

    /** `closed` (connectionbasedsync.js:32-36): a reconnect timer is set and
        its handle stored, over any handle already there. */
    method Closed()
      requires Valid()
      modifies this`connected, this`reconnectTimeout, this`timers, this`nextHandle
      ensures Valid() && !connected
      ensures reconnectTimeout == Some(old(nextHandle)) && old(nextHandle) !in old(timers)
      ensures timers == old(timers)[old(nextHandle) := timeout] && nextHandle == old(nextHandle) + 1
      ensures |timers| == |old(timers)| + 1
    {
      connected := false;
      var h := nextHandle;
      timers := timers[h := timeout];
      nextHandle := nextHandle + 1;
      reconnectTimeout := Some(h);
    }

    /** `_reconnect` (connectionbasedsync.js:37-40) */
    method Reconnect()
      modifies this`reconnectTimeout, this`connects
      ensures reconnectTimeout == None && connects == old(connects) + 1
    {
      reconnectTimeout := None;
      connects := connects + 1;
    }

    /** A pending timer runs: it is no longer pending, and `_reconnect` runs,
        clearing the slot whichever handle it held. */
    method FireTimer(h: nat)
      requires Valid() && h in timers
      modifies this`timers, this`reconnectTimeout, this`connects
      ensures Valid()
      ensures timers == old(timers) - {h} && reconnectTimeout == None && connects == old(connects) + 1
    {
      timers := timers - {h};
      Reconnect();
    }

    /** `opened` with the pending reconnect timer cancelled (the browser's
        `clearTimeout`); the slot keeps its handle, as in the code. */
    method Opened()
      requires Valid()
      modifies this`connected, this`timers, this`outgoing, this`delivered
      ensures Valid() && connected && outgoing == []
      ensures delivered == old(delivered) + Transmit(sync.pre, old(outgoing))
      ensures timers == if reconnectTimeout.Some? then old(timers) - {reconnectTimeout.value} else old(timers)
      ensures reconnectTimeout.Some? ==> reconnectTimeout.value !in timers
    {
      connected := true;
      if reconnectTimeout.Some? {
        timers := timers - {reconnectTimeout.value};
      }
      Process();
    }

    /** `opened` as written (connectionbasedsync.js:25-31): `cancelTimeout` is
        not defined, so with a handle in the slot the call throws after
        `connected` is set and before the queue is flushed. */
    method OpenedAsWritten() returns (o: Outcome)
      modifies this`connected, this`outgoing, this`delivered
      ensures connected
      ensures reconnectTimeout.Some? ==>
                o.Fail? && outgoing == old(outgoing) && delivered == old(delivered)
      ensures reconnectTimeout.None? ==>
                o == Pass && outgoing == [] && delivered == old(delivered) + Transmit(sync.pre, old(outgoing))
    {
      connected := true;
      if reconnectTimeout.Some? {
        return Fail("ReferenceError: cancelTimeout is not defined");
      }
      Process();
      o := Pass;
    }

    /** `resource_updated` (connectionbasedsync.js:87-93), which both `got`
        and `set` events run: a defined `data` for a watched name goes to
        that resource's `onupdate`. */
    method ResourceUpdated(name: string, msg: JsValue)
      requires !Nullish(msg)
      modifies watch.Values
      ensures var data := GetProp(msg, "data").value;
              && (data.Undefined? || name !in watch ==> forall r :: r in watch.Values ==> unchanged(r))
              && (!data.Undefined? && name in watch ==>
                    && watch[name].value == data
                    && watch[name].trace == old(watch[name].trace) + Invoked(old(watch[name].callbacks), Val(data))
                    && watch[name].callbacks == DropOnce(old(watch[name].callbacks))
                    && forall r :: r in watch.Values && r != watch[name] ==> unchanged(r))
    {
      var data := GetProp(msg, "data").value;
      if data.Undefined? || name !in watch {
        return;
      }
      var _ := watch[name].OnUpdate(data);
    }

    /** `resource_event_get` (connectionbasedsync.js:66-86): a one-shot
        subscriber is added and the resource queried; the subscriber's reply,
        if any, is sent as a `got` message. */
    method ResourceEventGet(resource: Resource, msg: JsValue, answers: seq<Result<JsValue>>, digest: JsValue -> string)
      requires |answers| == |resource.syncs|
      modifies resource`value, resource`callbacks, resource`trace, this`outgoing, this`delivered
      ensures var d := Absorb(old(resource.callbacks) + [Entry(FreshCallback(old(resource.callbacks)), true, false)], answers);
              && resource.trace == old(resource.trace) + d.calls
              && resource.callbacks == d.callbacks
              && resource.value == LastDefined(answers, old(resource.value))
      ensures match Reply(sync.pre, resource.name, resource.meta, msg, answers, digest)
              case None => outgoing == old(outgoing) && delivered == old(delivered)
              case Some(p) => Flushed(old(outgoing) + [Message(resource, Body(Obj(map["data" := p]), "got", resource.name))], old(delivered))
    {
      var callback := FreshCallback(resource.callbacks);
      OneshotFiresOnFirstAnswer(resource.callbacks, callback, answers);
      var _ := resource.Oneshot(callback);
      var before := resource.trace;
      var _ := resource.Query(answers);
      assert resource.trace[|before|..] == Absorb(old(resource.callbacks) + [Entry(callback, true, false)], answers).calls;
      var fired := CallsTo(resource.trace[|before|..], callback);
      if fired == [] {
        return;
      }
      var v := fired[0].arg.v;
      var p := sync.Preprocess(resource, v);
      if p.Err? {
        return;
      }
      var hash := GetProp(msg, "hash");
      if hash.Err? || (hash.value.Str? && hash.value.s == digest(p.value)) {
        return;
      }
      var _ := Send(resource, "got", resource.name, Obj(map["data" := p.value]));
    }

    /** `resource_event` (connectionbasedsync.js:61-65): the handler named
        after the method, if there is one. */
    method ResourceEvent(resource: Resource, verb: string, msg: JsValue, answers: seq<Result<JsValue>>, digest: JsValue -> string)
      requires !Nullish(msg) && |answers| == |resource.syncs|
      requires resource !in watch.Values
      modifies resource`value, resource`callbacks, resource`trace, this`outgoing, this`delivered, watch.Values
      ensures !Handled(verb) ==> outgoing == old(outgoing) && delivered == old(delivered) && unchanged(resource)
      ensures !Handled(verb) || verb == "get" ==> forall r :: r in watch.Values ==> unchanged(r)
      ensures verb == "get" ==>
                match Reply(sync.pre, resource.name, resource.meta, msg, answers, digest)
                case None => outgoing == old(outgoing) && delivered == old(delivered)
                case Some(p) => Flushed(old(outgoing) + [Message(resource, Body(Obj(map["data" := p]), "got", resource.name))], old(delivered))
      ensures (verb == "got" || verb == "set") ==>
                && outgoing == old(outgoing) && delivered == old(delivered) && unchanged(resource)
                && var data := GetProp(msg, "data").value;
                   && (data.Undefined? || resource.name !in watch ==> forall r :: r in watch.Values ==> unchanged(r))
                   && (!data.Undefined? && resource.name in watch ==>
                         && watch[resource.name].value == data
                         && watch[resource.name].trace == old(watch[resource.name].trace) + Invoked(old(watch[resource.name].callbacks), Val(data))
                         && watch[resource.name].callbacks == DropOnce(old(watch[resource.name].callbacks)))
    {
      if verb == "get" {
        ResourceEventGet(resource, msg, answers, digest);
      } else if verb == "got" || verb == "set" {
        ResourceUpdated(resource.name, msg);
      }
    }

    /** The decoding half of `delivery`: the post chain, then `should_process`. */
    method Decode(data: JsValue) returns (route: Option<Route>)
      ensures route == Inbound(sync.post, data)
      ensures route.Some? ==> route.value.msg.Obj?
    {
      var decoded := sync.RunThrough(sync.post, Post, data);
      if decoded.Err? {
        return None;
      }
      var msg := decoded.value;
      var accept := ShouldProcess(msg);
      if accept.Err? || !accept.value {
        return None;
      }
      route := Some(Route(ToString(GetProp(msg, "method").value), ToString(GetProp(msg, "name").value), msg));
    }

    /** `delivery` (connectionbasedsync.js:41-53): inbound data is decoded
        against a fresh resource bound to the relay backends, accepted or
        dropped, named after the message and dispatched. */
    method Delivery(data: JsValue, answers: seq<Result<JsValue>>, digest: JsValue -> string) returns (route: Option<Route>)
      requires |answers| == |sync.relay|
      modifies this`outgoing, this`delivered, watch.Values
      ensures route == Inbound(sync.post, data)
      ensures route.None? || !Handled(route.value.verb) ==>
                outgoing == old(outgoing) && delivered == old(delivered) && forall r :: r in watch.Values ==> unchanged(r)
      ensures route.Some? && route.value.verb == "get" ==>
                && (forall r :: r in watch.Values ==> unchanged(r))
                && match Reply(sync.pre, route.value.name, InitialMeta(Undefined, "resource"), route.value.msg, answers, digest)
                   case None => outgoing == old(outgoing) && delivered == old(delivered)
                   case Some(p) => exists resource: Resource ::
                                     Flushed(old(outgoing) + [Message(resource, Body(Obj(map["data" := p]), "got", route.value.name))], old(delivered))
      ensures route.Some? && (route.value.verb == "got" || route.value.verb == "set") ==>
                && outgoing == old(outgoing) && delivered == old(delivered)
                && var name := route.value.name;
                   var update := GetProp(route.value.msg, "data").value;
                   && (update.Undefined? || name !in watch ==> forall r :: r in watch.Values ==> unchanged(r))
                   && (!update.Undefined? && name in watch ==>
                         && watch[name].value == update
                         && watch[name].trace == old(watch[name].trace) + Invoked(old(watch[name].callbacks), Val(update))
                         && watch[name].callbacks == DropOnce(old(watch[name].callbacks)))
    {
      var resource := new Resource(sync.relay, "", "resource", Undefined, Undefined);
      route := Decode(data);
      if route.None? {
        return;
      }
      resource.name := route.value.name;
      ResourceEvent(resource, route.value.verb, route.value.msg, answers, digest);
    }

    /** `get` (connectionbasedsync.js:100-124): a name already watched (or
        one the object prototype answers for) is left alone; otherwise the
        resource is watched and one `get` request queued. */
    method Get(resource: Resource, digest: JsValue -> string) returns (r: JsValue)
      modifies this`watch, this`outgoing, this`delivered
      ensures WatchHas(old(watch), resource.name) ==>
                r == Null && watch == old(watch) && outgoing == old(outgoing) && delivered == old(delivered)
      ensures !WatchHas(old(watch), resource.name) ==>
                && watch == old(watch)[resource.name := resource]
                && r == (if Nullish(resource.value) then Undefined else Null)
                && match GetRequest(sync.pre, resource.name, resource.meta, resource.value, digest)
                   case None => outgoing == old(outgoing) && delivered == old(delivered)
                   case Some(m) => Flushed(old(outgoing) + [Message(resource, Body(m, "get", resource.name))], old(delivered))
    {
      if WatchHas(watch, resource.name) {
        return Null;
      }
      watch := watch[resource.name := resource];
      if !Nullish(resource.value) {
        var p := sync.Preprocess(resource, resource.value);
        if p.Ok? {
          var _ := Send(resource, "get", resource.name, Obj(map["hash" := Str(digest(p.value))]));
        }
        return Null;
      }
      var _ := Send(resource, "get", resource.name, Pack(resource.name, resource.meta, Null));
      r := Undefined;
    }

    /** `set` (connectionbasedsync.js:125-134): the resource is watched,
        replacing whatever was watched under its name, and its preprocessed
        value queued as a `set` message; settles to the resource. */
    method Set(resource: Resource, v: JsValue) returns (r: Result<Resource>)
      modifies this`watch, this`outgoing, this`delivered
      ensures watch == old(watch)[resource.name := resource]
      ensures match Preprocessed(sync.pre, resource.name, resource.meta, v)
              case Err(e) => r == Err(e) && outgoing == old(outgoing) && delivered == old(delivered)
              case Ok(p) => r == Ok(resource)
                            && Flushed(old(outgoing) + [Message(resource, Body(Obj(map["data" := p]), "set", resource.name))], old(delivered))
    {
      watch := watch[resource.name := resource];
      var p := sync.Preprocess(resource, v);
      if p.Err? {
        return Err(p.error);
      }
      var _ := Send(resource, "set", resource.name, Obj(map["data" := p.value]));
      r := Ok(resource);
    }
  }
}
