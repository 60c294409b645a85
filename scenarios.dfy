/** End-to-end uses of the engine: each method builds the objects it needs,
    drives them through a short sequence of calls and states the outcome. */
module Scenarios {
  import opened JsValues
  import opened Resources
  import opened Pipeline
  import opened Dicts
  import opened LocalStorage
  import opened ConnectionSync

  /** A plain `register` subscriber sees a defined backend answer twice. */
  method AnswerReachesSubscriberTwice(f: JsValue, v: JsValue) returns (r: Resource)
    requires f.Func? && !Nullish(v)
    ensures r.trace == [Call(f, Val(v)), Call(f, Val(v))] && r.value == v
  {
    r := new Resource([Str("backend")], "doc", "resource", Undefined, Undefined);
    var _ := r.Register(f);
    OneAnswerOneSubscriber(f, v);
    var _ := r.Query([Ok(v)]);
  }

  /** One plain subscriber and one defined answer: two calls, and the value is kept. */
  lemma OneAnswerOneSubscriber(f: JsValue, v: JsValue)
    requires !Nullish(v)
    ensures [] + Absorb([Entry(f, false, false)], [Ok(v)]).calls == [Call(f, Val(v)), Call(f, Val(v))]
    ensures LastDefined([Ok(v)], Undefined) == v
  {
    var cbs := [Entry(f, false, false)];
    assert [Ok(v)][..0] == [];
    DefinedAnswerFiresTwice(cbs, v);
    InvokedDefined(cbs, Val(v));
    assert Absorb(cbs, [Ok(v)]).calls == [] + Arrive(cbs, v).calls;
  }

  /** A one-shot subscriber fires with the first answer only, and is gone after it. */
  method OneshotSeesFirstAnswerOnly(f: JsValue, v: JsValue, w: JsValue) returns (r: Resource)
    requires f.Func? && !Nullish(v)
    ensures CallsTo(r.trace, f) == [Call(f, Val(v))] && NotSubscribed(r.callbacks, f)
  {
    r := new Resource([Str("primary"), Str("replica")], "doc", "resource", Undefined, Undefined);
    var _ := r.Oneshot(f);
    var answers := [Ok(v), Ok(w)];
    assert FirstOk(answers) == Some(v) by {
      assert [Ok(v)][..0] == [];
      assert FirstOk([Ok(v)]) == Some(v);
      assert answers[..1] == [Ok(v)];
    }
    var cbs := [Entry(f, true, false)];
    assert [] + [Entry(f, true, false)] == cbs;
    OneshotFiresOnFirstAnswer([], f, answers);
    var d := Absorb(cbs, answers);
    assert CallsTo(d.calls, f) == [Call(f, Val(v))] && NotSubscribed(d.callbacks, f);
    var _ := r.Query(answers);
    assert r.trace == [] + d.calls && r.callbacks == d.callbacks;
    assert [] + d.calls == d.calls;
  }

  /** With no backend bound, a query settles to nothing and an update never settles. */
  method UnboundResourceNeverUpdates(v: JsValue) returns (r: Resource, q: Result<seq<JsValue>>, s: Settlement<Resource>)
    requires !v.Undefined?
    ensures q == Ok([]) && s == NeverSettles && r.value == Undefined && r.trace == []
  {
    r := new Resource([], "doc", "resource", Undefined, Undefined);
    q := r.Query([]);
    s := r.Update(v, None);
  }

  /** Adding one key twice to a fresh dictionary lists it once. */
  method DictAddTwice(key: string) returns (d: Dict)
    requires |key| > 0
    ensures d.Keys() == [Str(key)]
  {
    d := new Dict([Str("backend")], "folder", "dict", "doc", Undefined, Undefined);
    var x := Str(key);
    assert d.Keys() == [];
    AddCommitted(d, key);
    assert d.Keys() == [x] by {
      assert [] + [x] == [x];
      DedupAppendAbsent([], x);
    }
    AddCommitted(d, key);
    DedupAppendPresent([x], x);
  }

  /** One `add` whose update the single backend accepts. */
  method AddCommitted(d: Dict, key: string)
    requires |key| > 0 && d.Commits(Some(Ok(Null))) && |d.res.syncs| == 1 && d.res.value.Arr?
    modifies d`subvalue, d.res`value, d.res`callbacks, d.res`trace
    ensures d.Keys() == Dedup(old(d.Keys()) + [Str(key)])
    ensures d.Commits(Some(Ok(Null))) && |d.res.syncs| == 1 && d.res.value.Arr?
  {
    assert d.res.value.Arr?;
    var _ := d.Add(Str(key), None, Some(Ok(Null)), (k: string) => [Ok(Null)]);
  }

  /** A value JSON keeps whole, set through a JSON-processed local storage
      sync, reads back. */
  method LocalStorageRoundTrip(c: Codec, v: JsValue) returns (got: Result<JsValue>)
    requires CodecLaw(c) && JsonSafe(v)
    ensures got == Ok(v)
  {
    var r, s := JsonStoreSetup(c);
    JsonStoreKeepsSafeValues(c, r.name, r.meta, v);
    var stored := s.Set(r, v);
    got := s.Get(r);
  }

  /** A function set through a JSON-processed local storage sync reads back
      as null: `JSON.stringify` gives it no text. */
  method LocalStorageLosesFunction(c: Codec, id: nat) returns (got: Result<JsValue>)
    requires CodecLaw(c)
    ensures got == Ok(Null)
  {
    var r, s := JsonStoreSetup(c);
    JsonStoreRoundTrip(c, r.name, r.meta, Func(id));
    var stored := s.Set(r, Func(id));
    got := s.Get(r);
  }

  /** An empty store behind a JSON-processed sync, and a fresh resource whose
      meta JSON keeps whole. */
  method JsonStoreSetup(c: Codec) returns (r: Resource, s: LocalStorageSync)
    ensures fresh(s.store) && fresh(r)
    ensures s.sync.pre == [JsonProcessor(c)] && s.sync.post == [JsonProcessor(c)]
    ensures JsonSafe(r.meta)
  {
    var store := new Storage(map[]);
    var j := [JsonProcessor(c)];
    s := new LocalStorageSync([], "app", j, j, Undefined, Undefined, store);
    r := new Resource([], "doc", "resource", Undefined, Undefined);
    assert forall k :: k in r.meta.fields ==> k == "__type";
  }

  /** Messages sent while disconnected wait in order and are delivered in
      that order once the connection opens. */
  method QueuedMessagesFlushInOrder(a: Resource, b: Resource) returns (c: ConnectionBasedSync)
    ensures c.connected && c.outgoing == []
    ensures c.delivered == [
              DeliverCall(a, Body(Undefined, "set", "x"), Obj(Body(Undefined, "set", "x"))),
              DeliverCall(b, Body(Undefined, "set", "y"), Obj(Body(Undefined, "set", "y")))]
  {
    var s := new Sync([], "ws", [], [], Undefined, Undefined, Undefined);
    c := new ConnectionBasedSync.Init(s);
    var ma, mb := Message(a, Body(Undefined, "set", "x")), Message(b, Body(Undefined, "set", "y"));
    SendWhileClosed(c, a, "x");
    SendWhileClosed(c, b, "y");
    assert c.outgoing == [ma, mb];
    c.Opened();
    assert RunThroughSpec([], Pre, Obj(ma.body)) == Ok(Obj(ma.body));
    assert RunThroughSpec([], Pre, Obj(mb.body)) == Ok(Obj(mb.body));
    TransmitInOrder([], [ma, mb]);
    var t := Transmit([], [ma, mb]);
    assert t == [t[0], t[1]];
  }

  /** A `set` sent while the connection is down waits at the end of the queue. */
  method SendWhileClosed(c: ConnectionBasedSync, r: Resource, name: string)
    requires !c.connected
    modifies c`outgoing, c`delivered
    ensures c.outgoing == old(c.outgoing) + [Message(r, Body(Undefined, "set", name))]
    ensures c.delivered == old(c.delivered)
  {
    var _ := c.Send(r, "set", name, Undefined);
  }

  /** Two drops in a row leave two reconnect timers pending; only the second
      handle is kept, so `connect` runs twice. */
  method DoubleDropReconnectsTwice() returns (c: ConnectionBasedSync)
    ensures c.timers == map[] && c.connects == 2 && c.reconnectTimeout == None
  {
    var s := new Sync([], "ws", [], [], Undefined, Undefined, Undefined);
    c := new ConnectionBasedSync.Init(s);
    c.Closed();
    assert c.timers == map[0 := 2000];
    c.Closed();
    assert c.timers == map[0 := 2000, 1 := 2000];
    c.FireTimer(0);
    assert c.timers == map[1 := 2000];
    c.FireTimer(1);
  }

  /** As written, reopening after a drop throws: the connection counts as
      open, the queued message stays queued and the reconnect timer still runs. */
  method ReopenAsWritten(a: Resource) returns (c: ConnectionBasedSync, o: Outcome)
    ensures o.Fail? && c.connected
    ensures c.outgoing == [Message(a, Body(Undefined, "set", "x"))] && c.delivered == []
    ensures c.reconnectTimeout == Some(0) && 0 in c.timers
    ensures fresh(c) && c.sync.pre == []
  {
    var s := new Sync([], "ws", [], [], Undefined, Undefined, Undefined);
    c := new ConnectionBasedSync.Init(s);
    c.Closed();
    var _ := c.Send(a, "set", "x", Undefined);
    o := c.OpenedAsWritten();
  }

  /** As written, the throw only postpones the flush: the connection counts
      as open, so the next `send` flushes the whole queue in order. */
  method NextSendFlushesAfterFailedReopen(a: Resource, b: Resource) returns (c: ConnectionBasedSync)
    ensures c.connected && c.outgoing == []
    ensures c.delivered == [
              DeliverCall(a, Body(Undefined, "set", "x"), Obj(Body(Undefined, "set", "x"))),
              DeliverCall(b, Body(Undefined, "set", "y"), Obj(Body(Undefined, "set", "y")))]
  {
    var o;
    c, o := ReopenAsWritten(a);
    var ma, mb := Message(a, Body(Undefined, "set", "x")), Message(b, Body(Undefined, "set", "y"));
    var _ := c.Send(b, "set", "y", Undefined);
    assert [ma] + [mb] == [ma, mb];
    assert c.delivered == [] + Transmit([], [ma, mb]);
    assert RunThroughSpec([], Pre, Obj(ma.body)) == Ok(Obj(ma.body));
    assert RunThroughSpec([], Pre, Obj(mb.body)) == Ok(Obj(mb.body));
    TransmitInOrder([], [ma, mb]);
    var t := Transmit([], [ma, mb]);
    assert t == [t[0], t[1]];
  }

  /** With the timer cancelled, reopening after a drop flushes the queue and
      leaves no reconnect pending. */
  method ReopenCorrected(a: Resource) returns (c: ConnectionBasedSync)
    ensures c.connected && c.outgoing == [] && c.timers == map[]
    ensures c.delivered == [DeliverCall(a, Body(Undefined, "set", "x"), Obj(Body(Undefined, "set", "x")))]
  {
    var s := new Sync([], "ws", [], [], Undefined, Undefined, Undefined);
    c := new ConnectionBasedSync.Init(s);
    c.Closed();
    var _ := c.Send(a, "set", "x", Undefined);
    var queue := [Message(a, Body(Undefined, "set", "x"))];
    assert c.outgoing == queue;
    c.Opened();
    TransmitInOrder([], queue);
  }

  /** Two resources with one name share a watch slot: the later `set` wins,
      and `get` on the first no longer watches or asks for it. */
  method SameNameSharesWatch(a: Resource, b: Resource, v: JsValue, digest: JsValue -> string)
    returns (c: ConnectionBasedSync, r: JsValue)
    requires a.name == b.name && a != b
    ensures c.watch == map[a.name := b] && r == Null
  {
    var s := new Sync([], "ws", [], [], Undefined, Undefined, Undefined);
    c := new ConnectionBasedSync.Init(s);
    var _ := c.Set(a, v);
    var _ := c.Set(b, v);
    r := c.Get(a, digest);
  }
}
