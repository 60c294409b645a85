/** `Resource` (core.js:1-181): a named, observable value with a list of
    subscriptions. The backends a resource is bound to are not called here:
    each operation that fans out to them takes what they answered. */
module Resources {
  import opened JsValues

  /** A subscription (core.js:55-77): the callback, whether the next dispatch
      removes it, and whether it also fires for null or undefined. `register`
      and `oneshot` leave `empty` unset, which reads as false. */
  datatype Entry = Entry(callback: JsValue, once: bool, empty: bool)

  /** What a callback receives: a value, or a `Dict`'s map of children. */
  datatype Arg = Val(v: JsValue) | Subvalues(children: map<string, Resource>)

  /** One invocation of a subscriber's callback. */
  datatype Call = Call(callback: JsValue, arg: Arg)

  /** The calls made and the subscriptions left by a run of dispatches. */
  datatype Dispatch = Dispatch(calls: seq<Call>, callbacks: seq<Entry>)

  predicate EmptyArg(a: Arg) {
    a.Val? && Nullish(a.v)
  }

  /** core.js:138-140: an entry fires for a defined value, or when it asked for empty values too. */
  predicate Fires(e: Entry, a: Arg) {
    !EmptyArg(a) || e.empty
  }

  predicate NotSubscribed(cbs: seq<Entry>, callback: JsValue) {
    forall i :: 0 <= i < |cbs| ==> cbs[i].callback != callback
  }

  /** The invocations one dispatch makes, in list order. */
  function Invoked(cbs: seq<Entry>, a: Arg): seq<Call> {
    if cbs == [] then []
    else
      var e := cbs[|cbs| - 1];
      Invoked(cbs[..|cbs| - 1], a) + (if Fires(e, a) then [Call(e.callback, a)] else [])
  }

  /** The subscriptions without the `once` ones, in their order. */
  function DropOnce(cbs: seq<Entry>): (r: seq<Entry>)
    ensures |r| <= |cbs|
    ensures forall i :: 0 <= i < |r| ==> !r[i].once && r[i] in cbs
  {
    if cbs == [] then []
    else
      var e := cbs[|cbs| - 1];
      DropOnce(cbs[..|cbs| - 1]) + (if e.once then [] else [e])
  }

  ghost predicate Increasing(idxs: seq<nat>) {
    forall j, k :: 0 <= j < k < |idxs| ==> idxs[j] < idxs[k]
  }

  ghost predicate Below(idxs: seq<nat>, n: nat) {
    forall j :: 0 <= j < |idxs| ==> idxs[j] < n
  }

  /** The positions of the `once` entries, ascending (core.js:143-146). */
  function OnceIndices(cbs: seq<Entry>): (r: seq<nat>)
    ensures Increasing(r) && Below(r, |cbs|)
    ensures forall j :: 0 <= j < |r| ==> cbs[r[j]].once
  {
    if cbs == [] then []
    else
      OnceIndices(cbs[..|cbs| - 1]) + (if cbs[|cbs| - 1].once then [|cbs| - 1] else [])
  }

  /** `Array.prototype.splice(i, 1)`: removes position i, or nothing when i is past the end. */
  function RemoveAt<T>(s: seq<T>, i: nat): (r: seq<T>)
    ensures i < |s| ==> |r| == |s| - 1
  {
    if i < |s| then s[..i] + s[i + 1..] else s
  }

  /** core.js:148-150 as written: the collected positions are spliced out
      lowest first, so every splice shifts the positions still to come. */
  function SpliceInOrder(s: seq<Entry>, idxs: seq<nat>): seq<Entry>
    decreases |idxs|
  {
    if idxs == [] then s else SpliceInOrder(RemoveAt(s, idxs[0]), idxs[1..])
  }

  /** The corrected removal: the collected positions are spliced out highest
      first, so the positions still to come stay where they were. */
  function SpliceFromTop(s: seq<Entry>, idxs: seq<nat>): seq<Entry>
    decreases |idxs|
  {
    if idxs == [] then s
    else SpliceFromTop(RemoveAt(s, idxs[|idxs| - 1]), idxs[..|idxs| - 1])
  }

  lemma {:induction false} SpliceFromTopAppend(t: seq<Entry>, e: Entry, idxs: seq<nat>)
    requires Increasing(idxs) && Below(idxs, |t|)
    ensures SpliceFromTop(t + [e], idxs) == SpliceFromTop(t, idxs) + [e]
    decreases |idxs|
  {
    if idxs != [] {
      var r := idxs[|idxs| - 1];
      var rest := idxs[..|idxs| - 1];
      assert RemoveAt(t + [e], r) == RemoveAt(t, r) + [e];
      assert Below(rest, |RemoveAt(t, r)|) by {
        forall j | 0 <= j < |rest| ensures rest[j] < |RemoveAt(t, r)| {
          assert rest[j] == idxs[j] && idxs[j] < idxs[|idxs| - 1];
        }
      }
      SpliceFromTopAppend(RemoveAt(t, r), e, rest);
    }
  }

  /** A `once` entry at the end is the last position collected, and the
      first one spliced. */
  lemma SpliceFromTopOnceLast(t: seq<Entry>, e: Entry)
    requires e.once
    ensures SpliceFromTop(t + [e], OnceIndices(t + [e])) == SpliceFromTop(t, OnceIndices(t))
    ensures DropOnce(t + [e]) == DropOnce(t)
  {
    var s := t + [e];
    assert s[..|s| - 1] == t;
    var idxs := OnceIndices(s);
    assert idxs == OnceIndices(t) + [|t|];
    assert RemoveAt(s, |t|) == t;
    assert idxs[..|idxs| - 1] == OnceIndices(t);
  }

  /** A plain entry at the end adds no position and stays at the end. */
  lemma SpliceFromTopPlainLast(t: seq<Entry>, e: Entry)
    requires !e.once
    ensures SpliceFromTop(t + [e], OnceIndices(t + [e])) == SpliceFromTop(t, OnceIndices(t)) + [e]
    ensures DropOnce(t + [e]) == DropOnce(t) + [e]
  {
    var s := t + [e];
    assert s[..|s| - 1] == t;
    assert OnceIndices(s) == OnceIndices(t);
    SpliceFromTopAppend(t, e, OnceIndices(t));
  }

  /** Splicing the `once` positions highest first removes exactly the `once`
      entries and keeps every other entry in order. */
  lemma {:induction false} SpliceFromTopDropsOnce(s: seq<Entry>)
    ensures SpliceFromTop(s, OnceIndices(s)) == DropOnce(s)
  {
    if s != [] {
      var t := s[..|s| - 1];
      var e := s[|s| - 1];
      assert s == t + [e];
      SpliceFromTopDropsOnce(t);
      if e.once {
        SpliceFromTopOnceLast(t, e);
      } else {
        SpliceFromTopPlainLast(t, e);
      }
    }
  }

  /** As written, the splice is right while at most one entry is `once`:
      every `once` entry goes and the others stay in order. */
  lemma AscendingSpliceWithOneOnce(s: seq<Entry>)
    requires |OnceIndices(s)| <= 1
    ensures SpliceInOrder(s, OnceIndices(s)) == DropOnce(s)
  {
    SpliceFromTopDropsOnce(s);
    var idxs := OnceIndices(s);
    if |idxs| == 1 {
      assert idxs[1..] == [] && idxs[..0] == [];
    }
  }

  /** The `once` positions and the survivors of a list that starts with two
      `once` entries and ends with a plain one. */
  lemma TwoOnceThenPlain(ea: Entry, eb: Entry, ec: Entry)
    requires ea.once && eb.once && !ec.once
    ensures OnceIndices([ea, eb, ec]) == [0, 1]
    ensures DropOnce([ea, eb, ec]) == [ec]
  {
    var s := [ea, eb, ec];
    assert s[..2] == [ea, eb] && [ea, eb][..1] == [ea] && [ea][..0] == [];
    assert OnceIndices([ea]) == [0] && DropOnce([ea]) == [];
    assert OnceIndices([ea, eb]) == [0, 1] && DropOnce([ea, eb]) == [];
  }

  /** As written, two `once` entries ahead of a plain one: the second `once`
      entry survives and the plain entry is removed instead. */
  lemma AscendingSpliceRemovesWrongEntry(a: JsValue, b: JsValue, c: JsValue)
    ensures var s := [Entry(a, true, false), Entry(b, true, false), Entry(c, false, false)];
            SpliceInOrder(s, OnceIndices(s)) == [Entry(b, true, false)]
            && DropOnce(s) == [Entry(c, false, false)]
  {
    var ea, eb, ec := Entry(a, true, false), Entry(b, true, false), Entry(c, false, false);
    TwoOnceThenPlain(ea, eb, ec);
    var t := RemoveAt([ea, eb, ec], 0);
    assert t == [eb, ec];
    assert RemoveAt(t, 1) == [eb];
    assert [0, 1][0] == 0 && [0, 1][1..] == [1] && [1][0] == 1 && [1][1..] == [];
    assert SpliceInOrder([eb], []) == [eb];
    assert SpliceInOrder(t, [1]) == [eb];
  }

  /** For a defined value every entry fires, in list order. */
  lemma {:induction false} InvokedDefined(cbs: seq<Entry>, a: Arg)
    requires !EmptyArg(a)
    ensures |Invoked(cbs, a)| == |cbs|
    ensures forall i :: 0 <= i < |cbs| ==> Invoked(cbs, a)[i] == Call(cbs[i].callback, a)
  {
    if cbs != [] {
      InvokedDefined(cbs[..|cbs| - 1], a);
    }
  }

  /** For null or undefined exactly the entries that asked for empty values fire. */
  lemma {:induction false} InvokedEmpty(cbs: seq<Entry>, a: Arg)
    requires EmptyArg(a)
    ensures forall c :: c in Invoked(cbs, a) ==> exists i :: 0 <= i < |cbs| && cbs[i].empty && c == Call(cbs[i].callback, a)
    ensures forall i :: 0 <= i < |cbs| && cbs[i].empty ==> Call(cbs[i].callback, a) in Invoked(cbs, a)
  {
    if cbs != [] {
      var t := cbs[..|cbs| - 1];
      InvokedEmpty(t, a);
      forall c | c in Invoked(cbs, a)
        ensures exists i :: 0 <= i < |cbs| && cbs[i].empty && c == Call(cbs[i].callback, a)
      {
        if c in Invoked(t, a) {
          var i :| 0 <= i < |t| && t[i].empty && c == Call(t[i].callback, a);
          assert cbs[i] == t[i];
        }
      }
    }
  }

  /** The subscriptions a list of `once` flags leaves alone. */
  lemma {:induction false} DropOnceKeepsPlain(cbs: seq<Entry>)
    requires forall i :: 0 <= i < |cbs| ==> !cbs[i].once
    ensures DropOnce(cbs) == cbs
  {
    if cbs != [] {
      DropOnceKeepsPlain(cbs[..|cbs| - 1]);
    }
  }

  /** `unregister`'s search (core.js:83-88): the last position whose callback
      is the given one, or -1 when none is. */
  function LastMatch(cbs: seq<Entry>, callback: JsValue): (r: int)
    ensures -1 <= r < |cbs|
    ensures r == -1 <==> NotSubscribed(cbs, callback)
    ensures r >= 0 ==> cbs[r].callback == callback
    ensures forall j :: r < j < |cbs| ==> cbs[j].callback != callback
  {
    if cbs == [] then -1
    else if cbs[|cbs| - 1].callback == callback then |cbs| - 1
    else LastMatch(cbs[..|cbs| - 1], callback)
  }

  /** One backend answer arriving (core.js:40-47): the callbacks run with it
      at once, and a defined answer is also stored by `onupdate`, whose own
      dispatch (core.js:124-131) runs them a second time. */
  function Arrive(cbs: seq<Entry>, v: JsValue): Dispatch {
    var first := Invoked(cbs, Val(v));
    var left := DropOnce(cbs);
    if Nullish(v) then Dispatch(first, left)
    else Dispatch(first + Invoked(left, Val(v)), DropOnce(left))
  }

  /** The answers of the backends handled in order; a rejected `get` has no handler run. */
  function Absorb(cbs: seq<Entry>, answers: seq<Result<JsValue>>): Dispatch {
    if answers == [] then Dispatch([], cbs)
    else
      var d := Absorb(cbs, answers[..|answers| - 1]);
      var x := answers[|answers| - 1];
      if x.Err? then d
      else
        var d2 := Arrive(d.callbacks, x.value);
        Dispatch(d.calls + d2.calls, d2.callbacks)
  }

  /** The value left after the answers: the last defined one, else `v`. */
  function LastDefined(answers: seq<Result<JsValue>>, v: JsValue): JsValue {
    if answers == [] then v
    else
      var x := answers[|answers| - 1];
      if x.Ok? && !Nullish(x.value) then x.value else LastDefined(answers[..|answers| - 1], v)
  }

  /** `Promise.all` over the answers: all values, or the first rejection. */
  function Gather(answers: seq<Result<JsValue>>): Result<seq<JsValue>> {
    if answers == [] then Ok([])
    else
      var g := Gather(answers[..|answers| - 1]);
      var x := answers[|answers| - 1];
      if g.Err? then g
      else if x.Err? then Err(x.error)
      else Ok(g.value + [x.value])
  }

  /** The first answer that was not a rejection. */
  function FirstOk(answers: seq<Result<JsValue>>): Option<JsValue> {
    if answers == [] then None
    else
      var f := FirstOk(answers[..|answers| - 1]);
      var x := answers[|answers| - 1];
      if f.Some? then f else if x.Ok? then Some(x.value) else None
  }

  /** The calls of a list of invocations that went to one callback. */
  function CallsTo(calls: seq<Call>, callback: JsValue): seq<Call> {
    if calls == [] then []
    else
      CallsTo(calls[..|calls| - 1], callback)
      + (if calls[|calls| - 1].callback == callback then [calls[|calls| - 1]] else [])
  }

  lemma {:induction false} CallsToAppend(x: seq<Call>, y: seq<Call>, callback: JsValue)
    ensures CallsTo(x + y, callback) == CallsTo(x, callback) + CallsTo(y, callback)
    decreases |y|
  {
    if y != [] {
      assert (x + y)[..|x + y| - 1] == x + y[..|y| - 1];
      assert (x + y)[|x + y| - 1] == y[|y| - 1];
      CallsToAppend(x, y[..|y| - 1], callback);
    } else {
      assert x + y == x;
    }
  }

  lemma {:induction false} InvokedNotSubscribed(cbs: seq<Entry>, a: Arg, callback: JsValue)
    requires NotSubscribed(cbs, callback)
    ensures CallsTo(Invoked(cbs, a), callback) == []
  {
    if cbs != [] {
      var t := cbs[..|cbs| - 1];
      var e := cbs[|cbs| - 1];
      InvokedNotSubscribed(t, a, callback);
      CallsToAppend(Invoked(t, a), if Fires(e, a) then [Call(e.callback, a)] else [], callback);
      assert CallsTo([Call(e.callback, a)], callback) == [];
    }
  }

  lemma DropOnceNotSubscribed(cbs: seq<Entry>, callback: JsValue)
    requires NotSubscribed(cbs, callback)
    ensures NotSubscribed(DropOnce(cbs), callback)
  {
    var r := DropOnce(cbs);
    forall i | 0 <= i < |r| ensures r[i].callback != callback {
      var k :| 0 <= k < |cbs| && cbs[k] == r[i];
    }
  }

  lemma ArriveNotSubscribed(cbs: seq<Entry>, v: JsValue, callback: JsValue)
    requires NotSubscribed(cbs, callback)
    ensures CallsTo(Arrive(cbs, v).calls, callback) == []
    ensures NotSubscribed(Arrive(cbs, v).callbacks, callback)
  {
    InvokedNotSubscribed(cbs, Val(v), callback);
    DropOnceNotSubscribed(cbs, callback);
    var left := DropOnce(cbs);
    InvokedNotSubscribed(left, Val(v), callback);
    DropOnceNotSubscribed(left, callback);
    CallsToAppend(Invoked(cbs, Val(v)), Invoked(left, Val(v)), callback);
  }

  /** The calls a `oneshot` subscription receives from a run of answers. */
  function OneshotCalls(callback: JsValue, answers: seq<Result<JsValue>>): seq<Call> {
    match FirstOk(answers)
    case None => []
    case Some(v) => if Nullish(v) then [] else [Call(callback, Val(v))]
  }

  /** The first answer to arrive at a list ending in a `oneshot` callback. */
  lemma OneshotFirstArrival(cbs: seq<Entry>, callback: JsValue, v: JsValue)
    requires NotSubscribed(cbs, callback)
    ensures var d := Arrive(cbs + [Entry(callback, true, false)], v);
            && CallsTo(d.calls, callback) == (if Nullish(v) then [] else [Call(callback, Val(v))])
            && NotSubscribed(d.callbacks, callback)
  {
    var e := Entry(callback, true, false);
    var all := cbs + [e];
    assert all[..|all| - 1] == cbs;
    var hit: seq<Call> := if Fires(e, Val(v)) then [Call(callback, Val(v))] else [];
    assert Invoked(all, Val(v)) == Invoked(cbs, Val(v)) + hit;
    assert DropOnce(all) == DropOnce(cbs);
    InvokedNotSubscribed(cbs, Val(v), callback);
    CallsToAppend(Invoked(cbs, Val(v)), hit, callback);
    assert CallsTo([Call(callback, Val(v))], callback) == [Call(callback, Val(v))];
    ArriveNotSubscribed(DropOnce(cbs), v, callback);
    DropOnceNotSubscribed(cbs, callback);
    var left := DropOnce(cbs);
    InvokedNotSubscribed(left, Val(v), callback);
    DropOnceNotSubscribed(left, callback);
    CallsToAppend(Invoked(all, Val(v)), Invoked(left, Val(v)), callback);
  }

  /** A `oneshot` callback added behind other subscriptions fires at most once:
      with the first answer that arrives, and only if that answer is defined;
      it is gone after that first answer, whatever the answer was. */
  lemma {:induction false} OneshotFiresOnFirstAnswer(cbs: seq<Entry>, callback: JsValue, answers: seq<Result<JsValue>>)
    requires NotSubscribed(cbs, callback)
    ensures var d := Absorb(cbs + [Entry(callback, true, false)], answers);
            && CallsTo(d.calls, callback) == OneshotCalls(callback, answers)
            && (FirstOk(answers).None? ==> d == Dispatch([], cbs + [Entry(callback, true, false)]))
            && (FirstOk(answers).Some? ==> NotSubscribed(d.callbacks, callback))
  {
    var all := cbs + [Entry(callback, true, false)];
    if answers != [] {
      var front := answers[..|answers| - 1];
      var x := answers[|answers| - 1];
      OneshotFiresOnFirstAnswer(cbs, callback, front);
      var d := Absorb(all, front);
      if x.Ok? {
        var d2 := Arrive(d.callbacks, x.value);
        CallsToAppend(d.calls, d2.calls, callback);
        if FirstOk(front).Some? {
          ArriveNotSubscribed(d.callbacks, x.value, callback);
        } else {
          OneshotFirstArrival(cbs, callback, x.value);
        }
      }
    }
  }

  /** A defined answer runs every plain `register` subscription twice:
      once directly and once more through `onupdate` (core.js:43-45). */
  lemma DefinedAnswerFiresTwice(cbs: seq<Entry>, v: JsValue)
    requires !Nullish(v)
    requires forall i :: 0 <= i < |cbs| ==> !cbs[i].once
    ensures Arrive(cbs, v).calls == Invoked(cbs, Val(v)) + Invoked(cbs, Val(v))
    ensures |Arrive(cbs, v).calls| == 2 * |cbs|
  {
    DropOnceKeepsPlain(cbs);
    InvokedDefined(cbs, Val(v));
  }

  /** A callback id that no subscription in the list uses. */
  function FreshCallback(cbs: seq<Entry>): (r: JsValue)
    ensures r.Func? && NotSubscribed(cbs, r)
  {
    Func(MaxId(cbs) + 1)
  }

  function MaxId(cbs: seq<Entry>): (m: nat)
    ensures forall i :: 0 <= i < |cbs| && cbs[i].callback.Func? ==> cbs[i].callback.id <= m
  {
    if cbs == [] then 0
    else
      var m := MaxId(cbs[..|cbs| - 1]);
      var c := cbs[|cbs| - 1].callback;
      if c.Func? && c.id > m then c.id else m
  }

  /** The meta a new resource starts with (core.js:14-21): the given object,
      or a fresh one when none was given, tagged with the type name. */
  function InitialMeta(meta: JsValue, typename: string): JsValue {
    Obj(FieldsOf(meta)["__type" := Str(typename)])
  }

  /** `pack` (core.js:152-158): the envelope carrying name, meta and value. */
  function Pack(name: string, meta: JsValue, v: JsValue): JsValue {
    Obj(map["name" := Str(name), "meta" := meta, "value" := v])
  }

  /** What `unpack` hands back: the meta it installs on the resource, if any, and the value. */
  datatype Unpacked = Unpacked(meta: Option<JsValue>, value: JsValue)

  /** `unpack` (core.js:159-168). */
  function Unpack(packed: JsValue): Result<Unpacked> {
    if packed.Null? then Ok(Unpacked(None, Null))
    else if TypeOf(packed) != "object" then Err("packed must be object")
    else Ok(Unpacked(Some(GetProp(packed, "meta").value), GetProp(packed, "value").value))
  }

  /** Unpacking what `pack` built gives back the value and the meta it captured. */
  lemma UnpackPack(name: string, meta: JsValue, v: JsValue)
    ensures Unpack(Pack(name, meta, v)) == Ok(Unpacked(Some(meta), v))
  {
  }

  /** `unpack(null)` is null and touches no meta; any other non-object is refused. */
  lemma UnpackEdges(packed: JsValue)
    ensures packed.Null? ==> Unpack(packed) == Ok(Unpacked(None, Null))
    ensures !packed.Null? && !packed.Obj? && !packed.Arr? ==> Unpack(packed).Err?
  {
  }

  /** The identity hooks a subclass may override (core.js:169-180). */
  function Marshal(v: JsValue): JsValue { v }
  function Unmarshal(v: JsValue): JsValue { v }
  function Prestore(v: JsValue): JsValue { v }
  function Poststore(v: JsValue): JsValue { v }

  /** core.js:109: `typeof this.meta['__type'] === undefined` compares a type
      name with the value undefined, so only the property read itself can fail. */
  function MetaTypeCheck(meta: JsValue): Outcome {
    match GetProp(meta, "__type")
    case Err(e) => Fail(e)
    case Ok(t) => if Str(TypeOf(t)) == Undefined then Fail("update requires meta to contain __type") else Pass
  }

  /** The `__type` check never refuses an update: it fails only where reading meta throws. */
  lemma MetaTypeCheckNeverFires(meta: JsValue)
    ensures MetaTypeCheck(meta).Fail? <==> Nullish(meta)
  {
  }

  lemma AppendAssociative<T>(a: seq<T>, b: seq<T>, c: seq<T>)
    ensures (a + b) + c == a + (b + c)
  {
    assert |(a + b) + c| == |a + (b + c)|;
    forall k | 0 <= k < |a + (b + c)|
      ensures ((a + b) + c)[k] == (a + (b + c))[k]
    {
    }
  }

  /** One more entry of the list: its call, if it fires, and its position,
      if it is `once`, come last. */
  lemma CallbacksStep(cbs: seq<Entry>, i: nat, a: Arg)
    requires i < |cbs|
    ensures Invoked(cbs[..i + 1], a) == Invoked(cbs[..i], a) + (if Fires(cbs[i], a) then [Call(cbs[i].callback, a)] else [])
    ensures OnceIndices(cbs[..i + 1]) == OnceIndices(cbs[..i]) + (if cbs[i].once then [i] else [])
  {
    assert cbs[..i + 1][..i] == cbs[..i];
  }

  /** The state a resource is in once the handlers of `answers` have run,
      starting from callbacks `c0`, trace `t0` and value `v0`. */
  ghost predicate Absorbed(c0: seq<Entry>, t0: seq<Call>, v0: JsValue, answers: seq<Result<JsValue>>,
                           c: seq<Entry>, t: seq<Call>, v: JsValue) {
    && t == t0 + Absorb(c0, answers).calls
    && c == Absorb(c0, answers).callbacks
    && v == LastDefined(answers, v0)
  }

  /** What one answer's handler does to callbacks, trace and value. */
  ghost predicate AnswerHandled(x: Result<JsValue>, c: seq<Entry>, t: seq<Call>, v: JsValue,
                          c': seq<Entry>, t': seq<Call>, v': JsValue) {
    if x.Err? then c' == c && t' == t && v' == v
    else
      && t' == t + Arrive(c, x.value).calls
      && c' == Arrive(c, x.value).callbacks
      && v' == if Nullish(x.value) then v else x.value
  }

  /** Handling one more answer extends the absorbed prefix by that answer. */
  lemma AbsorbedStep(c0: seq<Entry>, t0: seq<Call>, v0: JsValue, answers: seq<Result<JsValue>>, i: nat,
                     c: seq<Entry>, t: seq<Call>, v: JsValue, c': seq<Entry>, t': seq<Call>, v': JsValue)
    requires i < |answers|
    requires Absorbed(c0, t0, v0, answers[..i], c, t, v)
    requires AnswerHandled(answers[i], c, t, v, c', t', v')
    ensures Absorbed(c0, t0, v0, answers[..i + 1], c', t', v')
  {
    var p := answers[..i + 1];
    assert p[..|p| - 1] == answers[..i] && p[|p| - 1] == answers[i];
    var d := Absorb(c0, answers[..i]);
    assert LastDefined(p, v0) == if answers[i].Ok? && !Nullish(answers[i].value) then answers[i].value
                                 else LastDefined(answers[..i], v0);
    if answers[i].Ok? {
      var d2 := Arrive(d.callbacks, answers[i].value);
      assert Absorb(c0, p) == Dispatch(d.calls + d2.calls, d2.callbacks);
      assert t' == (t0 + d.calls) + d2.calls;
      AppendAssociative(t0, d.calls, d2.calls);
    } else {
      assert Absorb(c0, p) == d;
    }
  }

  class Resource {
    var name: string
    var meta: JsValue
    var value: JsValue
    /** The backends the resource is bound to (shared, not owned). */
    const syncs: seq<JsValue>
    var callbacks: seq<Entry>
    /** Every callback invocation so far, oldest first. */
    var trace: seq<Call>

    /** core.js:2-30; the name and type name are strings and the backend list
        an array by typing. Meta may not be null: the constructor would throw
        writing `__type` into it. */
    constructor (syncs: seq<JsValue>, name: string, typename: string, meta: JsValue, value: JsValue)
      requires !meta.Null? && !meta.Arr?
      ensures this.syncs == syncs && this.name == name && this.value == value
      ensures this.meta == InitialMeta(meta, typename)
      ensures callbacks == [] && trace == []
    {
      this.syncs := syncs;
      this.name := name;
      this.meta := InitialMeta(meta, typename);
      this.value := value;
      callbacks := [];
      trace := [];
    }

    method Subscribe(callback: JsValue, once: bool, empty: bool) returns (o: Outcome)
      modifies this`callbacks
      ensures callback.Func? ==> o == Pass && callbacks == old(callbacks) + [Entry(callback, once, empty)]
      ensures !callback.Func? ==> o.Fail? && callbacks == old(callbacks)
    {
      if !callback.Func? {
        return Fail("callback must be function");
      }
      callbacks := callbacks + [Entry(callback, once, empty)];
      o := Pass;
    }

    /** core.js:51-60 */
    method OnEmpty(callback: JsValue) returns (o: Outcome)
      modifies this`callbacks
      ensures callback.Func? ==> o == Pass && callbacks == old(callbacks) + [Entry(callback, false, true)]
      ensures !callback.Func? ==> o.Fail? && callbacks == old(callbacks)
    {
      o := Subscribe(callback, false, true);
    }

    /** core.js:61-69 */
    method Register(callback: JsValue) returns (o: Outcome)
      modifies this`callbacks
      ensures callback.Func? ==> o == Pass && callbacks == old(callbacks) + [Entry(callback, false, false)]
      ensures !callback.Func? ==> o.Fail? && callbacks == old(callbacks)
    {
      o := Subscribe(callback, false, false);
    }

    /** core.js:70-78 */
    method Oneshot(callback: JsValue) returns (o: Outcome)
      modifies this`callbacks
      ensures callback.Func? ==> o == Pass && callbacks == old(callbacks) + [Entry(callback, true, false)]
      ensures !callback.Func? ==> o.Fail? && callbacks == old(callbacks)
    {
      o := Subscribe(callback, true, false);
    }

    /** core.js:79-92: removes the last entry with this very callback, if any. */
    method Unregister(callback: JsValue) returns (o: Outcome)
      modifies this`callbacks
      ensures !callback.Func? ==> o.Fail? && callbacks == old(callbacks)
      ensures callback.Func? ==> o == Pass
      ensures callback.Func? && NotSubscribed(old(callbacks), callback) ==> callbacks == old(callbacks)
      ensures callback.Func? && !NotSubscribed(old(callbacks), callback) ==>
                callbacks == RemoveAt(old(callbacks), LastMatch(old(callbacks), callback))
    {
      if !callback.Func? {
        return Fail("callback must be function");
      }
      var remove := -1;
      var i := 0;
      while i < |callbacks|
        invariant 0 <= i <= |callbacks|
        invariant remove == LastMatch(callbacks[..i], callback)
      {
        assert callbacks[..i + 1][..i] == callbacks[..i];
        if callbacks[i].callback == callback {
          remove := i;
        }
        i := i + 1;
      }
      assert callbacks[..i] == callbacks;
      if remove != -1 {
        callbacks := RemoveAt(callbacks, remove);
      }
      o := Pass;
    }

    /** core.js:135-151, with the removal corrected to run from the highest
        collected position down (see `SpliceInOrder` for the code as written).
        Callbacks are foreign code: their invocations are recorded in `trace`. */
    method RunCallbacks(a: Arg)
      modifies this`callbacks, this`trace
      ensures trace == old(trace) + Invoked(old(callbacks), a)
      ensures callbacks == DropOnce(old(callbacks))
    {
      var cbs := callbacks;
      ghost var t0 := trace;
      var remove: seq<nat> := [];
      var i := 0;
      while i < |cbs|
        invariant 0 <= i <= |cbs|
        invariant trace == t0 + Invoked(cbs[..i], a)
        invariant remove == OnceIndices(cbs[..i])
      {
        CallbacksStep(cbs, i, a);
        if Fires(cbs[i], a) {
          AppendAssociative(t0, Invoked(cbs[..i], a), [Call(cbs[i].callback, a)]);
          trace := trace + [Call(cbs[i].callback, a)];
        }
        if cbs[i].once {
          remove := remove + [i];
        }
        i := i + 1;
      }
      assert cbs[..i] == cbs;
      var left := SpliceOut(cbs, remove);
      callbacks := left;
      SpliceFromTopDropsOnce(cbs);
    }

    /** core.js:148-150 corrected: splices the collected positions out, highest first. */
    static method SpliceOut(s: seq<Entry>, idxs: seq<nat>) returns (r: seq<Entry>)
      ensures r == SpliceFromTop(s, idxs)
    {
      r := s;
      var k := |idxs|;
      assert idxs[..k] == idxs;
      while k > 0
        invariant 0 <= k <= |idxs|
        invariant SpliceFromTop(r, idxs[..k]) == SpliceFromTop(s, idxs)
      {
        assert idxs[..k][..k - 1] == idxs[..k - 1];
        r := RemoveAt(r, idxs[k - 1]);
        k := k - 1;
      }
      assert idxs[..0] == [];
    }

    /** core.js:124-131; `validateupdate` accepts every value. */
    method OnUpdate(v: JsValue) returns (r: JsValue)
      modifies this`value, this`callbacks, this`trace
      ensures r == v && value == v
      ensures trace == old(trace) + Invoked(old(callbacks), Val(v))
      ensures callbacks == DropOnce(old(callbacks))
    {
      value := v;
      RunCallbacks(Val(v));
      r := v;
    }

    /** The handler of one backend's answer (core.js:41-47). */
    method Arrival(v: JsValue)
      modifies this`value, this`callbacks, this`trace
      ensures trace == old(trace) + Arrive(old(callbacks), v).calls
      ensures callbacks == Arrive(old(callbacks), v).callbacks
      ensures value == if Nullish(v) then old(value) else v
    {
      // The direct dispatch runs first; `onupdate` stores the value in a later step.
      RunCallbacks(Val(v));
      if !Nullish(v) {
        var _ := OnUpdate(v);
      }
    }

    /** The handler one backend's answer runs: a rejection runs nothing. */
    method Handle(x: Result<JsValue>)
      modifies this`value, this`callbacks, this`trace
      ensures AnswerHandled(x, old(callbacks), old(trace), old(value), callbacks, trace, value)
    {
      if x.Ok? {
        Arrival(x.value);
      }
    }

    /** `_syncget` (core.js:37-50): the answers of the chosen backends, each
        handled as it arrives; the result is what `Promise.all` settles to. */
    method SyncGet(answers: seq<Result<JsValue>>) returns (r: Result<seq<JsValue>>)
      modifies this`value, this`callbacks, this`trace
      ensures trace == old(trace) + Absorb(old(callbacks), answers).calls
      ensures callbacks == Absorb(old(callbacks), answers).callbacks
      ensures value == LastDefined(answers, old(value))
      ensures r == Gather(answers)
    {
      ghost var c0, t0, v0 := callbacks, trace, value;
      var i := 0;
      assert answers[..0] == [];
      while i < |answers|
        invariant 0 <= i <= |answers|
        invariant Absorbed(c0, t0, v0, answers[..i], callbacks, trace, value)
      {
        ghost var c, t, v := callbacks, trace, value;
        Handle(answers[i]);
        AbsorbedStep(c0, t0, v0, answers, i, c, t, v, callbacks, trace, value);
        i := i + 1;
      }
      assert answers[..i] == answers;
      // `Promise.all` settles once every handler has run.
      r := Gather(answers);
    }

    /** core.js:102-104: one answer per bound backend. */
    method Query(answers: seq<Result<JsValue>>) returns (r: Result<seq<JsValue>>)
      requires |answers| == |syncs|
      modifies this`value, this`callbacks, this`trace
      ensures trace == old(trace) + Absorb(old(callbacks), answers).calls
      ensures callbacks == Absorb(old(callbacks), answers).callbacks
      ensures value == LastDefined(answers, old(value))
      ensures r == Gather(answers)
    {
      r := SyncGet(answers);
    }

    /** core.js:93-101: only the first backend is asked; with none bound the answer is null. */
    method QueryPrimary(answers: seq<Result<JsValue>>) returns (r: Result<JsValue>)
      requires |answers| == if syncs == [] then 0 else 1
      modifies this`value, this`callbacks, this`trace
      ensures trace == old(trace) + Absorb(old(callbacks), answers).calls
      ensures callbacks == Absorb(old(callbacks), answers).callbacks
      ensures value == LastDefined(answers, old(value))
      ensures syncs == [] ==> r == Ok(Null)
      ensures syncs != [] ==> r == if answers[0].Ok? then Ok(answers[0].value) else Err(answers[0].error)
    {
      var all := SyncGet(answers);
      if all.Err? {
        return Err(all.error);
      }
      assert answers == [] || answers == answers[..0] + [answers[0]];
      r := if |all.value| > 0 then Ok(all.value[0]) else Ok(Null);
    }

    /** `update`/`_update` (core.js:105-123). `winner` is how the first backend
        `set` to settle settled, or None if none ever does; with no backend
        bound the race never settles. */
    method Update(v: JsValue, winner: Option<Result<JsValue>>) returns (s: Settlement<Resource>)
      modifies this`value, this`callbacks, this`trace
      ensures v.Undefined? ==> s.Settled? && s.result.Err? && unchanged(this)
      ensures !v.Undefined? && Nullish(old(meta)) ==> s.Settled? && s.result.Err? && unchanged(this)
      ensures !v.Undefined? && !Nullish(old(meta)) && (syncs == [] || winner.None?) ==>
                s == NeverSettles && unchanged(this)
      ensures !v.Undefined? && !Nullish(old(meta)) && syncs != [] && winner.Some? && winner.value.Err? ==>
                s == Settled(Err(winner.value.error)) && unchanged(this)
      ensures !v.Undefined? && !Nullish(old(meta)) && syncs != [] && winner.Some? && winner.value.Ok? ==>
                && s == Settled(Ok(this)) && value == v
                && trace == old(trace) + Invoked(old(callbacks), Val(v))
                && callbacks == DropOnce(old(callbacks))
    {
      if v.Undefined? {
        return Settled(Err("update requires value"));
      }
      var check := MetaTypeCheck(meta);
      if check.Fail? {
        MetaTypeCheckNeverFires(meta);
        return Settled(Err(check.error));
      }
      MetaTypeCheckNeverFires(meta);
      if syncs == [] || winner.None? {
        return NeverSettles;
      }
      if winner.value.Err? {
        return Settled(Err(winner.value.error));
      }
      value := v;
      RunCallbacks(Val(v));
      s := Settled(Ok(this));
    }
  }
}
