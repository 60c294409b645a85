/** `Dict` (core.js:306-399): a resource whose value is a list of keys, each
    naming a child resource that is created and queried the first time it is
    needed and then kept in `subvalue`. */
module Dicts {
  import opened JsValues
  import opened Resources

  /** What the `Resource` constructor throws for a name that is not a
      string (core.js:9-10). */
  const NameNotString := "name must be a string"

  ghost predicate Distinct(s: seq<JsValue>) {
    forall i, j :: 0 <= i < j < |s| ==> s[i] != s[j]
  }

  /** `Array.from(new Set(keys))`: the first occurrence of every key, in the
      order the keys were first seen. */
  function Dedup(s: seq<JsValue>): (r: seq<JsValue>)
    ensures forall x :: x in r <==> x in s
    ensures Distinct(r)
  {
    if s == [] then []
    else
      var front := s[..|s| - 1];
      var x := s[|s| - 1];
      assert s == front + [x];
      if x in front then Dedup(front) else Dedup(front) + [x]
  }

  /** A list without repeats is its own de-duplication. */
  lemma {:induction false} DedupOfDistinct(s: seq<JsValue>)
    requires Distinct(s)
    ensures Dedup(s) == s
  {
    if s != [] {
      var front := s[..|s| - 1];
      assert Distinct(front);
      DedupOfDistinct(front);
      assert s[|s| - 1] !in front;
      assert s == front + [s[|s| - 1]];
    }
  }

  /** Appending a key that is already listed changes nothing. */
  lemma DedupAppendPresent(s: seq<JsValue>, x: JsValue)
    requires x in s
    ensures Dedup(s + [x]) == Dedup(s)
  {
    assert (s + [x])[..|s|] == s;
  }

  /** Appending a new key puts it last. */
  lemma DedupAppendAbsent(s: seq<JsValue>, x: JsValue)
    requires x !in s
    ensures Dedup(s + [x]) == Dedup(s) + [x]
  {
    assert (s + [x])[..|s|] == s;
  }

  /** Adding the same key twice lists it exactly once, and the second add
      leaves the list as the first one left it. */
  lemma AddTwiceListsOnce(s: seq<JsValue>, x: JsValue)
    ensures var once := Dedup(s + [x]);
            Dedup(once + [x]) == once && x in once && Distinct(once)
  {
    var once := Dedup(s + [x]);
    DedupOfDistinct(once);
    DedupAppendPresent(once, x);
  }

  /** `indexOf`: the first position of `x`, or -1. */
  function IndexOf(s: seq<JsValue>, x: JsValue): (r: int)
    ensures -1 <= r < |s|
    ensures r == -1 <==> x !in s
    ensures r >= 0 ==> s[r] == x && x !in s[..r]
  {
    if s == [] then -1
    else if s[0] == x then 0
    else
      var k := IndexOf(s[1..], x);
      if k == -1 then -1 else k + 1
  }

  /** The elements of a list with position i spliced out, by position. */
  lemma RemoveAtShifts(s: seq<JsValue>, i: nat)
    requires i < |s|
    ensures |RemoveAt(s, i)| == |s| - 1
    ensures forall j :: 0 <= j < i ==> RemoveAt(s, i)[j] == s[j]
    ensures forall j :: i <= j < |s| - 1 ==> RemoveAt(s, i)[j] == s[j + 1]
  {
  }

  /** Removing a key from a list without repeats drops exactly that key,
      keeps every other key, and leaves no repeats. */
  lemma RemoveFromDistinct(s: seq<JsValue>, x: JsValue)
    requires Distinct(s) && x in s
    ensures var r := RemoveAt(s, IndexOf(s, x));
            && x !in r && Distinct(r) && Dedup(r) == r
            && (forall y :: y in r <==> y in s && y != x)
  {
    var i := IndexOf(s, x);
    var r := RemoveAt(s, i);
    RemoveAtShifts(s, i);
    assert Distinct(r) by {
      forall j, k | 0 <= j < k < |r| ensures r[j] != r[k] {
        var j' := if j < i then j else j + 1;
        var k' := if k < i then k else k + 1;
        assert r[j] == s[j'] && r[k] == s[k'] && j' < k';
      }
    }
    forall y | y in r ensures y in s && y != x {
      var k :| 0 <= k < |r| && r[k] == y;
      var k' := if k < i then k else k + 1;
      assert s[k'] == y && k' != i;
    }
    forall y | y in s && y != x ensures y in r {
      var k :| 0 <= k < |s| && s[k] == y;
      if k < i { assert r[k] == y; } else { assert r[k - 1] == y; }
    }
    DedupOfDistinct(r);
  }

  /** Whether `p` occurs in `s` at position i. */
  predicate OccursAt(s: string, p: string, i: int) {
    0 <= i && i + |p| <= |s| && s[i..i + |p|] == p
  }

  /** `String.prototype.indexOf`: the first position at which `p` occurs in `s`, or -1. */
  function TextIndexOf(s: string, p: string): (r: int)
    ensures -1 <= r <= |s|
    ensures r >= 0 ==> OccursAt(s, p, r) && forall i :: 0 <= i < r ==> !OccursAt(s, p, i)
    ensures r == -1 <==> forall i :: !OccursAt(s, p, i)
    decreases |s|
  {
    if |s| < |p| then -1
    else if s[..|p|] == p then 0
    else
      var k := TextIndexOf(s[1..], p);
      assert forall i :: 1 <= i ==> (OccursAt(s, p, i) <==> OccursAt(s[1..], p, i - 1));
      if k == -1 then -1 else k + 1
  }

  /** `value.indexOf(key)` (core.js:370): an array is searched for the key
      itself, a string for the key's text; any other value has no `indexOf`
      and the call throws. */
  function ValueIndexOf(value: JsValue, key: JsValue): (r: Result<int>)
    ensures r.Ok? <==> value.Arr? || value.Str?
    ensures value.Arr? ==> r == Ok(IndexOf(value.items, key))
    ensures value.Str? ==> r == Ok(TextIndexOf(value.s, ToString(key)))
  {
    match value
    case Arr(items) => Ok(IndexOf(items, key))
    case Str(text) => Ok(TextIndexOf(text, ToString(key)))
    case Undefined => Err("TypeError: cannot read properties of undefined")
    case Null => Err("TypeError: cannot read properties of null")
    case _ => Err("TypeError: value.indexOf is not a function")
  }

  /** `key.length < 1` (core.js:361, 371): a string or an array compares its
      length; an object its numeric `length` field; a function its arity,
      taken as 0; any other value has no length, and `undefined < 1` is
      false. Reading the length of null or undefined throws. */
  function LengthBelowOne(key: JsValue): (r: Result<bool>)
    ensures r.Err? <==> Nullish(key)
    ensures key.Str? ==> r == Ok(|key.s| < 1)
    ensures key.Num? || key.Bool? ==> r == Ok(false)
  {
    match key
    case Undefined => Err("TypeError: cannot read properties of undefined")
    case Null => Err("TypeError: cannot read properties of null")
    case Str(text) => Ok(|text| < 1)
    case Arr(items) => Ok(|items| < 1)
    case Obj(fields) => Ok("length" in fields && fields["length"].Num? && fields["length"].n < 1)
    case Func(_) => Ok(true)
    case _ => Ok(false)
  }

  /** Every listed key loads: it is cached in `cache0`, or it is a string
      whose child's query gets no rejection. */
  predicate AllLoad(keys: seq<JsValue>, cache0: map<string, Resource>, answersFor: string -> seq<Result<JsValue>>) {
    forall key :: key in keys && ToString(key) !in cache0 ==> key.Str? && Gather(answersFor(key.s)).Ok?
  }

  class Dict {
    /** The resource part: name, meta, value (the key list), subscriptions. */
    const res: Resource
    /** The type name of the children `createSubvalue` makes. */
    const childType: string
    var subvalue: map<string, Resource>

    /** core.js:307-314: `typeof` never yields 'array', so the key list always
        starts empty whatever value was given. */
    constructor (syncs: seq<JsValue>, name: string, typename: string, childType: string, meta: JsValue, value: JsValue)
      requires !meta.Null? && !meta.Arr?
      ensures fresh(res)
      ensures res.syncs == syncs && res.name == name && res.meta == InitialMeta(meta, typename)
      ensures res.value == Arr([]) && res.callbacks == [] && res.trace == []
      ensures this.childType == childType && subvalue == map[]
    {
      var r := new Resource(syncs, name, typename, meta, value);
      r.value := Arr([]);
      res := r;
      this.childType := childType;
      subvalue := map[];
    }

    /** The listed keys; a value that is not an array lists none. */
    function Keys(): seq<JsValue>
      reads res
    {
      if res.value.Arr? then res.value.items else []
    }

    /** core.js:357-359 */
    function Contains(key: JsValue): bool
      reads res
    {
      key in Keys()
    }

    /** Whether `update` gets past the race: meta readable, a backend bound,
        and the first backend to settle accepted the value. */
    predicate Commits(winner: Option<Result<JsValue>>)
      reads res
    {
      !Nullish(res.meta) && res.syncs != [] && winner.Some? && winner.value.Ok?
    }

    /** The child `_load_subvalue` makes for key `k` (core.js:387-391,
        396-398): named after the key, bound to the dictionary's backends,
        of the child type with a fresh meta, and holding the last defined
        answer its query got. */
    predicate LoadedChild(k: string, child: Resource, answers: seq<Result<JsValue>>)
      reads child
    {
      && child.name == k && child.syncs == res.syncs
      && child.meta == InitialMeta(Undefined, childType)
      && child.value == LastDefined(answers, Undefined)
    }

    /** Every child in `cache` that is not in `cache0` is the one made for its key. */
    predicate ChildrenLoaded(cache: map<string, Resource>, cache0: map<string, Resource>,
                             answersFor: string -> seq<Result<JsValue>>)
      reads cache.Values
    {
      forall k :: k in cache && k !in cache0 ==> LoadedChild(k, cache[k], answersFor(k))
    }

    /** How a committed update settles once `loadSubvalue` has run over
        `keys`, given the cache before the loads: cached children are kept
        and new ones are the children made for listed keys; the result is
        this dictionary whenever every key loads, with every key cached; a
        failure names a key that was not cached, and an uncached key that is
        not a string makes it the constructor's throw. */
    predicate LoadsSettled(keys: seq<JsValue>, cached: map<string, Resource>,
                           answersFor: string -> seq<Result<JsValue>>, s: Settlement<Dict>)
      reads this, subvalue.Values
    {
      && s.Settled?
      && (forall k :: k in cached ==> k in subvalue && subvalue[k] == cached[k])
      && (forall k :: k in subvalue && k !in cached ==> Str(k) in keys)
      && ChildrenLoaded(subvalue, cached, answersFor)
      && (s.result.Ok? ==> s.result.value == this && forall key :: key in keys ==> ToString(key) in subvalue)
      && (AllLoad(keys, cached, answersFor) ==> s == Settled(Ok(this)))
      && ((forall key :: key in keys ==> ToString(key) in cached) ==> s == Settled(Ok(this)) && subvalue == cached)
      && (s.result.Err? ==> exists key :: key in keys && ToString(key) !in cached)
      && ((exists key :: key in keys && !key.Str? && ToString(key) !in subvalue) ==> s == Settled(Err(NameNotString)))
    }

    /** `_load_subvalue` (core.js:382-395): a cached child, or a new child
        made for a listed key and kept once its query settles; a key that is
        neither cached nor listed is refused. The child's constructor throws
        on a name that is not a string (core.js:396-398); `threw` says so. */
    method LoadSubvalueOf(key: JsValue, answers: seq<Result<JsValue>>) returns (r: Result<Resource>, threw: bool)
      requires |answers| == |res.syncs|
      modifies this`subvalue
      ensures threw <==> ToString(key) !in old(subvalue) && key in Keys() && !key.Str?
      ensures threw ==> r == Err(NameNotString) && subvalue == old(subvalue)
      ensures ToString(key) in old(subvalue) ==> r == Ok(old(subvalue)[ToString(key)]) && subvalue == old(subvalue)
      ensures ToString(key) !in old(subvalue) && (key !in Keys() || !key.Str? || Gather(answers).Err?) ==>
                r.Err? && subvalue == old(subvalue)
      ensures ToString(key) !in old(subvalue) && key in Keys() && key.Str? && Gather(answers).Ok? ==>
                && r.Ok? && fresh(r.value) && subvalue == old(subvalue)[key.s := r.value]
                && LoadedChild(key.s, r.value, answers)
    {
      threw := false;
      if ToString(key) in subvalue {
        return Ok(subvalue[ToString(key)]), threw;
      }
      if key !in Keys() {
        return Err("not subvalues"), threw;
      }
      if !key.Str? {
        return Err(NameNotString), true;
      }
      var child := new Resource(res.syncs, key.s, childType, Undefined, Undefined);
      var q := child.Query(answers);
      if q.Err? {
        return Err(q.error), threw;
      }
      subvalue := subvalue[key.s := child];
      r := Ok(child);
    }

    /** How `loadSubvalue` settles, as the settlement `update` passes on. */
    function Settles(r: Result<map<string, Resource>>): Settlement<Dict> {
      if r.Ok? then Settled(Ok(this)) else Settled(Err(r.error))
    }

    /** `loadSubvalue` (core.js:315-323): loads every listed key in order and
        settles to the cache, or to a failure, as `LoadsSettled` states. A
        key whose child cannot be made throws out of the loop: no later key
        is loaded, and that throw is the result. */
    method LoadSubvalue(answersFor: string -> seq<Result<JsValue>>) returns (r: Result<map<string, Resource>>)
      requires forall k :: |answersFor(k)| == |res.syncs|
      modifies this`subvalue
      ensures r.Ok? ==> r.value == subvalue
      ensures forall k :: k in subvalue && k !in old(subvalue) ==> fresh(subvalue[k])
      ensures LoadsSettled(Keys(), old(subvalue), answersFor, Settles(r))
      ensures (exists key :: key in Keys() && !key.Str? && ToString(key) !in subvalue) ==>
                exists i :: 0 <= i < |Keys()| && !Keys()[i].Str? && ToString(Keys()[i]) !in subvalue
                  && forall k :: k in subvalue && k !in old(subvalue) ==> Str(k) in Keys()[..i]
    {
      var keys := Keys();
      ghost var cache0 := subvalue;
      var failure: Option<string> := None;
      var i := 0;
      while i < |keys|
        invariant 0 <= i <= |keys| && keys == Keys()
        invariant forall k :: k in subvalue && k !in old(subvalue) ==> fresh(subvalue[k])
        invariant LoadedUpTo(subvalue, keys, i, cache0, failure, answersFor)
        invariant ChildrenLoaded(subvalue, cache0, answersFor)
      {
        var threw;
        failure, threw := LoadKey(keys, i, cache0, failure, answersFor);
        if threw {
          LoadThrew(keys, i, cache0, failure, answersFor);
          return Err(NameNotString);
        }
        i := i + 1;
      }
      LoadFinished(keys, cache0, failure, answersFor);
      if failure.Some? {
        return Err(failure.value);
      }
      r := Ok(subvalue);
    }

    /** The loop ran over every key: it settles to this dictionary, or to
        the first failure. */
    lemma LoadFinished(keys: seq<JsValue>, cache0: map<string, Resource>, failure: Option<string>,
                       answersFor: string -> seq<Result<JsValue>>)
      requires LoadedUpTo(subvalue, keys, |keys|, cache0, failure, answersFor)
      requires ChildrenLoaded(subvalue, cache0, answersFor)
      ensures LoadsSettled(keys, cache0, answersFor, if failure.None? then Settled(Ok(this)) else Settled(Err(failure.value)))
      ensures forall key :: key in keys ==> key.Str? || ToString(key) in subvalue
    {
      assert keys[..|keys|] == keys;
    }

    /** Key i threw: the loop stops there with the constructor's throw, and
        the children cached so far belong to the keys before it. */
    lemma LoadThrew(keys: seq<JsValue>, i: nat, cache0: map<string, Resource>, failure: Option<string>,
                    answersFor: string -> seq<Result<JsValue>>)
      requires i < |keys| && !keys[i].Str? && ToString(keys[i]) !in subvalue
      requires LoadedUpTo(subvalue, keys, i, cache0, failure, answersFor)
      requires ChildrenLoaded(subvalue, cache0, answersFor)
      ensures LoadsSettled(keys, cache0, answersFor, Settled(Err(NameNotString)))
      ensures forall k :: k in subvalue && k !in cache0 ==> Str(k) in keys[..i]
    {
      assert keys[i] in keys;
    }

    /** The state of the `loadSubvalue` loop once the first i keys are
        passed, against the cache `cache0` it started from. */
    ghost predicate LoadedUpTo(cache: map<string, Resource>, keys: seq<JsValue>, i: nat, cache0: map<string, Resource>,
                               failure: Option<string>, answersFor: string -> seq<Result<JsValue>>)
    {
      && i <= |keys|
      && Kept(cache, cache0)
      && FromKeys(cache, cache0, keys, i)
      && Covered(cache, keys, i, failure)
      && FailureNamed(keys, cache0, failure, answersFor)
      && Untouched(cache, keys, cache0, failure)
    }

    /** Every child in `cache0` is still cached under its name. */
    ghost predicate Kept(cache: map<string, Resource>, cache0: map<string, Resource>) {
      forall k :: k in cache0 ==> k in cache && cache[k] == cache0[k]
    }

    /** Every child cached since `cache0` is for one of the first i keys. */
    ghost predicate FromKeys(cache: map<string, Resource>, cache0: map<string, Resource>, keys: seq<JsValue>, i: nat)
      requires i <= |keys|
    {
      forall k :: k in cache && k !in cache0 ==> Str(k) in keys[..i]
    }

    /** Each of the first i keys is cached, unless it is a string and a
        failure is pending. */
    ghost predicate Covered(cache: map<string, Resource>, keys: seq<JsValue>, i: nat, failure: Option<string>)
      requires i <= |keys|
    {
      forall j :: 0 <= j < i ==> ToString(keys[j]) in cache || (keys[j].Str? && failure.Some?)
    }

    /** A pending failure names a key that was not cached, and there is none
        while every key loads. */
    ghost predicate FailureNamed(keys: seq<JsValue>, cache0: map<string, Resource>, failure: Option<string>,
                                 answersFor: string -> seq<Result<JsValue>>)
    {
      && (AllLoad(keys, cache0, answersFor) ==> failure.None?)
      && (failure.Some? ==> exists key :: key in keys && ToString(key) !in cache0)
    }

    /** With every key cached at the start, nothing has changed. */
    ghost predicate Untouched(cache: map<string, Resource>, keys: seq<JsValue>, cache0: map<string, Resource>,
                              failure: Option<string>)
    {
      (forall key :: key in keys ==> ToString(key) in cache0) ==> failure.None? && cache == cache0
    }

    /** One pass of the `loadSubvalue` loop: key i is loaded, a first failure
        is kept, and a throw is reported, which leaves the cache alone. */
    method LoadKey(keys: seq<JsValue>, i: nat, ghost cache0: map<string, Resource>, failure: Option<string>,
                   answersFor: string -> seq<Result<JsValue>>)
      returns (failure': Option<string>, threw: bool)
      requires i < |keys| && keys == Keys()
      requires forall k :: |answersFor(k)| == |res.syncs|
      requires LoadedUpTo(subvalue, keys, i, cache0, failure, answersFor)
      requires ChildrenLoaded(subvalue, cache0, answersFor)
      modifies this`subvalue
      ensures forall k :: k in old(subvalue) ==> k in subvalue && subvalue[k] == old(subvalue)[k]
      ensures forall k :: k in subvalue && k !in old(subvalue) ==> fresh(subvalue[k])
      ensures threw <==> !keys[i].Str? && ToString(keys[i]) !in old(subvalue)
      ensures threw ==> subvalue == old(subvalue)
      ensures !threw ==> LoadedUpTo(subvalue, keys, i + 1, cache0, failure', answersFor)
      ensures ChildrenLoaded(subvalue, cache0, answersFor)
      ensures failure.Some? ==> failure' == failure
    {
      ghost var before := subvalue;
      var loaded;
      loaded, threw := LoadSubvalueOf(keys[i], answersFor(ToString(keys[i])));
      failure' := if loaded.Err? && failure.None? then Some(loaded.error) else failure;
      if !threw {
        if loaded.Ok? && ToString(keys[i]) !in before {
          ChildAdded(before, keys[i].s, loaded.value, cache0, answersFor);
        }
        KeyLoaded(before, subvalue, keys, i, cache0, failure, failure', answersFor);
      }
    }

    /** Key i passed: the cache kept its children and at most gained one
        for key i, which is now cached unless its load failed; a new
        failure means key i was neither cached nor loadable, and a cached
        key i changes nothing. */
    lemma KeyLoaded(before: map<string, Resource>, after: map<string, Resource>, keys: seq<JsValue>, i: nat,
                    cache0: map<string, Resource>, failure: Option<string>, failure': Option<string>,
                    answersFor: string -> seq<Result<JsValue>>)
      requires i < |keys| && LoadedUpTo(before, keys, i, cache0, failure, answersFor)
      requires forall k :: k in before ==> k in after && after[k] == before[k]
      requires forall k :: k in after && k !in before ==> Str(k) == keys[i]
      requires ToString(keys[i]) in after || (keys[i].Str? && failure'.Some?)
      requires failure.Some? ==> failure' == failure
      requires failure.None? && failure'.Some? ==>
                 ToString(keys[i]) !in before && keys[i].Str? && Gather(answersFor(keys[i].s)).Err?
      requires ToString(keys[i]) in before ==> after == before && failure' == failure
      ensures LoadedUpTo(after, keys, i + 1, cache0, failure', answersFor)
    {
      KeptStep(before, after, cache0);
      FromKeysStep(before, after, cache0, keys, i);
      CoveredStep(before, after, keys, i, failure, failure');
      FailureStep(before, keys, i, cache0, failure, failure', answersFor);
      UntouchedStep(before, after, keys, i, cache0, failure, failure');
    }

    /** Children kept across a pass stay kept since the start. */
    lemma KeptStep(before: map<string, Resource>, after: map<string, Resource>, cache0: map<string, Resource>)
      requires Kept(before, cache0)
      requires forall k :: k in before ==> k in after && after[k] == before[k]
      ensures Kept(after, cache0)
    {
    }

    /** A child gained in pass i is for key i. */
    lemma FromKeysStep(before: map<string, Resource>, after: map<string, Resource>, cache0: map<string, Resource>,
                       keys: seq<JsValue>, i: nat)
      requires i < |keys| && FromKeys(before, cache0, keys, i)
      requires forall k :: k in after && k !in before ==> Str(k) == keys[i]
      ensures FromKeys(after, cache0, keys, i + 1)
    {
      assert keys[..i + 1] == keys[..i] + [keys[i]];
    }

    /** Key i is cached after its pass unless it is a string and a failure is pending. */
    lemma CoveredStep(before: map<string, Resource>, after: map<string, Resource>, keys: seq<JsValue>, i: nat,
                      failure: Option<string>, failure': Option<string>)
      requires i < |keys| && Covered(before, keys, i, failure)
      requires forall k :: k in before ==> k in after
      requires ToString(keys[i]) in after || (keys[i].Str? && failure'.Some?)
      requires failure.Some? ==> failure' == failure
      ensures Covered(after, keys, i + 1, failure')
    {
    }

    /** A failure first kept in pass i names key i, which was neither cached nor loadable. */
    lemma FailureStep(before: map<string, Resource>, keys: seq<JsValue>, i: nat, cache0: map<string, Resource>,
                      failure: Option<string>, failure': Option<string>, answersFor: string -> seq<Result<JsValue>>)
      requires i < |keys| && Kept(before, cache0) && FailureNamed(keys, cache0, failure, answersFor)
      requires failure.Some? ==> failure' == failure
      requires failure.None? && failure'.Some? ==>
                 ToString(keys[i]) !in before && keys[i].Str? && Gather(answersFor(keys[i].s)).Err?
      ensures FailureNamed(keys, cache0, failure', answersFor)
    {
      assert keys[i] in keys;
    }

    /** A pass over a key that was cached changes nothing. */
    lemma UntouchedStep(before: map<string, Resource>, after: map<string, Resource>, keys: seq<JsValue>, i: nat,
                        cache0: map<string, Resource>, failure: Option<string>, failure': Option<string>)
      requires i < |keys| && Kept(before, cache0) && Untouched(before, keys, cache0, failure)
      requires ToString(keys[i]) in before ==> after == before && failure' == failure
      ensures Untouched(after, keys, cache0, failure')
    {
      assert keys[i] in keys;
    }

    /** Caching the child made for `k` keeps every new child the one made for its key. */
    lemma ChildAdded(before: map<string, Resource>, k: string, child: Resource, cache0: map<string, Resource>,
                     answersFor: string -> seq<Result<JsValue>>)
      requires ChildrenLoaded(before, cache0, answersFor)
      requires LoadedChild(k, child, answersFor(k))
      ensures ChildrenLoaded(before[k := child], cache0, answersFor)
    {
    }

    /** `update` (core.js:324-334): the list is de-duplicated, the given child
        is cached under its name, and once the resource update settles every
        listed key is loaded. */
    method Update(keys: seq<JsValue>, resource: Option<Resource>, winner: Option<Result<JsValue>>,
                  answersFor: string -> seq<Result<JsValue>>) returns (s: Settlement<Dict>)
      requires forall k :: |answersFor(k)| == |res.syncs|
      modifies this`subvalue, res`value, res`callbacks, res`trace
      ensures var cached := if resource.Some? then old(subvalue)[resource.value.name := resource.value] else old(subvalue);
              && (!Commits(winner) ==>
                    && s != Settled(Ok(this))
                    && (s == NeverSettles <==> !Nullish(res.meta) && (res.syncs == [] || winner.None?))
                    && (Nullish(res.meta) ==> s.Settled? && s.result.Err?)
                    && (!Nullish(res.meta) && res.syncs != [] && winner.Some? && winner.value.Err? ==>
                          s == Settled(Err(winner.value.error)))
                    && res.value == old(res.value) && res.callbacks == old(res.callbacks) && res.trace == old(res.trace)
                    && subvalue == cached)
              && (Commits(winner) ==>
                    && res.value == Arr(Dedup(keys))
                    && res.trace == old(res.trace) + Invoked(old(res.callbacks), Val(Arr(Dedup(keys))))
                    && res.callbacks == DropOnce(old(res.callbacks))
                    && (forall k :: k in subvalue && k !in cached ==> fresh(subvalue[k]))
                    && LoadsSettled(keys, cached, answersFor, s))
    {
      var value := Dedup(keys);
      if resource.Some? {
        subvalue := subvalue[resource.value.name := resource.value];
      }
      ghost var cached := subvalue;
      var u := res.Update(Arr(value), winner);
      if u.NeverSettles? {
        return NeverSettles;
      }
      if u.result.Err? {
        return Settled(Err(u.result.error));
      }
      var l := LoadSubvalue(answersFor);
      s := Settles(l);
      LoadsSettledSameKeys(value, keys, cached, answersFor, s);
    }

    /** `LoadsSettled` depends on the keys only through which keys are listed. */
    lemma LoadsSettledSameKeys(a: seq<JsValue>, b: seq<JsValue>, cached: map<string, Resource>,
                               answersFor: string -> seq<Result<JsValue>>, s: Settlement<Dict>)
      requires forall x :: x in a <==> x in b
      requires LoadsSettled(a, cached, answersFor, s)
      ensures LoadsSettled(b, cached, answersFor, s)
    {
    }

    /** `add` (core.js:360-368): a key whose length is below one changes
        nothing; otherwise a copy of the list with the key appended is
        updated, the given child being cached under its name. Reading the
        length of null or undefined throws, and so does `push` on a value
        that is not an array; neither changes anything. */
    method Add(key: JsValue, resource: Option<Resource>, winner: Option<Result<JsValue>>,
               answersFor: string -> seq<Result<JsValue>>) returns (s: Settlement<Dict>)
      requires forall k :: |answersFor(k)| == |res.syncs|
      modifies this`subvalue, res`value, res`callbacks, res`trace
      ensures Nullish(key) || (!LengthBelowOne(key).value && !old(res.value).Arr?) ==>
                s.Settled? && s.result.Err? && unchanged(this) && unchanged(res)
      ensures LengthBelowOne(key) == Ok(true) ==> s == Settled(Ok(this)) && unchanged(this) && unchanged(res)
      ensures var cached := if resource.Some? then old(subvalue)[resource.value.name := resource.value] else old(subvalue);
              LengthBelowOne(key) == Ok(false) && old(res.value).Arr? ==>
                && (!Commits(winner) ==>
                      && s != Settled(Ok(this)) && subvalue == cached
                      && res.value == old(res.value) && res.callbacks == old(res.callbacks) && res.trace == old(res.trace))
                && (Commits(winner) ==>
                      && res.value == Arr(Dedup(old(Keys()) + [key])) && Contains(key)
                      && res.trace == old(res.trace) + Invoked(old(res.callbacks), Val(res.value))
                      && res.callbacks == DropOnce(old(res.callbacks))
                      && (forall k :: k in subvalue && k !in cached ==> fresh(subvalue[k]))
                      && LoadsSettled(old(Keys()) + [key], cached, answersFor, s))
    {
      var short := LengthBelowOne(key);
      if short.Err? {
        return Settled(Err(short.error));
      }
      if short.value {
        return Settled(Ok(this));
      }
      if !res.value.Arr? {
        return Settled(Err(if res.value.Undefined? || res.value.Func? then "SyntaxError: not JSON"
                           else "TypeError: value.push is not a function"));
      }
      s := Update(Keys() + [key], resource, winner, answersFor);
    }

    /** `remove` (core.js:369-381): `indexOf` on the value, then a key whose
        length is below one, or that is not found, changes nothing. Otherwise
        its cached child is dropped and a copy of the list with the first
        occurrence spliced out is updated; on a string value the key's text
        is found but `splice` throws after the child is dropped. `indexOf` on
        any other value, and reading the length of null or undefined, throw
        before anything changes. */
    method Remove(key: JsValue, winner: Option<Result<JsValue>>,
                  answersFor: string -> seq<Result<JsValue>>) returns (s: Settlement<Dict>)
      requires forall k :: |answersFor(k)| == |res.syncs|
      modifies this`subvalue, res`value, res`callbacks, res`trace
      ensures ValueIndexOf(old(res.value), key).Err? || Nullish(key) ==>
                s.Settled? && s.result.Err? && unchanged(this) && unchanged(res)
      ensures ValueIndexOf(old(res.value), key).Ok? && !Nullish(key)
              && (LengthBelowOne(key).value || ValueIndexOf(old(res.value), key).value == -1) ==>
                s == Settled(Ok(this)) && unchanged(this) && unchanged(res)
      ensures old(res.value).Str? && !Nullish(key) && !LengthBelowOne(key).value
              && ValueIndexOf(old(res.value), key).value != -1 ==>
                && s.Settled? && s.result.Err? && subvalue == old(subvalue) - {ToString(key)}
                && unchanged(res)
      ensures old(res.value).Arr? && !Nullish(key) && !LengthBelowOne(key).value && key in old(Keys()) ==>
                RemovedListed(key, old(Keys()), old(subvalue), old(res.value), old(res.callbacks), old(res.trace), winner, answersFor, s)
      ensures forall k :: k in subvalue && k !in old(subvalue) ==> fresh(subvalue[k])
    {
      var index := ValueIndexOf(res.value, key);
      if index.Err? {
        return Settled(Err(index.error));
      }
      var short := LengthBelowOne(key);
      if short.Err? {
        return Settled(Err(short.error));
      }
      if short.value || index.value == -1 {
        return Settled(Ok(this));
      }
      if !res.value.Arr? {
        subvalue := subvalue - {ToString(key)};
        return Settled(Err("TypeError: value.splice is not a function"));
      }
      s := RemoveListed(key, index.value, winner, answersFor);
    }

    /** What `remove` does to a dictionary whose list holds `key`, stated
        against the state before the call. */
    ghost predicate RemovedListed(key: JsValue, keys0: seq<JsValue>, cache0: map<string, Resource>, value0: JsValue,
                                  callbacks0: seq<Entry>, trace0: seq<Call>, winner: Option<Result<JsValue>>,
                                  answersFor: string -> seq<Result<JsValue>>, s: Settlement<Dict>)
      requires key in keys0
      reads this, res, subvalue.Values
    {
      var rest := RemoveAt(keys0, IndexOf(keys0, key));
      var cached := cache0 - {ToString(key)};
      && (!Commits(winner) ==>
            && s != Settled(Ok(this)) && subvalue == cached
            && res.value == value0 && res.callbacks == callbacks0 && res.trace == trace0)
      && (Commits(winner) ==>
            && res.value == Arr(Dedup(rest))
            && res.trace == trace0 + Invoked(callbacks0, Val(res.value))
            && res.callbacks == DropOnce(callbacks0)
            && LoadsSettled(rest, cached, answersFor, s))
      && (Commits(winner) && Distinct(keys0) ==>
            && res.value == Arr(rest) && !Contains(key)
            && (key.Str? || Str(ToString(key)) !in keys0 ==> ToString(key) !in subvalue))
    }

    /** The list holds `key` first at `index`: its cached child is dropped,
        the key is spliced out and the list updated. */
    method RemoveListed(key: JsValue, index: nat, winner: Option<Result<JsValue>>,
                        answersFor: string -> seq<Result<JsValue>>) returns (s: Settlement<Dict>)
      requires forall k :: |answersFor(k)| == |res.syncs|
      requires key in Keys() && index == IndexOf(Keys(), key)
      modifies this`subvalue, res`value, res`callbacks, res`trace
      ensures RemovedListed(key, old(Keys()), old(subvalue), old(res.value), old(res.callbacks), old(res.trace), winner, answersFor, s)
      ensures forall k :: k in subvalue && k !in old(subvalue) ==> fresh(subvalue[k])
    {
      var keys := Keys();
      subvalue := subvalue - {ToString(key)};
      var rest := RemoveAt(keys, index);
      if Distinct(keys) {
        RemoveFromDistinct(keys, key);
      }
      s := Update(rest, None, winner, answersFor);
      assert Commits(winner) ==> res.value == Arr(Dedup(rest));
      if Commits(winner) && Distinct(keys) && (key.Str? || Str(ToString(key)) !in keys) {
        assert Str(ToString(key)) !in rest;
      }
    }

    /** `query` (core.js:343-350): the resource query, then every listed key
        loaded, then the subscribers run with the cache of children. */
    method Query(answers: seq<Result<JsValue>>, answersFor: string -> seq<Result<JsValue>>)
      returns (r: Result<map<string, Resource>>)
      requires |answers| == |res.syncs|
      requires forall k :: |answersFor(k)| == |res.syncs|
      modifies this`subvalue, res`value, res`callbacks, res`trace
      ensures var d := Absorb(old(res.callbacks), answers);
              && res.value == LastDefined(answers, old(res.value))
              && (Gather(answers).Err? ==> r.Err? && subvalue == old(subvalue))
              && (r.Err? ==> res.trace == old(res.trace) + d.calls && res.callbacks == d.callbacks)
              && (forall k :: k in old(subvalue) ==> k in subvalue && subvalue[k] == old(subvalue)[k])
              && (forall k :: k in subvalue && k !in old(subvalue) ==> Str(k) in Keys() && fresh(subvalue[k]))
              && ChildrenLoaded(subvalue, old(subvalue), answersFor)
              && (Gather(answers).Ok? && AllLoad(Keys(), old(subvalue), answersFor) ==> r.Ok?)
              && (r.Ok? ==>
                    && r.value == subvalue
                    && (forall key :: key in Keys() ==> ToString(key) in subvalue)
                    && res.trace == old(res.trace) + d.calls + Invoked(d.callbacks, Subvalues(subvalue))
                    && res.callbacks == DropOnce(d.callbacks))
    {
      var q := res.Query(answers);
      if q.Err? {
        return Err(q.error);
      }
      r := LoadAndNotify(answersFor);
    }

    /** `queryPrimary` (core.js:335-342): as `query`, asking only the first backend. */
    method QueryPrimary(answers: seq<Result<JsValue>>, answersFor: string -> seq<Result<JsValue>>)
      returns (r: Result<map<string, Resource>>)
      requires |answers| == if res.syncs == [] then 0 else 1
      requires forall k :: |answersFor(k)| == |res.syncs|
      modifies this`subvalue, res`value, res`callbacks, res`trace
      ensures var d := Absorb(old(res.callbacks), answers);
              && res.value == LastDefined(answers, old(res.value))
              && (Gather(answers).Err? ==> r.Err? && subvalue == old(subvalue))
              && (r.Err? ==> res.trace == old(res.trace) + d.calls && res.callbacks == d.callbacks)
              && (forall k :: k in old(subvalue) ==> k in subvalue && subvalue[k] == old(subvalue)[k])
              && (forall k :: k in subvalue && k !in old(subvalue) ==> Str(k) in Keys() && fresh(subvalue[k]))
              && ChildrenLoaded(subvalue, old(subvalue), answersFor)
              && (Gather(answers).Ok? && AllLoad(Keys(), old(subvalue), answersFor) ==> r.Ok?)
              && (r.Ok? ==>
                    && r.value == subvalue
                    && (forall key :: key in Keys() ==> ToString(key) in subvalue)
                    && res.trace == old(res.trace) + d.calls + Invoked(d.callbacks, Subvalues(subvalue))
                    && res.callbacks == DropOnce(d.callbacks))
    {
      var q := res.QueryPrimary(answers);
      if q.Err? {
        return Err(q.error);
      }
      if answers != [] {
        assert answers[..|answers| - 1] == [] && answers[|answers| - 1] == answers[0];
        assert Gather(answers[..|answers| - 1]) == Ok([]);
        assert answers[0].Err? ==> Gather(answers).Err?;
      }
      r := LoadAndNotify(answersFor);
    }

    /** The shared tail of `query` and `queryPrimary` (`loadSubs`, then the dispatch). */
    method LoadAndNotify(answersFor: string -> seq<Result<JsValue>>) returns (r: Result<map<string, Resource>>)
      requires forall k :: |answersFor(k)| == |res.syncs|
      modifies this`subvalue, res`callbacks, res`trace
      ensures res.value == old(res.value)
      ensures forall k :: k in old(subvalue) ==> k in subvalue && subvalue[k] == old(subvalue)[k]
      ensures forall k :: k in subvalue && k !in old(subvalue) ==> Str(k) in Keys() && fresh(subvalue[k])
      ensures ChildrenLoaded(subvalue, old(subvalue), answersFor)
      ensures AllLoad(Keys(), old(subvalue), answersFor) ==> r.Ok?
      ensures r.Err? ==> res.trace == old(res.trace) && res.callbacks == old(res.callbacks)
      ensures r.Ok? ==>
                && r.value == subvalue
                && (forall key :: key in Keys() ==> ToString(key) in subvalue)
                && res.trace == old(res.trace) + Invoked(old(res.callbacks), Subvalues(subvalue))
                && res.callbacks == DropOnce(old(res.callbacks))
    {
      var l := LoadSubvalue(answersFor);
      if l.Err? {
        return Err(l.error);
      }
      res.RunCallbacks(Subvalues(subvalue));
      r := Ok(subvalue);
    }
  }
}
