/** `Sync` (core.js:183-265): a backend with two processor chains. A value
    going out is marshalled, run through `pre`, packed with its resource's
    name and meta and run through `pre` again; a value coming in takes the
    mirror path through `post`. */
module Pipeline {
  import opened JsValues
  import opened Resources

  datatype Direction = Pre | Post

  /** A processor: its `pre` and `post` steps. Each settles to a value or a
      rejection; the resource a step is handed is not modelled. */
  datatype Processor = Processor(pre: JsValue -> Result<JsValue>, post: JsValue -> Result<JsValue>)

  function Apply(p: Processor, dir: Direction, v: JsValue): Result<JsValue> {
    match dir
    case Pre => p.pre(v)
    case Post => p.post(v)
  }

  /** The chain applied left to right, each output feeding the next step; the
      first rejection ends the run. */
  function Fold(chain: seq<Processor>, dir: Direction, v: JsValue): Result<JsValue>
    decreases |chain|
  {
    if chain == [] then Ok(v)
    else
      match Apply(chain[0], dir, v)
      case Err(e) => Err(e)
      case Ok(w) => Fold(chain[1..], dir, w)
  }

  /** What `runthrough` (core.js:231-258) settles to: null for a null or
      undefined start value, otherwise the fold of the chain. */
  function RunThroughSpec(chain: seq<Processor>, dir: Direction, v: JsValue): Result<JsValue> {
    if Nullish(v) then Ok(Null) else Fold(chain, dir, v)
  }

  /** Running two chains one after the other is running their concatenation. */
  lemma {:induction false} FoldAppend(a: seq<Processor>, b: seq<Processor>, dir: Direction, v: JsValue)
    ensures Fold(a + b, dir, v) == match Fold(a, dir, v) case Err(e) => Err(e) case Ok(w) => Fold(b, dir, w)
    decreases |a|
  {
    if a != [] {
      assert (a + b)[0] == a[0] && (a + b)[1..] == a[1..] + b;
      match Apply(a[0], dir, v)
      case Err(_) =>
      case Ok(w) => FoldAppend(a[1..], b, dir, w);
    } else {
      assert a + b == b;
    }
  }

  /** The steps run in chain order: the last step sees what the others made of
      the value, and a rejection before it is the result. */
  lemma FoldLast(a: seq<Processor>, p: Processor, dir: Direction, v: JsValue)
    ensures Fold(a + [p], dir, v) == match Fold(a, dir, v) case Err(e) => Err(e) case Ok(w) => Apply(p, dir, w)
  {
    FoldAppend(a, [p], dir, v);
    match Fold(a, dir, v)
    case Err(_) =>
    case Ok(w) => assert [p][1..] == [];
  }

  /** `preprocess` (core.js:201-215) as a value: marshal, chain, prestore,
      pack with the resource's name and meta, chain again. */
  function Preprocessed(pre: seq<Processor>, name: string, meta: JsValue, v: JsValue): Result<JsValue> {
    match RunThroughSpec(pre, Pre, Marshal(v))
    case Err(e) => Err(e)
    case Ok(p) => RunThroughSpec(pre, Pre, Pack(name, meta, Prestore(p)))
  }

  /** What `postprocess` leaves: the meta `unpack` installed on the resource,
      if it got that far, and how the whole chain settled. */
  datatype Received = Received(meta: Option<JsValue>, result: Result<JsValue>)

  /** `postprocess` (core.js:216-230) as a value: chain, unpack, poststore,
      chain again, unmarshal. The meta is installed even when the second run
      of the chain rejects. */
  function Postprocessed(post: seq<Processor>, v: JsValue): Received {
    match RunThroughSpec(post, Post, v)
    case Err(e) => Received(None, Err(e))
    case Ok(packed) =>
      match Unpack(packed)
      case Err(e) => Received(None, Err(e))
      case Ok(u) =>
        match RunThroughSpec(post, Post, Poststore(u.value))
        case Err(e) => Received(u.meta, Err(e))
        case Ok(w) => Received(u.meta, Ok(Unmarshal(w)))
  }

  /** The `post` chain undoes the `pre` chain on every defined value it
      accepts, and never turns a defined value into null or undefined. */
  ghost predicate RoundTrips(pre: seq<Processor>, post: seq<Processor>) {
    forall x :: !Nullish(x) && Fold(pre, Pre, x).Ok? ==>
      !Nullish(Fold(pre, Pre, x).value) && Fold(post, Post, Fold(pre, Pre, x).value) == Ok(x)
  }

  /** With no processors at all, every value comes back. */
  lemma EmptyChainsRoundTrip()
    ensures RoundTrips([], [])
  {
    forall x | !Nullish(x) && Fold([], Pre, x).Ok?
      ensures !Nullish(Fold([], Pre, x).value) && Fold([], Post, Fold([], Pre, x).value) == Ok(x)
    {
      assert Fold([], Pre, x) == Ok(x);
    }
  }

  /** Postprocessing what preprocessing produced gives back the value (null
      for null or undefined) and installs the meta that was packed. */
  lemma PostprocessUndoesPreprocess(pre: seq<Processor>, post: seq<Processor>, name: string, meta: JsValue, v: JsValue)
    requires RoundTrips(pre, post)
    requires Preprocessed(pre, name, meta, v).Ok?
    ensures Postprocessed(post, Preprocessed(pre, name, meta, v).value)
            == Received(Some(meta), Ok(if Nullish(v) then Null else v))
  {
    var p := RunThroughSpec(pre, Pre, v).value;
    var packed := Pack(name, meta, p);
    assert !Nullish(packed) && Fold(pre, Pre, packed).Ok?;
    UnpackPack(name, meta, p);
    if !Nullish(v) {
      assert Fold(pre, Pre, v).Ok?;
    }
  }

  /** An abstract JSON codec: `stringify` gives text or, as for undefined or a
      function, nothing; `parse` gives a value or a syntax error. */
  datatype Codec = Codec(stringify: JsValue -> Option<string>, parse: string -> Result<JsValue>)

  /** Whether `JSON.stringify` writes any text for the value: undefined and
      functions have none. */
  predicate HasJsonText(v: JsValue) {
    !v.Undefined? && !v.Func?
  }

  /** A value JSON keeps whole: no undefined and no function anywhere inside. */
  predicate JsonSafe(v: JsValue)
    decreases v
  {
    match v
    case Undefined => false
    case Func(_) => false
    case Arr(items) => forall i :: 0 <= i < |items| ==> JsonSafe(items[i])
    case Obj(fields) => forall k :: k in fields ==> JsonSafe(fields[k])
    case _ => true
  }

  /** What parsing a value's JSON text rebuilds: a field holding undefined or
      a function is dropped, and such an array element becomes null. */
  function JsonView(v: JsValue): JsValue
    decreases v
  {
    match v
    case Arr(items) =>
      Arr(seq(|items|, i requires 0 <= i < |items| => if HasJsonText(items[i]) then JsonView(items[i]) else Null))
    case Obj(fields) => Obj(map k | k in fields && HasJsonText(fields[k]) :: JsonView(fields[k]))
    case _ => v
  }

  /** JSON keeps a safe value exactly. */
  lemma {:induction false} JsonViewOfSafe(v: JsValue)
    requires JsonSafe(v)
    ensures JsonView(v) == v
    decreases v
  {
    match v
    case Arr(items) =>
      forall i | 0 <= i < |items| ensures JsonView(items[i]) == items[i] {
        JsonViewOfSafe(items[i]);
      }
      assert JsonView(v).items == items;
    case Obj(fields) =>
      forall k | k in fields ensures JsonView(fields[k]) == fields[k] {
        JsonViewOfSafe(fields[k]);
      }
      assert JsonView(v).fields == fields;
    case _ =>
  }

  /** An object whose field holds undefined reads back without that field. */
  lemma JsonDropsUndefinedField()
    ensures JsonView(Obj(map["a" := Undefined])) == Obj(map[])
    ensures !JsonSafe(Obj(map["a" := Undefined]))
  {
    assert "a" in map["a" := Undefined];
  }

  /** What `JSON.stringify` and `JSON.parse` do on the values modelled here:
      undefined and functions have no text, and every other value has a text
      that parses back to its `JsonView`. */
  ghost predicate CodecLaw(c: Codec) {
    && c.stringify(Undefined) == None
    && (forall id :: c.stringify(Func(id)) == None)
    && (forall x :: HasJsonText(x) ==> c.stringify(x).Some? && c.parse(c.stringify(x).value) == Ok(JsonView(x)))
  }

  /** `JSONProcessor` (core.js:400-407): `pre` stringifies, `post` parses the
      text of whatever it is given. */
  function JsonProcessor(c: Codec): Processor {
    Processor(
      x => match c.stringify(x) case None => Ok(Undefined) case Some(s) => Ok(Str(s)),
      y => c.parse(ToString(y)))
  }

  /** The JSON pre-chain hands a value with a text on as that text, and
      undefined or a function on as undefined. */
  lemma JsonPreGivesText(c: Codec, x: JsValue)
    requires CodecLaw(c)
    ensures HasJsonText(x) ==> Fold([JsonProcessor(c)], Pre, x) == Ok(Str(c.stringify(x).value))
    ensures !HasJsonText(x) ==> Fold([JsonProcessor(c)], Pre, x) == Ok(Undefined)
  {
    assert [JsonProcessor(c)][1..] == [];
    if x.Func? {
      assert c.stringify(Func(x.id)) == None;
    }
  }

  /** The JSON post-chain turns the text of a value back into its `JsonView`. */
  lemma JsonPostParses(c: Codec, x: JsValue)
    requires CodecLaw(c) && HasJsonText(x)
    ensures Fold([JsonProcessor(c)], Post, Str(c.stringify(x).value)) == Ok(JsonView(x))
  {
    var j := JsonProcessor(c);
    var s := c.stringify(x).value;
    assert [j][1..] == [];
    assert ToString(Str(s)) == s;
    assert j.post(Str(s)) == c.parse(s);
  }

  /** A JSON processor on both chains gives back every defined value that
      JSON keeps whole. */
  lemma JsonRoundTrips(c: Codec)
    requires CodecLaw(c)
    ensures forall x :: JsonSafe(x) && !Nullish(x) ==>
      && Fold([JsonProcessor(c)], Pre, x).Ok?
      && !Nullish(Fold([JsonProcessor(c)], Pre, x).value)
      && Fold([JsonProcessor(c)], Post, Fold([JsonProcessor(c)], Pre, x).value) == Ok(x)
  {
    forall x | JsonSafe(x) && !Nullish(x)
      ensures && Fold([JsonProcessor(c)], Pre, x).Ok?
              && !Nullish(Fold([JsonProcessor(c)], Pre, x).value)
              && Fold([JsonProcessor(c)], Post, Fold([JsonProcessor(c)], Pre, x).value) == Ok(x)
    {
      JsonPreGivesText(c, x);
      JsonPostParses(c, x);
      JsonViewOfSafe(x);
    }
  }

  class Sync {
    /** The Resource part of a sync (its own backends and value). */
    const syncs: seq<JsValue>
    const name: string
    const meta: JsValue
    const value: JsValue
    const pre: seq<Processor>
    const post: seq<Processor>
    /** The backends inbound messages are resolved against. */
    const relay: seq<JsValue>

    /** core.js:185-200; `pre` and `post` are arrays by typing, a `relay`
        that is not an array becomes empty. */
    constructor (syncs: seq<JsValue>, name: string, pre: seq<Processor>, post: seq<Processor>,
                 relay: JsValue, meta: JsValue, value: JsValue)
      requires !meta.Null? && !meta.Arr?
      ensures this.syncs == syncs && this.name == name && this.value == value
      ensures this.meta == InitialMeta(meta, "sync")
      ensures this.pre == pre && this.post == post
      ensures this.relay == if relay.Arr? then relay.items else []
    {
      this.syncs := syncs;
      this.name := name;
      this.meta := InitialMeta(meta, "sync");
      this.value := value;
      this.pre := pre;
      this.post := post;
      this.relay := if relay.Arr? then relay.items else [];
    }

    /** core.js:231-258: steps an index and an accumulator through the chain. */
    method RunThrough(chain: seq<Processor>, dir: Direction, v: JsValue) returns (r: Result<JsValue>)
      ensures r == RunThroughSpec(chain, dir, v)
      ensures Nullish(v) ==> r == Ok(Null)
      ensures !Nullish(v) && chain == [] ==> r == Ok(v)
    {
      if Nullish(v) {
        return Ok(Null);
      }
      if |chain| < 1 {
        return Ok(v);
      }
      var i := 0;
      var curr := v;
      while i < |chain|
        invariant 0 <= i <= |chain|
        invariant Fold(chain[i..], dir, curr) == Fold(chain, dir, v)
      {
        assert chain[i..][1..] == chain[i + 1..];
        match Apply(chain[i], dir, curr) {
          case Err(e) =>
            return Err(e);
          case Ok(w) =>
            curr := w;
        }
        i := i + 1;
      }
      assert chain[i..] == [];
      r := Ok(curr);
    }

    /** core.js:201-215 */
    method Preprocess(resource: Resource, v: JsValue) returns (r: Result<JsValue>)
      ensures r == Preprocessed(pre, resource.name, resource.meta, v)
    {
      var p := RunThrough(pre, Pre, Marshal(v));
      if p.Err? {
        return Err(p.error);
      }
      r := RunThrough(pre, Pre, Pack(resource.name, resource.meta, Prestore(p.value)));
    }

    /** core.js:216-230: `unpack` replaces the resource's meta on the way. */
    method Postprocess(resource: Resource, v: JsValue) returns (r: Result<JsValue>)
      modifies resource`meta
      ensures r == Postprocessed(post, v).result
      ensures resource.meta == match Postprocessed(post, v).meta case None => old(resource.meta) case Some(m) => m
    {
      var packed := RunThrough(post, Post, v);
      if packed.Err? {
        return Err(packed.error);
      }
      var u := Unpack(packed.value);
      if u.Err? {
        return Err(u.error);
      }
      if u.value.meta.Some? {
        resource.meta := u.value.meta.value;
      }
      var w := RunThrough(post, Post, Poststore(u.value.value));
      if w.Err? {
        return Err(w.error);
      }
      r := Ok(Unmarshal(w.value));
    }
  }
}
