/** `LocalStorageSync` (core.js:408-424): a backend that keeps each resource,
    preprocessed, under the key `<sync name>.<resource name>` of the browser's
    string store, which is passed in here as an object holding a map. */
module LocalStorage {
  import opened JsValues
  import opened Resources
  import opened Pipeline

  /** The browser's `localStorage`: strings under string keys. */
  class Storage {
    var items: map<string, string>

    constructor (items: map<string, string>)
      ensures this.items == items
    {
      this.items := items;
    }
  }

  /** The slot a resource is kept in (core.js:413, 419). */
  function StoreKey(syncName: string, resourceName: string): string {
    syncName + "." + resourceName
  }

  /** Within one sync, different resources never share a slot. */
  lemma StoreKeyInjective(syncName: string, a: string, b: string)
    requires StoreKey(syncName, a) == StoreKey(syncName, b)
    ensures a == b
  {
    var n := |syncName| + 1;
    assert StoreKey(syncName, a)[n..] == a;
    assert StoreKey(syncName, b)[n..] == b;
  }

  /** Across syncs whose names contain a dot, two different resources can share a slot. */
  lemma StoreKeysOfDottedNamesCollide()
    ensures StoreKey("a", "b.c") == StoreKey("a.b", "c")
  {
  }

  /** What `getItem` hands back: the stored text, or null for an empty slot. */
  function Stored(items: map<string, string>, key: string): JsValue {
    if key in items then Str(items[key]) else Null
  }

  /** Whatever the store kept for a value comes back through a round-tripping
      pair of chains, provided the pre chain hands on text (the store keeps
      the text of what it is given). */
  lemma StoredValueComesBack(pre: seq<Processor>, post: seq<Processor>, name: string, meta: JsValue, v: JsValue)
    requires RoundTrips(pre, post)
    requires Preprocessed(pre, name, meta, v).Ok? && Preprocessed(pre, name, meta, v).value.Str?
    ensures Postprocessed(post, Str(ToString(Preprocessed(pre, name, meta, v).value)))
            == Received(Some(meta), Ok(if Nullish(v) then Null else v))
  {
    PostprocessUndoesPreprocess(pre, post, name, meta, v);
  }

  /** What JSON keeps of a field: its `JsonView`, or nothing (read back as
      undefined) for undefined or a function. */
  function JsonField(v: JsValue): JsValue {
    if HasJsonText(v) then JsonView(v) else Undefined
  }

  /** The record `pack` builds keeps, through JSON, what JSON keeps of its meta and value. */
  lemma JsonViewOfPack(name: string, meta: JsValue, p: JsValue)
    ensures JsonView(Pack(name, meta, p)).Obj?
    ensures GetProp(JsonView(Pack(name, meta, p)), "meta") == Ok(JsonField(meta))
    ensures GetProp(JsonView(Pack(name, meta, p)), "value") == Ok(JsonField(p))
  {
    var fields := Pack(name, meta, p).fields;
    assert "meta" in fields && fields["meta"] == meta;
    assert "value" in fields && fields["value"] == p;
  }

  /** Reading back the stored text of a packed record installs what JSON kept
      of the meta and runs the post chain on what it kept of the value. */
  lemma JsonStoredRecordReadsBack(c: Codec, name: string, meta: JsValue, p: JsValue)
    requires CodecLaw(c)
    ensures Postprocessed([JsonProcessor(c)], Str(c.stringify(Pack(name, meta, p)).value))
            == match RunThroughSpec([JsonProcessor(c)], Post, JsonField(p))
               case Err(e) => Received(Some(JsonField(meta)), Err(e))
               case Ok(w) => Received(Some(JsonField(meta)), Ok(w))
  {
    var packed := Pack(name, meta, p);
    JsonPostParses(c, packed);
    JsonViewOfPack(name, meta, p);
  }

  /** With a JSON processor on both chains every value is kept as text. What
      reads back is what JSON keeps of it: null for null, undefined or a
      function, otherwise its `JsonView`; the meta comes back the same way. */
  lemma JsonStoreRoundTrip(c: Codec, name: string, meta: JsValue, v: JsValue)
    requires CodecLaw(c)
    ensures Preprocessed([JsonProcessor(c)], name, meta, v).Ok?
    ensures Preprocessed([JsonProcessor(c)], name, meta, v).value.Str?
    ensures Postprocessed([JsonProcessor(c)], Str(ToString(Preprocessed([JsonProcessor(c)], name, meta, v).value)))
            == Received(Some(JsonField(meta)), Ok(if Nullish(v) || v.Func? then Null else JsonView(v)))
  {
    var j := [JsonProcessor(c)];
    JsonPreGivesText(c, v);
    var p := RunThroughSpec(j, Pre, v).value;
    var packed := Pack(name, meta, p);
    JsonPreGivesText(c, packed);
    assert Preprocessed(j, name, meta, v) == Ok(Str(c.stringify(packed).value));
    JsonStoredRecordReadsBack(c, name, meta, p);
    if HasJsonText(v) && !v.Null? {
      assert JsonField(p) == Str(c.stringify(v).value);
      JsonPostParses(c, v);
    } else {
      assert Nullish(JsonField(p));
    }
  }

  /** A value and meta that JSON keeps whole are read back exactly. */
  lemma JsonStoreKeepsSafeValues(c: Codec, name: string, meta: JsValue, v: JsValue)
    requires CodecLaw(c) && JsonSafe(meta) && (Nullish(v) || JsonSafe(v))
    ensures Preprocessed([JsonProcessor(c)], name, meta, v).Ok?
    ensures Preprocessed([JsonProcessor(c)], name, meta, v).value.Str?
    ensures Postprocessed([JsonProcessor(c)], Str(ToString(Preprocessed([JsonProcessor(c)], name, meta, v).value)))
            == Received(Some(meta), Ok(if Nullish(v) then Null else v))
  {
    JsonStoreRoundTrip(c, name, meta, v);
    JsonViewOfSafe(meta);
    if !Nullish(v) {
      JsonViewOfSafe(v);
    }
  }

  /** Without processors the store keeps "[object Object]", which reads back
      as a rejection: such a sync loses every value. */
  lemma UnprocessedStoreIsUnreadable(name: string, meta: JsValue, v: JsValue)
    ensures Preprocessed([], name, meta, v) == Ok(Pack(name, meta, if Nullish(v) then Null else v))
    ensures ToString(Preprocessed([], name, meta, v).value) == "[object Object]"
    ensures Postprocessed([], Str("[object Object]")).result.Err?
  {
  }

  class LocalStorageSync {
    const sync: Sync
    const store: Storage

    /** core.js:409-411: the arguments are handed to `Sync` one slot off, so
        `meta` lands in `relay`, `value` in `meta`, and the value is undefined. */
    constructor (syncs: seq<JsValue>, name: string, pre: seq<Processor>, post: seq<Processor>,
                 meta: JsValue, value: JsValue, store: Storage)
      requires !value.Null? && !value.Arr?
      ensures fresh(sync)
      ensures sync.syncs == syncs && sync.name == name && sync.pre == pre && sync.post == post
      ensures sync.relay == (if meta.Arr? then meta.items else [])
      ensures sync.meta == InitialMeta(value, "sync") && sync.value == Undefined
      ensures this.store == store
    {
      sync := new Sync(syncs, name, pre, post, meta, value, Undefined);
      this.store := store;
    }

    /** core.js:412-415: the stored text (or null) is postprocessed. */
    method Get(resource: Resource) returns (r: Result<JsValue>)
      modifies resource`meta
      ensures var rec := Postprocessed(sync.post, Stored(store.items, StoreKey(sync.name, resource.name)));
              && r == rec.result
              && resource.meta == match rec.meta case None => old(resource.meta) case Some(m) => m
    {
      var stored := Stored(store.items, StoreKey(sync.name, resource.name));
      r := sync.Postprocess(resource, stored);
    }

    /** core.js:416-423: the preprocessed value is stored as text; the
        promise settles to the resource. */
    method Set(resource: Resource, v: JsValue) returns (r: Result<Resource>)
      modifies store`items
      ensures var p := Preprocessed(sync.pre, resource.name, resource.meta, v);
              && (p.Err? ==> r == Err(p.error) && store.items == old(store.items))
              && (p.Ok? ==>
                    && r == Ok(resource)
                    && store.items == old(store.items)[StoreKey(sync.name, resource.name) := ToString(p.value)])
    {
      var p := sync.Preprocess(resource, v);
      if p.Err? {
        return Err(p.error);
      }
      store.items := store.items[StoreKey(sync.name, resource.name) := ToString(p.value)];
      r := Ok(resource);
    }
  }
}
