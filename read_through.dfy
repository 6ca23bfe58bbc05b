/** The read path of pkg/common/storage/cache/redis: getCache reads one key
    through rockscache's Fetch2, and batchGetCache repeats it over many keys,
    skipping keys that are not found and stopping at any other error. */
module ReadThrough {
  import opened Errs
  import opened Sequences

  /** The JSON codec, left abstract. */
  datatype Codec<!T> = Codec(encode: T -> Option<string>, decode: string -> Option<T>)

  /** The codec's round trip for one value, with JSON's non-empty encodings. */
  predicate RoundTrips<T(==)>(codec: Codec<T>, x: T) {
    codec.encode(x).Some? ==> codec.encode(x).value != "" && codec.decode(codec.encode(x).value) == Some(x)
  }

  /** What rockscache's Fetch2 did for one key. */
  datatype FetchOutcome =
    | Hit(stored: string)    // returned the stored string without calling the loader callback
    | Miss                   // called the loader callback and returned what the callback returned
    | Failed(cause: Error)   // failed on its own account (Redis unreachable, store failed, ...)

  /** The loader callback handed to Fetch2: load the value, then encode it; the
      string is what Fetch2 stores under the key. */
  function Callback<T>(loaded: Result<T>, codec: Codec<T>): Result<string>
  {
    if loaded.Err? then Err(loaded.error)
    else if codec.encode(loaded.value).None? then Err(MarshalFailed)
    else Ok(codec.encode(loaded.value).value)
  }

  /** The value getCache returns, given what Fetch2 did and what the loader would load. */
  function Fetched<T>(key: string, expire: int, fetch: FetchOutcome, loaded: Result<T>, codec: Codec<T>): Result<T>
  {
    match fetch
    case Failed(e) => Err(e)
    case Miss => if Callback(loaded, codec).Err? then Err(Callback(loaded, codec).error) else Ok(loaded.value)
    case Hit(v) =>
      if v == "" then Err(RecordNotFound("cache is not found"))
      else if codec.decode(v).None? then Err(UnmarshalFailed(key, v, expire))
      else Ok(codec.decode(v).value)
  }

  /** getCache. `written` is the string the callback handed to Fetch2 for storing:
      present exactly when the loader ran and its value encoded. */
  method GetCache<T>(key: string, expire: int, fetch: FetchOutcome, loaded: Result<T>, codec: Codec<T>)
    returns (r: Result<T>, written: Option<string>)
    ensures r == Fetched(key, expire, fetch, loaded, codec)
    ensures written.Some? <==> fetch.Miss? && loaded.Ok? && codec.encode(loaded.value).Some?
    ensures written.Some? ==> written == codec.encode(loaded.value)
  {
    var t: Option<T> := None;
    var write := false;
    var v: Result<string>;
    written := None;
    match fetch {
      case Failed(e) =>
        v := Err(e);
      case Hit(s) =>
        v := Ok(s);
      case Miss =>
        // the callback: it sets t and, once the value has encoded, the write flag
        if loaded.Err? {
          v := Err(loaded.error);
        } else {
          t := Some(loaded.value);
          var bs := codec.encode(loaded.value);
          if bs.None? {
            v := Err(MarshalFailed);
          } else {
            write := true;
            written := bs;
            v := Ok(bs.value);
          }
        }
    }
    if v.Err? {
      return Err(v.error), written;
    }
    if write {
      return Ok(t.value), written;
    }
    if v.value == "" {
      return Err(RecordNotFound("cache is not found")), written;
    }
    var decoded := codec.decode(v.value);
    if decoded.None? {
      return Err(UnmarshalFailed(key, v.value, expire)), written;
    }
    return Ok(decoded.value), written;
  }

  /** A value stored by a successful load reads back as that value, without the
      loader, provided the codec round-trips it. */
  lemma ReadAfterWrite<T>(key: string, expire: int, x: T, codec: Codec<T>, later: Result<T>)
    requires RoundTrips(codec, x)
    requires codec.encode(x).Some?
    ensures Fetched(key, expire, Miss, Ok(x), codec) == Ok(x)
    ensures Fetched(key, expire, Hit(codec.encode(x).value), later, codec) == Ok(x)
  {
  }

  /** On a hit the loader plays no part: the result is the same whatever it would load. */
  lemma HitIgnoresLoader<T>(key: string, expire: int, v: string, a: Result<T>, b: Result<T>, codec: Codec<T>)
    ensures Fetched(key, expire, Hit(v), a, codec) == Fetched(key, expire, Hit(v), b, codec)
  {
  }

  /** Not-found arises only from an empty stored string, or from a not-found error
      of the loader or of Fetch2 itself; a corrupt value is never reported as not found. */
  lemma NotFoundSources<T>(key: string, expire: int, fetch: FetchOutcome, loaded: Result<T>, codec: Codec<T>)
    ensures Fetched(key, expire, fetch, loaded, codec).Err? && IsNotFound(Fetched(key, expire, fetch, loaded, codec).error) <==>
      fetch == Hit("") ||
      (fetch.Failed? && IsNotFound(fetch.cause)) ||
      (fetch.Miss? && loaded.Err? && IsNotFound(loaded.error))
  {
  }

  /** A per-key error that aborts a batch: any error other than not-found. */
  predicate IsHard<T>(r: Result<T>) {
    r.Err? && !IsNotFound(r.error)
  }

  predicate HardFree<T>(rs: seq<Result<T>>) {
    forall i :: 0 <= i < |rs| ==> !IsHard(rs[i])
  }

  /** The values of the found entries, in order. */
  function Found<T>(rs: seq<Result<T>>): seq<T>
  {
    if rs == [] then []
    else Found(rs[..|rs| - 1]) + (if rs[|rs| - 1].Ok? then [rs[|rs| - 1].value] else [])
  }

  /** Found values lifted back to results, to compare them with the per-key results. */
  function Lift<T>(vs: seq<T>): seq<Result<T>>
  {
    seq(|vs|, i requires 0 <= i < |vs| => Ok(vs[i]))
  }

  /** The loop of batchGetCache over already fetched per-key results. */
  function Collect<T>(rs: seq<Result<T>>): Result<seq<T>>
  {
    if rs == [] then Ok([])
    else
      var prev := Collect(rs[..|rs| - 1]);
      var last := rs[|rs| - 1];
      if prev.Err? then prev
      else if last.Ok? then Ok(prev.value + [last.value])
      else if IsNotFound(last.error) then prev
      else Err(last.error)
  }

  /** Per-key results of a batch: getCache on each key, with that key's loader.
      `fetch(i)` is what the i-th Fetch2 call of the batch did, so a key asked for
      twice may miss (and be stored) the first time and hit the second. */
  function PerKey<K, T>(keys: seq<K>, keyFn: K -> string, expire: int, fetch: nat -> FetchOutcome,
                         load: K -> Result<T>, codec: Codec<T>): seq<Result<T>>
  {
    seq(|keys|, i requires 0 <= i < |keys| => Fetched(keyFn(keys[i]), expire, fetch(i), load(keys[i]), codec))
  }

  /** batchGetCache: all-or-nothing on hard errors, best effort on not-found. */
  method BatchGetCache<K, T>(expire: int, keys: seq<K>, keyFn: K -> string, fetch: nat -> FetchOutcome,
                             load: K -> Result<T>, codec: Codec<T>) returns (r: Result<seq<T>>)
    ensures r == Collect(PerKey(keys, keyFn, expire, fetch, load, codec))
  {
    ghost var rs := PerKey(keys, keyFn, expire, fetch, load, codec);
    if |keys| == 0 {
      return Ok([]);
    }
    var res: seq<T> := [];
    var i := 0;
    while i < |keys|
      invariant 0 <= i <= |keys|
      invariant Collect(rs[..i]) == Ok(res)
    {
      assert rs[..i + 1][..i] == rs[..i];
      var key := keyFn(keys[i]);
      var val, _ := GetCache(key, expire, fetch(i), load(keys[i]), codec);
      if val.Err? {
        if IsNotFound(val.error) {
          i := i + 1;
          continue;
        }
        CollectKeepsFirstError(rs, i + 1);
        return Err(val.error);
      }
      res := res + [val.value];
      i := i + 1;
    }
    assert rs[..|keys|] == rs;
    r := Ok(res);
  }

  /** Once a prefix has failed, the whole batch fails with that prefix's error. */
  lemma {:induction false} CollectKeepsFirstError<T>(rs: seq<Result<T>>, n: nat)
    requires n <= |rs|
    requires Collect(rs[..n]).Err?
    ensures Collect(rs) == Collect(rs[..n])
    decreases |rs|
  {
    if n < |rs| {
      var p := rs[..|rs| - 1];
      assert p[..n] == rs[..n];
      CollectKeepsFirstError(p, n);
    } else {
      assert rs[..n] == rs;
    }
  }

  /** batchGetCache's meaning: with no hard error it returns exactly the found
      values in key order; otherwise it returns the first hard error and no values. */
  lemma {:induction false} CollectMeaning<T>(rs: seq<Result<T>>)
    ensures HardFree(rs) ==> Collect(rs) == Ok(Found(rs))
    ensures !HardFree(rs) ==> exists i :: 0 <= i < |rs| && IsHard(rs[i]) && HardFree(rs[..i]) && Collect(rs) == Err(rs[i].error)
  {
    if rs != [] {
      var p := rs[..|rs| - 1];
      CollectMeaning(p);
      if !HardFree(p) {
        var i :| 0 <= i < |p| && IsHard(p[i]) && HardFree(p[..i]) && Collect(p) == Err(p[i].error);
        assert rs[i] == p[i] && rs[..i] == p[..i];
      } else if IsHard(rs[|rs| - 1]) {
        assert HardFree(rs[..|rs| - 1]);
      } else {
        assert Collect(p) == Ok(Found(p));
        var x := rs[|rs| - 1];
        if x.Ok? {
          assert Found(rs) == Found(p) + [x.value];
        } else {
          assert Found(rs) == Found(p);
        }
        forall i | 0 <= i < |rs|
          ensures !IsHard(rs[i])
        {
          if i < |p| {
            assert rs[i] == p[i];
          }
        }
      }
    }
  }

  /** The found values keep the order of the keys and number at most the keys. */
  lemma {:induction false} FoundInOrder<T>(rs: seq<Result<T>>)
    ensures |Found(rs)| <= |rs|
    ensures Subseq(Lift(Found(rs)), rs)
  {
    if rs != [] {
      var p, x := rs[..|rs| - 1], rs[|rs| - 1];
      FoundInOrder(p);
      assert rs == p + [x];
      if x.Ok? {
        assert Lift(Found(rs)) == Lift(Found(p)) + [x];
        assert (Lift(Found(p)) + [x])[..|Lift(Found(p))|] == Lift(Found(p));
      } else {
        assert Found(rs) == Found(p);
        SubseqExtend(Lift(Found(p)), p, x);
      }
    }
  }

  /** Every key was found exactly when as many values came back as keys were asked
      for; the values then line up with the keys. */
  lemma {:induction false} FoundAll<T>(rs: seq<Result<T>>)
    ensures |Found(rs)| == |rs| <==> forall i :: 0 <= i < |rs| ==> rs[i].Ok?
    ensures (forall i :: 0 <= i < |rs| ==> rs[i].Ok?) ==> forall i :: 0 <= i < |rs| ==> Found(rs)[i] == rs[i].value
  {
    if rs != [] {
      var p := rs[..|rs| - 1];
      FoundAll(p);
      FoundInOrder(p);
    }
  }

  /** A key asked for twice in one batch: the first call misses, loads and stores
      the encoded value, the second hits that stored value; both return the loaded
      value, the second without the loader. */
  lemma RepeatedKeyStoredThenRead<K, T>(k: K, keyFn: K -> string, expire: int, fetch: nat -> FetchOutcome,
                                           load: K -> Result<T>, codec: Codec<T>)
    requires load(k).Ok? && codec.encode(load(k).value).Some? && RoundTrips(codec, load(k).value)
    requires fetch(0) == Miss && fetch(1) == Hit(codec.encode(load(k).value).value)
    ensures Collect(PerKey([k, k], keyFn, expire, fetch, load, codec)) == Ok([load(k).value, load(k).value])
  {
    ReadAfterWrite(keyFn(k), expire, load(k).value, codec, load(k));
    var v := load(k).value;
    var rs := PerKey([k, k], keyFn, expire, fetch, load, codec);
    assert rs[0] == Ok(v) && rs[1] == Ok(v);
    var first := rs[..1];
    var none: seq<Result<T>> := [];
    var nothing: seq<T> := [];
    assert first[..0] == none && Collect(none).value == nothing;
    assert Collect(first).value == nothing + [v] == [v];
    assert rs[..1] == first;
    assert Collect(rs) == Ok([v] + [v]);
    assert [v] + [v] == [v, v];
  }
}
