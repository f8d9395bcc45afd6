/**
 * The two-tier local image cache as values: what a read or a write does to
 * the memory tier and the optional disk tier, and what it returns. The class
 * in ImageLocalRepository performs these steps in place; the lemmas at the
 * end are about sequences of them.
 */
module TieredCache {
  import opened Wrappers

  /** The errors of the image storage layer. */
  datatype ImageError = InvalidData | ImageNotFound | Serialization | FileReadError | Deserialization

  /** A resource URL; both tiers key an image by the URL's absolute string. */
  datatype Url = Url(absoluteString: string)

  /**
   * The contents of the two tiers. `disk` is `None` when the disk store
   * could not be created; otherwise it maps a file name (the key) to the
   * image stored under it.
   */
  datatype Tiers<Image> = Tiers(memory: map<string, Image>, disk: Option<map<string, Image>>)

  /** Whether a write that may throw went through. */
  datatype Outcome = Pass | Fail(error: ImageError)

  /** Store `image` under the URL's key in the memory tier. */
  function SaveToMemory<Image>(t: Tiers<Image>, image: Image, url: Url): (r: Tiers<Image>)
    ensures url.absoluteString in r.memory && r.memory[url.absoluteString] == image
    ensures r.memory.Keys == t.memory.Keys + {url.absoluteString}
    ensures forall k :: k in t.memory && k != url.absoluteString ==> r.memory[k] == t.memory[k]
    ensures r.disk == t.disk
  {
    t.(memory := t.memory[url.absoluteString := image])
  }

  /**
   * Write `image` to the disk tier under the URL's key. `fault` is the error
   * the disk store throws on this write, if it throws. With no disk tier the
   * write does nothing and does not fail.
   */
  function SaveToDisk<Image>(t: Tiers<Image>, image: Image, url: Url, fault: Option<ImageError>): (res: (Tiers<Image>, Outcome))
    ensures res.0.memory == t.memory
    ensures t.disk.None? ==> res == (t, Pass)
    ensures res.1.Fail? <==> t.disk.Some? && fault.Some?
    ensures res.1.Fail? ==> res.0 == t && res.1.error == fault.value
    ensures t.disk.Some? && fault.None? ==>
              res.0.disk == Some(t.disk.value[url.absoluteString := image])
  {
    match t.disk
    case None => (t, Pass)
    case Some(d) =>
      match fault
      case Some(e) => (t, Fail(e))
      case None => (t.(disk := Some(d[url.absoluteString := image])), Pass)
  }

  /**
   * Save an image: the memory tier first, unconditionally, then the disk
   * tier. Only the disk write can fail.
   */
  function Save<Image>(t: Tiers<Image>, image: Image, url: Url, fault: Option<ImageError>): (res: (Tiers<Image>, Outcome))
    // the memory write happens even when the disk write then throws
    ensures url.absoluteString in res.0.memory && res.0.memory[url.absoluteString] == image
    ensures res.0.memory.Keys == t.memory.Keys + {url.absoluteString}
    ensures forall k :: k in t.memory && k != url.absoluteString ==> res.0.memory[k] == t.memory[k]
    // without a disk tier a save never fails
    ensures t.disk.None? ==> res.1 == Pass && res.0.disk == None
    ensures res.1.Fail? <==> t.disk.Some? && fault.Some?
    ensures res.1.Fail? ==> res.1.error == fault.value && res.0.disk == t.disk
    ensures res.1.Pass? && t.disk.Some? ==>
              res.0.disk == Some(t.disk.value[url.absoluteString := image])
  {
    SaveToDisk(SaveToMemory(t, image, url), image, url, fault)
  }

  /**
   * Read the image for a URL: the memory tier first; on a miss the disk
   * tier, and a disk hit is promoted into the memory tier. Fails with
   * `ImageNotFound` when neither tier holds the key.
   */
  function Get<Image>(t: Tiers<Image>, url: Url): (res: (Tiers<Image>, Result<Image, ImageError>))
    // a memory hit is returned and neither tier changes
    ensures url.absoluteString in t.memory ==> res == (t, Ok(t.memory[url.absoluteString]))
    // a memory miss with a disk hit returns the disk image and promotes it
    ensures url.absoluteString !in t.memory && t.disk.Some? && url.absoluteString in t.disk.value ==>
              res.1 == Ok(t.disk.value[url.absoluteString]) &&
              res.0 == t.(memory := t.memory[url.absoluteString := t.disk.value[url.absoluteString]])
    // the read fails exactly when both tiers miss, and then nothing changes
    ensures res.1.Err? <==>
              url.absoluteString !in t.memory &&
              (t.disk.None? || url.absoluteString !in t.disk.value)
    ensures res.1.Err? ==> res == (t, Err(ImageNotFound))
    // only the entry for this key can change, and the disk tier never does
    ensures res.0.disk == t.disk
    ensures res.0.memory.Keys <= t.memory.Keys + {url.absoluteString}
    ensures forall k :: k in t.memory ==> k in res.0.memory && res.0.memory[k] == t.memory[k]
  {
    var key := url.absoluteString;
    if key in t.memory then
      (t, Ok(t.memory[key]))
    else
      match t.disk
      case None => (t, Err(ImageNotFound))
      case Some(d) =>
        if key in d then (SaveToMemory(t, d[key], url), Ok(d[key]))
        else (t, Err(ImageNotFound))
  }

  /** The memory tier drops the given keys, as under memory pressure. */
  function Evict<Image>(t: Tiers<Image>, keys: set<string>): (r: Tiers<Image>)
    ensures r.memory.Keys == t.memory.Keys - keys
    ensures forall k :: k in r.memory ==> r.memory[k] == t.memory[k]
    ensures r.disk == t.disk
  {
    t.(memory := t.memory - keys)
  }

  /** One call on the repository, with the disk fault of a save. */
  datatype Op<Image> =
    | GetOp(url: Url)
    | SaveOp(image: Image, url: Url, fault: Option<ImageError>)
    | EvictOp(keys: set<string>)

  function Apply<Image>(t: Tiers<Image>, op: Op<Image>): (r: Tiers<Image>)
    ensures r.disk.None? <==> t.disk.None?
  {
    match op
    case GetOp(url) => Get(t, url).0
    case SaveOp(image, url, fault) => Save(t, image, url, fault).0
    case EvictOp(keys) => Evict(t, keys)
  }

  /** The tiers after the calls `ops`, in order. */
  function Run<Image>(t: Tiers<Image>, ops: seq<Op<Image>>): (r: Tiers<Image>)
    // the disk tier is there or not for the repository's whole life
    ensures r.disk.None? <==> t.disk.None?
    decreases |ops|
  {
    if ops == [] then t else Run(Apply(t, ops[0]), ops[1..])
  }

  /** `op` saves under `key`. */
  predicate Overwrites<Image>(op: Op<Image>, key: string)
  {
    op.SaveOp? && op.url.absoluteString == key
  }

  /** `op` evicts `key` from the memory tier. */
  predicate Drops<Image>(op: Op<Image>, key: string)
  {
    op.EvictOp? && key in op.keys
  }

  /** The memory tier holds `image` under `key`. */
  ghost predicate InMemory<Image>(t: Tiers<Image>, key: string, image: Image)
  {
    key in t.memory && t.memory[key] == image
  }

  /** The disk tier holds `image` under `key`, and the memory tier holds nothing else there. */
  ghost predicate OnDisk<Image>(t: Tiers<Image>, key: string, image: Image)
  {
    t.disk.Some? && key in t.disk.value && t.disk.value[key] == image &&
    (key in t.memory ==> t.memory[key] == image)
  }

  lemma {:induction false} RunKeepsMemoryEntry<Image>(t: Tiers<Image>, key: string, image: Image, ops: seq<Op<Image>>)
    requires InMemory(t, key, image)
    requires forall i :: 0 <= i < |ops| ==> !Overwrites(ops[i], key) && !Drops(ops[i], key)
    ensures InMemory(Run(t, ops), key, image)
    decreases |ops|
  {
    if ops != [] {
      var t' := Apply(t, ops[0]);
      assert !Overwrites(ops[0], key) && !Drops(ops[0], key);
      assert InMemory(t', key, image);
      RunKeepsMemoryEntry(t', key, image, ops[1..]);
    }
  }

  lemma {:induction false} RunKeepsDiskEntry<Image>(t: Tiers<Image>, key: string, image: Image, ops: seq<Op<Image>>)
    requires OnDisk(t, key, image)
    requires forall i :: 0 <= i < |ops| ==> !Overwrites(ops[i], key)
    ensures OnDisk(Run(t, ops), key, image)
    decreases |ops|
  {
    if ops != [] {
      var t' := Apply(t, ops[0]);
      assert !Overwrites(ops[0], key);
      assert OnDisk(t', key, image);
      RunKeepsDiskEntry(t', key, image, ops[1..]);
    }
  }

  /**
   * Round trip through the memory tier: after saving `image` for `url`,
   * whether or not the disk write throws, and any later calls that neither
   * save under the same key nor evict it, a read returns `image`.
   */
  lemma {:induction false} SaveThenGet<Image>(t: Tiers<Image>, image: Image, url: Url, fault: Option<ImageError>, ops: seq<Op<Image>>)
    requires forall i :: 0 <= i < |ops| ==> !Overwrites(ops[i], url.absoluteString) && !Drops(ops[i], url.absoluteString)
    ensures Get(Run(Save(t, image, url, fault).0, ops), url).1 == Ok(image)
  {
    RunKeepsMemoryEntry(Save(t, image, url, fault).0, url.absoluteString, image, ops);
  }

  /**
   * Round trip through the disk tier: when a disk tier exists and the disk
   * write succeeds, a later read returns `image` even if the memory tier
   * dropped the key in between, since both tiers use the same key. Only a
   * later save under the same key can change the answer.
   */
  lemma {:induction false} DurableSaveThenGet<Image>(t: Tiers<Image>, image: Image, url: Url, ops: seq<Op<Image>>)
    requires t.disk.Some?
    requires forall i :: 0 <= i < |ops| ==> !Overwrites(ops[i], url.absoluteString)
    ensures Get(Run(Save(t, image, url, None).0, ops), url).1 == Ok(image)
  {
    RunKeepsDiskEntry(Save(t, image, url, None).0, url.absoluteString, image, ops);
  }

  /**
   * Without a disk tier every save passes, and reads fail exactly for the
   * keys the memory tier does not hold.
   */
  lemma {:induction false} MemoryOnlyDegradation<Image>(t: Tiers<Image>, ops: seq<Op<Image>>, image: Image, url: Url, fault: Option<ImageError>)
    requires t.disk.None?
    ensures Run(t, ops).disk.None?
    ensures Save(Run(t, ops), image, url, fault).1 == Pass
    ensures Get(Run(t, ops), url).1.Err? <==> url.absoluteString !in Run(t, ops).memory
  {
  }
}
