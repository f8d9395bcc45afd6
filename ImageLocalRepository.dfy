/**
 * The local image repository: an in-memory tier in front of an optional
 * disk tier, both updated in place. Every method is one atomic step; what
 * each step does to the two tiers is given by the functions of TieredCache.
 */
module ImageLocalRepository {
  import opened Wrappers
  import opened TieredCache

  class DefaultImageLocalRepository<Image> {
    /** The memory tier, keyed by the URL's absolute string. */
    var memoryCache: map<string, Image>
    /** The disk tier, or `None` when it could not be created. */
    var diskCache: Option<map<string, Image>>

    /** Both tiers as one value. */
    function State(): Tiers<Image>
      reads this
    {
      Tiers(memoryCache, diskCache)
    }

    /**
     * `diskInit` is what the disk store's initialiser yields: `None` when it
     * throws, otherwise the images already stored on disk. The memory tier
     * starts empty.
     */
    constructor (diskInit: Option<map<string, Image>>)
      ensures memoryCache == map[] && diskCache == diskInit
    {
      memoryCache := map[];
      diskCache := diskInit;
    }

    /** Memory first; on a miss, the disk tier, promoting a hit into memory. */
    method GetImage(url: Url) returns (r: Result<Image, ImageError>)
      modifies this
      ensures (State(), r) == Get(old(State()), url)
    {
      r := MemoryCachedImage(url);
      if r.Ok? {
        return;
      }
      r := ImageFromDiskCache(url);
      if r.Err? {
        return;
      }
      SaveImageToMemoryCache(r.value, url);
    }

    /**
     * Writes the memory tier, then the disk tier; `fault` is the error the
     * disk write throws, if it throws.
     */
    method SaveImage(image: Image, url: Url, fault: Option<ImageError>) returns (o: Outcome)
      modifies this
      ensures (State(), o) == Save(old(State()), image, url, fault)
    {
      SaveImageToMemoryCache(image, url);
      o := SaveImageToDisk(image, url, fault);
    }

    method SaveImageToMemoryCache(image: Image, url: Url)
      modifies this
      ensures State() == SaveToMemory(old(State()), image, url)
    {
      memoryCache := memoryCache[url.absoluteString := image];
    }

    /** With no disk tier, this write does nothing and passes. */
    method SaveImageToDisk(image: Image, url: Url, fault: Option<ImageError>) returns (o: Outcome)
      modifies this
      ensures (State(), o) == SaveToDisk(old(State()), image, url, fault)
    {
      match diskCache
      case None =>
        o := Pass;
      case Some(d) =>
        match fault
        case Some(e) =>
          o := Fail(e);
        case None =>
          diskCache := Some(d[url.absoluteString := image]);
          o := Pass;
    }

    /** Reads the disk tier under the URL's key; fails with `ImageNotFound` without a disk tier. */
    method ImageFromDiskCache(url: Url) returns (r: Result<Image, ImageError>)
      ensures diskCache.None? ==> r == Err(ImageNotFound)
      ensures diskCache.Some? ==>
                (r.Ok? <==> url.absoluteString in diskCache.value) &&
                (r.Ok? ==> r.value == diskCache.value[url.absoluteString])
      ensures r.Err? ==> r.error == ImageNotFound
    {
      match diskCache
      case None =>
        r := Err(ImageNotFound);
      case Some(d) =>
        if url.absoluteString in d {
          r := Ok(d[url.absoluteString]);
        } else {
          r := Err(ImageNotFound);
        }
    }

    /** Reads the memory tier under the URL's key. */
    method MemoryCachedImage(url: Url) returns (r: Result<Image, ImageError>)
      ensures r.Ok? <==> url.absoluteString in memoryCache
      ensures r.Ok? ==> r.value == memoryCache[url.absoluteString]
      ensures r.Err? ==> r.error == ImageNotFound
    {
      var key := url.absoluteString;
      if key in memoryCache {
        r := Ok(memoryCache[key]);
      } else {
        r := Err(ImageNotFound);
      }
    }

    /** The system drops some entries of the memory tier; the disk tier is untouched. */
    method Evict(keys: set<string>)
      modifies this
      ensures State() == TieredCache.Evict(old(State()), keys)
    {
      memoryCache := memoryCache - keys;
    }
  }

  /** A save followed by a read of the same URL returns the saved image, whatever the disk does. */
  method SaveThenRead<Image>(repo: DefaultImageLocalRepository<Image>, image: Image, url: Url, fault: Option<ImageError>)
    returns (r: Result<Image, ImageError>)
    modifies repo
    ensures r == Ok(image)
  {
    var _ := repo.SaveImage(image, url, fault);
    r := repo.GetImage(url);
  }
}
