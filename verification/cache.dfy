/**
 * The response cache shared by all connections (struct Cache with
 * cache_init, cache_search and cache_add). The source keeps a singly linked
 * list of CachedItem nodes; here the list is a sequence, head first, that the
 * methods reassign. Both proxy.c and proxy-2.c contain the same cache code.
 * The mutex around each call is left out: each call is one atomic step.
 */
module ProxyCache {
  import opened Options
  import opened Limits

  /** One cached response: the URI it was stored under, the response bytes and their count. */
  datatype CachedItem = CachedItem(uri: string, response: string, size: nat)

  /** The sum of the sizes of `items`. */
  function TotalSize(items: seq<CachedItem>): nat
  {
    if items == [] then 0 else items[0].size + TotalSize(items[1..])
  }

  /** Every item's size field counts its response. */
  ghost predicate WellSized(items: seq<CachedItem>)
  {
    forall i :: 0 <= i < |items| ==> items[i].size == |items[i].response|
  }

  /** The first item stored under `uri`, walking from the head. */
  function Lookup(items: seq<CachedItem>, uri: string): (r: Option<CachedItem>)
    ensures r.Some? ==> exists i :: 0 <= i < |items| && items[i] == r.value && FirstMatch(items, uri, i)
    ensures r.None? ==> forall i :: 0 <= i < |items| ==> items[i].uri != uri
  {
    if items == [] then None
    else if items[0].uri == uri then
      assert FirstMatch(items, uri, 0);
      Some(items[0])
    else
      var r := Lookup(items[1..], uri);
      if r.Some? then
        var i :| 0 <= i < |items| - 1 && items[1..][i] == r.value && FirstMatch(items[1..], uri, i);
        assert FirstMatch(items, uri, i + 1);
        r
      else r
  }

  /** Index `i` holds the first item stored under `uri`. */
  predicate FirstMatch(items: seq<CachedItem>, uri: string, i: nat)
  {
    i < |items| && items[i].uri == uri && forall j :: 0 <= j < i ==> items[j].uri != uri
  }

  /** Lookup finds the item at the first index stored under `uri`. */
  lemma {:induction false} LookupFirstMatch(items: seq<CachedItem>, uri: string, i: nat)
    requires FirstMatch(items, uri, i)
    ensures Lookup(items, uri) == Some(items[i])
    decreases i
  {
    if i > 0 {
      LookupFirstMatch(items[1..], uri, i - 1);
    }
  }

  /**
   * How many items cache_add pops off the head before an object of `size`
   * bytes fits (the eviction loop of proxy.c:327-334 and proxy-2.c:401-411).
   */
  function EvictCount(items: seq<CachedItem>, size: nat): (k: nat)
    requires size <= MaxCacheSize
    ensures k <= |items|
    decreases |items|
  {
    if TotalSize(items) + size <= MaxCacheSize then 0
    else 1 + EvictCount(items[1..], size)
  }

  /** After the pops, what is left and the new object fit in the cache. */
  lemma {:induction false} EvictCountFits(items: seq<CachedItem>, size: nat)
    requires size <= MaxCacheSize
    ensures TotalSize(items[EvictCount(items, size)..]) + size <= MaxCacheSize
    decreases |items|
  {
    if TotalSize(items) + size > MaxCacheSize {
      EvictCountFits(items[1..], size);
      assert items[1..][EvictCount(items[1..], size)..] == items[EvictCount(items, size)..];
    }
  }

  /** No pop was wasted: with any fewer pops the object would not fit. */
  lemma {:induction false} EvictCountMinimal(items: seq<CachedItem>, size: nat, j: nat)
    requires size <= MaxCacheSize && j < EvictCount(items, size)
    ensures TotalSize(items[j..]) + size > MaxCacheSize
    decreases |items|
  {
    if j > 0 {
      EvictCountMinimal(items[1..], size, j - 1);
      assert items[1..][j - 1..] == items[j..];
    }
  }

  /**
   * The items popped are those nearest the head, which are the ones added
   * last: with a 600000-byte item `newer` added after a 400000-byte item
   * `older`, adding 500000 bytes drops `newer` and keeps `older`.
   */
  lemma EvictsNewestFirst(newer: CachedItem, older: CachedItem)
    requires newer.size == 600000 && older.size == 400000
    ensures EvictCount([newer, older], 500000) == 1
    ensures [newer, older][EvictCount([newer, older], 500000)..] == [older]
  {
    var items := [newer, older];
    assert items[1..] == [older] && [older][1..] == [];
    assert TotalSize([older]) == 400000;
    assert TotalSize(items) == 1000000;
    assert EvictCount([older], 500000) == 0;
  }

  /** The cache: the list of items, head first, and the running total of their sizes. */
  class Cache {
    var items: seq<CachedItem>
    var totalSize: int

    /** total_size is the sum of the sizes, which never exceeds MAX_CACHE_SIZE. */
    ghost predicate Valid()
      reads this
    {
      totalSize == TotalSize(items) && totalSize <= MaxCacheSize && WellSized(items)
    }

    /** cache_init (proxy.c:298-302, proxy-2.c:360-364): an empty list with total 0. */
    constructor ()
      ensures Valid() && items == []
    {
      items := [];
      totalSize := 0;
    }

    /**
     * cache_search (proxy.c:306-316, proxy-2.c:371-387): walk from the head
     * and return the first item whose URI equals `uri`, or nothing.
     */
    method Search(uri: string) returns (r: Option<CachedItem>)
      ensures r == Lookup(items, uri)
    {
      var i := 0;
      while i < |items|
        invariant 0 <= i <= |items|
        invariant forall j :: 0 <= j < i ==> items[j].uri != uri
      {
        if items[i].uri == uri {
          LookupFirstMatch(items, uri, i);
          return Some(items[i]);
        }
        i := i + 1;
      }
      return None;
    }

    /**
     * cache_add (proxy.c:320-345, proxy-2.c:394-432). A response larger than
     * MAX_CACHE_SIZE is ignored. Otherwise items are popped off the HEAD
     * until the response fits, and the new item is pushed onto the head.
     * Because the head is also where items are pushed, the items popped are
     * the most recently added ones. An item already stored under `uri` is
     * not removed; the new one shadows it.
     */
    method Add(uri: string, response: string)
      requires Valid()
      modifies this
      ensures Valid()
      ensures |response| > MaxCacheSize ==> items == old(items)
      ensures |response| <= MaxCacheSize ==>
        items == [CachedItem(uri, response, |response|)] + old(items)[EvictCount(old(items), |response|)..]
      ensures |response| <= MaxCacheSize ==> Lookup(items, uri) == Some(CachedItem(uri, response, |response|))
    {
      var size := |response|;
      if size > MaxCacheSize {
        return;
      }
      while totalSize + size > MaxCacheSize
        invariant totalSize == TotalSize(items) && WellSized(items)
        invariant EvictCount(items, size) <= EvictCount(old(items), size)
        invariant items == old(items)[EvictCount(old(items), size) - EvictCount(items, size)..]
        decreases |items|
      {
        // the list cannot be empty here: an empty list totals 0 and size <= MAX_CACHE_SIZE
        var oldest := items[0];
        items := items[1..];
        totalSize := totalSize - oldest.size;
      }
      items := [CachedItem(uri, response, size)] + items;
      totalSize := totalSize + size;
    }
  }
}
