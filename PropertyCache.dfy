/**
 The device's property cache and its dirty list as values: what `get_property`
 reads, what `set_property` writes, and the code-to-value map `push_state_update`
 builds from the dirty list. The `Device` class keeps these in fields and is
 specified by the functions here.
 */
module PropertyCache {
  import opened Wrappers

  /** `Device._properties`: `None` until the first write or pull, then a code-to-value dict. */
  type Cache = Option<map<string, int>>

  /** The cache and the ordered list of codes changed locally since the last push. */
  datatype CacheState = CacheState(properties: Cache, dirty: seq<string>)

  /** `d.get(code)` on a dict. */
  function Get(d: map<string, int>, code: string): Option<int>
  {
    if code in d then Some(d[code]) else None
  }

  /** `get_property`: `None` for a missing or empty cache, else the cached value if there is one. */
  function Lookup(cache: Cache, code: string): (r: Option<int>)
    ensures cache.None? || cache.value == map[] ==> r.None?
    ensures r.Some? <==> cache.Some? && code in cache.value
    ensures r.Some? ==> r.value == cache.value[code]
  {
    if cache.Some? && cache.value != map[] then Get(cache.value, code) else None
  }

  /** No code is listed twice. */
  predicate NoDuplicates(s: seq<string>)
  {
    forall i, j :: 0 <= i < j < |s| ==> s[i] != s[j]
  }

  /** How many times `x` is listed in `s`. */
  function Occurrences(s: seq<string>, x: string): nat
  {
    if s == [] then 0
    else (if s[|s| - 1] == x then 1 else 0) + Occurrences(s[..|s| - 1], x)
  }

  /** In a list without duplicates a code is listed once if at all. */
  lemma {:induction false} OccurrencesWithoutDuplicates(s: seq<string>, x: string)
    requires NoDuplicates(s)
    ensures Occurrences(s, x) == if x in s then 1 else 0
  {
    if s != [] {
      var init := s[..|s| - 1];
      assert s == init + [s[|s| - 1]];
      assert NoDuplicates(init);
      OccurrencesWithoutDuplicates(init, x);
      assert s[|s| - 1] in init ==> false;
    }
  }

  /** The dirty-list part of `set_property`: append the code unless it is listed already. */
  function MarkDirty(dirty: seq<string>, code: string): (r: seq<string>)
    ensures code in r
    ensures forall c :: c in r <==> c in dirty || c == code
    ensures |dirty| <= |r| <= |dirty| + 1 && r[..|dirty|] == dirty
    ensures NoDuplicates(dirty) ==> NoDuplicates(r)
  {
    if code in dirty then dirty else dirty + [code]
  }

  /** What the class keeps true: no code is dirty twice, and dirty codes imply a cache dict. */
  predicate Consistent(s: CacheState)
  {
    NoDuplicates(s.dirty) && (s.dirty != [] ==> s.properties.Some?)
  }

  /**
   `set_property(name, value)` with `code == name.value`: a write of the value already
   cached changes nothing; any other write stores the value and marks the code dirty.
   */
  function Write(s: CacheState, code: string, v: int): (t: CacheState)
    ensures Lookup(t.properties, code) == Some(v)
    ensures forall c :: c != code ==> Lookup(t.properties, c) == Lookup(s.properties, c)
    ensures Lookup(s.properties, code) == Some(v) ==> t == s
    ensures Lookup(s.properties, code) != Some(v) ==> t.dirty == MarkDirty(s.dirty, code)
    ensures Consistent(s) ==> Consistent(t)
  {
    // `if not self._properties: self._properties = {}`
    var props := if s.properties.None? || s.properties.value == map[] then map[]
                 else s.properties.value;
    if Get(props, code) == Some(v) then s
    else CacheState(Some(props[code := v]), MarkDirty(s.dirty, code))
  }

  /** Writing the same value twice is the same as writing it once. */
  lemma WriteIsIdempotent(s: CacheState, code: string, v: int)
    ensures Write(Write(s, code, v), code, v) == Write(s, code, v)
  {
  }

  /** A write that changes the value leaves its code listed exactly once. */
  lemma EffectiveWriteListsOnce(s: CacheState, code: string, v: int)
    requires Consistent(s)
    requires Lookup(s.properties, code) != Some(v)
    ensures Occurrences(Write(s, code, v).dirty, code) == 1
  {
    OccurrencesWithoutDuplicates(Write(s, code, v).dirty, code);
  }

  /** Repeating a write never lists its code more than once. */
  lemma RepeatedWriteListsAtMostOnce(s: CacheState, code: string, v: int)
    requires Consistent(s)
    ensures Occurrences(Write(Write(s, code, v), code, v).dirty, code) <= 1
  {
    WriteIsIdempotent(s, code, v);
    OccurrencesWithoutDuplicates(Write(s, code, v).dirty, code);
  }

  /** Setting power to 1 twice on a fresh device: "Pow" is cached as 1 and dirty once. */
  lemma PowerTwiceExample()
    ensures Write(Write(CacheState(None, []), "Pow", 1), "Pow", 1)
            == CacheState(Some(map["Pow" := 1]), ["Pow"])
  {
  }

  /**
   The map the loop of `push_state_update` builds: for each dirty code in order,
   `props[name] = self._properties.get(name)`.
   */
  function Pending(dirty: seq<string>, props: map<string, int>): map<string, Option<int>>
  {
    if dirty == [] then map[]
    else
      var last := dirty[|dirty| - 1];
      Pending(dirty[..|dirty| - 1], props)[last := Get(props, last)]
  }

  /** The pushed map has exactly the dirty codes as keys, each with its cached value or `None`. */
  lemma {:induction false} PendingContents(dirty: seq<string>, props: map<string, int>)
    ensures Pending(dirty, props).Keys == set c | c in dirty
    ensures forall c :: c in Pending(dirty, props) ==> Pending(dirty, props)[c] == Get(props, c)
  {
    if dirty != [] {
      var init := dirty[..|dirty| - 1];
      assert dirty == init + [dirty[|dirty| - 1]];
      PendingContents(init, props);
    }
  }

  /** Without duplicates in the dirty list, every dirty code is its own entry of the pushed map. */
  lemma {:induction false} PendingSize(dirty: seq<string>, props: map<string, int>)
    requires NoDuplicates(dirty)
    ensures |Pending(dirty, props)| == |dirty|
  {
    if dirty != [] {
      var init := dirty[..|dirty| - 1];
      assert dirty == init + [dirty[|dirty| - 1]];
      assert NoDuplicates(init);
      PendingSize(init, props);
      PendingContents(init, props);
      assert dirty[|dirty| - 1] !in Pending(init, props);
    }
  }

  /** A dirty code the cache no longer holds, after a pull replaced it, is pushed as `None`. */
  lemma PendingAfterReplacedCache(code: string, props: map<string, int>)
    requires code !in props
    ensures Pending([code], props) == map[code := None]
  {
  }
}
