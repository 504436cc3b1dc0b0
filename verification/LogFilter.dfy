/** The log bridge's two lookups by target: the cache, a trie over the target's segments, and the
    level filters, where the longest registered module prefix wins. */
module LogFilter {
  import opened Types

  /** From 0 (off) to 5 (trace). */
  type Level = n: nat | n <= 5

  const TRACE: Level := 5

  datatype CacheEntry = CacheEntry(filter: Level, logger: nat)

  datatype Node = Node(local: Option<CacheEntry>, children: map<string, Node>)

  const EMPTY := Node(None, map[])

  // ---------------------------------------------------------------------------------------
  // Segments of a target
  // ---------------------------------------------------------------------------------------

  predicate SepAt(s: string, i: nat) {
    i + 1 < |s| && s[i] == ':' && s[i + 1] == ':'
  }

  /** The first separator at or after `from`. */
  function FindSep(s: string, from: nat): (i: Option<nat>)
    requires from <= |s|
    ensures i.Some? ==> from <= i.value && SepAt(s, i.value) && forall k :: from <= k < i.value ==> !SepAt(s, k)
    ensures i.None? ==> forall k :: from <= k ==> !SepAt(s, k)
    decreases |s| - from
  {
    if from == |s| then None else if SepAt(s, from) then Some(from) else FindSep(s, from + 1)
  }

  /** The segments from `from` on, cut at each separator found from left to right. */
  function Split(s: string, from: nat): (segments: seq<string>)
    requires from <= |s|
    ensures segments != []
    decreases |s| - from
  {
    var end := FindSep(s, from);
    if end.None? then [s[from..]] else [s[from..end.value]] + Split(s, end.value + 2)
  }

  /** The segments are cut at every separator: none of them contains one. */
  lemma {:induction false} SegmentsPlain(s: string, from: nat)
    requires from <= |s|
    ensures forall segment, k :: segment in Split(s, from) ==> !SepAt(segment, k)
    decreases |s| - from
  {
    var end := FindSep(s, from);
    var stop := if end.Some? then end.value else |s|;
    forall k: nat ensures !SepAt(s[from..stop], k) {
      assert k + 1 < stop - from ==> s[from..stop][k] == s[from + k] && s[from..stop][k + 1] == s[from + k + 1];
      assert from + k < stop ==> !SepAt(s, from + k);
    }
    if end.Some? {
      SegmentsPlain(s, stop + 2);
    } else {
      assert s[from..] == s[from..stop];
    }
  }

  function Join(segments: seq<string>): string {
    if segments == [] then ""
    else if |segments| == 1 then segments[0]
    else segments[0] + "::" + Join(segments[1..])
  }

  lemma {:induction false} JoinSplit(s: string, from: nat)
    requires from <= |s|
    ensures Join(Split(s, from)) == s[from..]
    decreases |s| - from
  {
    var end := FindSep(s, from);
    if end.Some? {
      JoinSplit(s, end.value + 2);
      assert s[end.value..end.value + 2] == "::";
      assert s[from..] == s[from..end.value] + s[end.value..end.value + 2] + s[end.value + 2..];
    }
  }

  lemma {:induction false} JoinSnoc(front: seq<string>, last: string)
    requires front != []
    ensures Join(front + [last]) == Join(front) + "::" + last
  {
    if |front| > 1 {
      JoinSnoc(front[1..], last);
      assert (front + [last])[1..] == front[1..] + [last];
    } else {
      assert (front + [last])[1..] == [last];
    }
  }

  /** Splitting loses nothing, so different targets have different segments. */
  lemma SplitFaithful(s: string, t: string)
    ensures Join(Split(s, 0)) == s
    ensures Split(s, 0) == Split(t, 0) ==> s == t
  {
    JoinSplit(s, 0);
    JoinSplit(t, 0);
  }

  // ---------------------------------------------------------------------------------------
  // The cache
  // ---------------------------------------------------------------------------------------

  /** A new trie that shares everything off the path. */
  function Store(node: Node, path: seq<string>, entry: CacheEntry): Node
    decreases |path|
  {
    if path == [] then node.(local := Some(entry))
    else
      var child := if path[0] in node.children then node.children[path[0]] else EMPTY;
      node.(children := node.children[path[0] := Store(child, path[1..], entry)])
  }

  function Find(node: Node, path: seq<string>): Option<Node>
    decreases |path|
  {
    if path == [] then Some(node)
    else if path[0] in node.children then Find(node.children[path[0]], path[1..])
    else None
  }

  /** The entry stored under a path. */
  function EntryAt(node: Node, path: seq<string>): Option<CacheEntry> {
    var found := Find(node, path);
    if found.Some? then found.value.local else None
  }

  /** Storing under one path is seen under that path only. */
  lemma {:induction false} StoreIsUpdate(node: Node, path: seq<string>, entry: CacheEntry, other: seq<string>)
    ensures EntryAt(Store(node, path, entry), other) == if other == path then Some(entry) else EntryAt(node, other)
    decreases |path|
  {
    if path != [] && other != [] && path[0] == other[0] {
      var child := if path[0] in node.children then node.children[path[0]] else EMPTY;
      StoreIsUpdate(child, path[1..], entry, other[1..]);
      assert path == [path[0]] + path[1..] && other == [other[0]] + other[1..];
      if path[0] !in node.children && other[1..] != [] {
        assert Find(EMPTY, other[1..]).None?;
      }
    }
  }

  /** The entry stored last under a target, for a whole sequence of stores. */
  function StoreAll(stores: seq<(string, CacheEntry)>): Node {
    if stores == [] then EMPTY
    else
      var (target, entry) := stores[|stores| - 1];
      Store(StoreAll(stores[..|stores| - 1]), Split(target, 0), entry)
  }

  function Remembered(stores: seq<(string, CacheEntry)>): map<string, CacheEntry> {
    if stores == [] then map[]
    else
      var (target, entry) := stores[|stores| - 1];
      Remembered(stores[..|stores| - 1])[target := entry]
  }

  /** The trie is a map keyed by the target string. */
  lemma {:induction false} CacheIsMap(stores: seq<(string, CacheEntry)>, target: string)
    ensures var all := Remembered(stores);
            EntryAt(StoreAll(stores), Split(target, 0)) == if target in all then Some(all[target]) else None
  {
    if stores == [] {
      assert Find(EMPTY, Split(target, 0)).None?;
    } else {
      var front := stores[..|stores| - 1];
      var (last, entry) := stores[|stores| - 1];
      CacheIsMap(front, target);
      StoreIsUpdate(StoreAll(front), Split(last, 0), entry, Split(target, 0));
      SplitFaithful(target, last);
    }
  }

  // ---------------------------------------------------------------------------------------
  // The logger
  // ---------------------------------------------------------------------------------------

  datatype Caching = Nothing | Loggers | LoggersAndLevels

  /** The prefix made of the first `k` segments. */
  function Prefix(segments: seq<string>, k: nat): string
    requires k <= |segments|
  {
    Join(segments[..k])
  }

  /** The filter of the longest prefix, of up to `n` whole segments, that has one; `top` if none has. */
  ghost predicate LongestWins(filters: map<string, Level>, top: Level, segments: seq<string>, n: nat, filter: Level)
    requires n <= |segments|
  {
    || (filter == top && forall k :: 1 <= k <= n ==> Prefix(segments, k) !in filters)
    || (exists k :: 1 <= k <= n && Prefix(segments, k) in filters && filter == filters[Prefix(segments, k)] &&
          forall j :: k < j <= n ==> Prefix(segments, j) !in filters)
  }

  lemma NextWins(filters: map<string, Level>, top: Level, segments: seq<string>, n: nat, filter: Level)
    requires n < |segments| && LongestWins(filters, top, segments, n, filter)
    ensures var longer := Prefix(segments, n + 1);
            LongestWins(filters, top, segments, n + 1, if longer in filters then filters[longer] else filter)
  {
    hide Prefix;
  }

  /** At most one filter wins. */
  lemma LongestIsUnique(filters: map<string, Level>, top: Level, segments: seq<string>, n: nat, a: Level, b: Level)
    requires n <= |segments| && LongestWins(filters, top, segments, n, a) && LongestWins(filters, top, segments, n, b)
    ensures a == b
  {
    hide Prefix;
  }

  /** The scan stands at `start`, just after the first `m` segments of the target. */
  ghost predicate Scanned(target: string, segments: seq<string>, start: nat, m: nat) {
    && start <= |target| && m < |segments|
    && Split(target, start) == segments[m..]
    && (m == 0 ==> start == 0)
    && (m > 0 ==> target[..start] == Prefix(segments, m) + "::")
  }

  /** The segment that ends at `stop` completes the prefix up to there. */
  lemma Reached(target: string, segments: seq<string>, start: nat, m: nat, stop: nat)
    requires Scanned(target, segments, start, m) && start <= stop <= |target| && segments[m] == target[start..stop]
    ensures Prefix(segments, m + 1) == target[..stop]
  {
    assert target[..stop] == target[..start] + target[start..stop];
    assert segments[..m + 1] == segments[..m] + [segments[m]];
    if m > 0 {
      JoinSnoc(segments[..m], segments[m]);
    }
  }

  lemma ScansOn(target: string, segments: seq<string>, start: nat, m: nat, stop: nat)
    requires Scanned(target, segments, start, m) && FindSep(target, start) == Some(stop)
    ensures segments[m] == target[start..stop]
    ensures Prefix(segments, m + 1) == target[..stop] && Scanned(target, segments, stop + 2, m + 1)
  {
    hide Join, FindSep;
    assert Split(target, start) == [target[start..stop]] + Split(target, stop + 2);
    assert segments[m] == segments[m..][0] && segments[m + 1..] == segments[m..][1..];
    Reached(target, segments, start, m, stop);
    assert target[..stop + 2] == target[..stop] + target[stop..stop + 2] && target[stop..stop + 2] == "::";
  }

  lemma ScanEnds(target: string, segments: seq<string>, start: nat, m: nat)
    requires Scanned(target, segments, start, m) && FindSep(target, start).None?
    ensures m + 1 == |segments| && Prefix(segments, m + 1) == target
  {
    hide Join, FindSep;
    assert segments[m] == segments[m..][0];
    Reached(target, segments, start, m, |target|);
    assert target[..|target|] == target;
  }

  class LoggerState {
    const topFilter: Level
    const filters: map<string, Level>
    const caching: Caching
    var cache: Node
    var version: nat

    constructor (topFilter: Level, filters: map<string, Level>, caching: Caching)
      ensures this.topFilter == topFilter && this.filters == filters && this.caching == caching && cache == EMPTY
    {
      this.topFilter := topFilter;
      this.filters := filters;
      this.caching := caching;
      cache := EMPTY;
      version := 0;
    }

    method Lookup(target: string) returns (found: Option<Node>)
      ensures found == if caching.Nothing? then None else Find(cache, Split(target, 0))
    {
      if caching.Nothing? {
        return None;
      }
      var node := cache;
      var segments := Split(target, 0);
      for i := 0 to |segments|
        invariant Find(cache, segments) == Find(node, segments[i..])
      {
        assert segments[i..][1..] == segments[i + 1..];
        if segments[i] !in node.children {
          return None;
        }
        node := node.children[segments[i]];
      }
      return Some(node);
    }

    /** Whatever resets or replaces the cache does so outright. */
    method Replace(node: Node)
      modifies this`cache, this`version
      ensures cache == node && version != old(version)
    {
      cache := node;
      version := version + 1;
    }

    /** Swaps only if the cache is still the one that was loaded, not merely an equal one. */
    method CompareAndSwap(loaded: nat, node: Node) returns (swapped: bool)
      modifies this`cache, this`version
      ensures swapped <==> old(version) == loaded
      ensures if swapped then cache == node && version != loaded else cache == old(cache) && version == old(version)
    {
      swapped := version == loaded;
      if swapped {
        Replace(node);
      }
    }

    /** `meanwhile` is what replaced the cache between its load and the swap, if anything did: then
        that stays, and the entry is not stored. */
    method StoreToCache(target: string, entry: CacheEntry, meanwhile: Option<Node>)
      modifies this`cache, this`version
      ensures cache == if meanwhile.Some? then meanwhile.value else Store(old(cache), Split(target, 0), entry)
    {
      var loaded, updated := version, Store(cache, Split(target, 0), entry);
      if meanwhile.Some? {
        Replace(meanwhile.value);
      }
      var _ := CompareAndSwap(loaded, updated);
    }

    method FilterFor(target: string) returns (filter: Level)
      ensures LongestWins(filters, topFilter, Split(target, 0), |Split(target, 0)|, filter)
    {
      hide LongestWins, Prefix, Split, FindSep;
      ghost var m, segments := 0, Split(target, 0);
      NoneYet(filters, topFilter, target);
      var start := 0;
      filter := topFilter;
      var end := FindSep(target, start);
      while end.Some?
        invariant Scanned(target, segments, start, m) && end == FindSep(target, start)
        invariant LongestWins(filters, topFilter, segments, m, filter)
        decreases |target| - start
      {
        ScansOn(target, segments, start, m, end.value);
        NextWins(filters, topFilter, segments, m, filter);
        if target[..end.value] in filters {
          filter := filters[target[..end.value]];
        }
        start := end.value + 2;
        m := m + 1;
        end := FindSep(target, start);
      }
      ScanEnds(target, segments, start, m);
      NextWins(filters, topFilter, segments, m, filter);
      if target in filters {
        filter := filters[target];
      }
    }

    /** A record passes if both the cached logger's level and the module filter let it. */
    method Enabled(level: Level, target: string, cached: Option<Node>) returns (enabled: bool)
      ensures enabled <==>
              && (exists filter :: LongestWins(filters, topFilter, Split(target, 0), |Split(target, 0)|, filter) && level <= filter)
              && (cached.Some? && cached.value.local.Some? ==> level <= cached.value.local.value.filter)
    {
      hide LongestWins, Split;
      var cacheFilter := if cached.Some? && cached.value.local.Some? then cached.value.local.value.filter else TRACE;
      var filter := FilterFor(target);
      ghost var segments := Split(target, 0);
      forall other | LongestWins(filters, topFilter, segments, |segments|, other) ensures other == filter {
        LongestIsUnique(filters, topFilter, segments, |segments|, other, filter);
      }
      enabled := level <= cacheFilter && level <= filter;
    }
  }

  lemma NoneYet(filters: map<string, Level>, top: Level, target: string)
    ensures LongestWins(filters, top, Split(target, 0), 0, top)
    ensures Scanned(target, Split(target, 0), 0, 0)
  {
  }
}
