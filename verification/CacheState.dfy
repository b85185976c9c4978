/** The segment cache's shared state, its critical sections and the files behind it
    (internal/streaming/segment_cache.go). */
module CacheState {
  import opened SegmentNames
  import opened MapSums

  // ----- Keys, directories and paths -----

  predicate SafeChar(c: char) {
    'a' <= c <= 'z' || 'A' <= c <= 'Z' || '0' <= c <= '9' || c == '-' || c == '_'
  }

  /** The directory of a video: its id with every other character replaced. */
  function SanitizeKey(key: string): (dir: string)
    ensures |dir| == |key|
    ensures forall i :: 0 <= i < |key| ==> dir[i] == if SafeChar(key[i]) then key[i] else '_'
  {
    seq(|key|, i requires 0 <= i < |key| => if SafeChar(key[i]) then key[i] else '_')
  }

  /** Video ids are UUIDs: sanitizing leaves them alone. */
  type VideoId = s: string | forall i :: 0 <= i < |s| ==> SafeChar(s[i])

  /** Names both a segment in the inflight table and its file under the cache directory. */
  function Key(v: VideoId, idx: nat): string {
    v + "/" + SegmentName(idx)
  }

  /** The prefix test of hasInflightLocked, and being in the video's directory. */
  predicate Under(path: string, v: string) {
    HasPrefix(path, v + "/")
  }

  lemma DirectoryIsId(v: VideoId)
    ensures SanitizeKey(v) == v
  {
    assert forall i :: 0 <= i < |v| ==> SanitizeKey(v)[i] == v[i];
  }

  /** The id of the video a path lies under ends at its first slash. */
  lemma SlashAfterId(path: string, v: VideoId)
    requires Under(path, v)
    ensures |v| < |path| && path[..|v|] == v && path[|v|] == '/'
    ensures forall i :: 0 <= i < |v| ==> path[i] != '/'
  {
    var prefix := v + "/";
    assert forall i :: 0 <= i < |prefix| ==> path[i] == prefix[i];
    assert forall i :: 0 <= i < |v| ==> path[i] == v[i];
  }

  /** No path lies under two videos: an id holds no slash. */
  lemma UnderOne(path: string, v: VideoId, w: VideoId)
    requires Under(path, v) && Under(path, w)
    ensures v == w
  {
    SlashAfterId(path, v);
    SlashAfterId(path, w);
  }

  /** The prefix test is exact, and a key names one segment. */
  lemma KeyIsExact(v: VideoId, idx: nat, w: VideoId)
    ensures Under(Key(v, idx), w) <==> v == w
  {
    assert Key(v, idx)[..|v| + 1] == v + "/";
    if Under(Key(v, idx), w) {
      UnderOne(Key(v, idx), v, w);
    }
  }

  lemma KeysDiffer(v: VideoId, i: nat, w: VideoId, j: nat)
    requires Key(v, i) == Key(w, j)
    ensures v == w && i == j
  {
    KeyIsExact(v, i, v);
    KeyIsExact(w, j, v);
    assert Key(v, i)[|v| + 1..] == SegmentName(i);
    assert Key(w, j)[|w| + 1..] == SegmentName(j);
    NamesDiffer(i, j);
  }

  // ----- State -----

  datatype Entry = Entry(size: int, lastAccess: int)

  /** videos and inflight are the fields guarded by the lock; a channel is named by a number.
      disk holds the finalised files under the cache directory with their sizes, dirs the video
      directories that exist. */
  datatype Cache = Cache(
    videos: map<VideoId, Entry>,
    inflight: map<string, nat>,
    disk: map<string, int>,
    dirs: set<VideoId>)

  predicate HasInflight(inflight: map<string, nat>, v: VideoId) {
    exists key :: key in inflight && Under(key, v)
  }

  function Sizes(videos: map<VideoId, Entry>): map<VideoId, int> {
    map v | v in videos :: videos[v].size
  }

  ghost function Total(videos: map<VideoId, Entry>): int {
    Sum(Sizes(videos))
  }

  function SizeOf(videos: map<VideoId, Entry>, v: VideoId): int {
    if v in videos then videos[v].size else 0
  }

  // ----- Critical sections -----

  datatype Found = Hit | Join(ch: nat) | Lead

  /** The lookup of EnsureSegment; the caller that leads inserts the channel ch. */
  function Touch(c: Cache, v: VideoId, now: int): Cache {
    if v in c.videos then c.(videos := c.videos[v := c.videos[v].(lastAccess := now)]) else c
  }

  function Lookup(c: Cache, v: VideoId, idx: nat, now: int, ch: nat): (Cache, Found) {
    var c' := Touch(c, v, now);
    if Key(v, idx) in c.disk then (c', Hit)
    else if Key(v, idx) in c.inflight then (c', Join(c.inflight[Key(v, idx)]))
    else (c'.(inflight := c.inflight[Key(v, idx) := ch]), Lead)
  }

  /** The accounting of a finalised segment, before eviction. */
  function Charge(c: Cache, v: VideoId, size: int, now: int): Cache {
    c.(videos := c.videos[v := Entry(SizeOf(c.videos, v) + size, now)])
  }

  /** Removing a video: its directory with everything in it, and its entry. */
  function Drop(c: Cache, v: VideoId): Cache {
    Cache(c.videos - {v}, c.inflight, (map p | p in c.disk && !Under(p, v) :: c.disk[p]), c.dirs - {v})
  }

  function DropAll(c: Cache, victims: seq<VideoId>): Cache
    decreases |victims|
  {
    if victims == [] then c else DropAll(Drop(c, victims[0]), victims[1..])
  }

  function Clear(c: Cache, v: VideoId, idx: nat): Cache {
    c.(inflight := c.inflight - {Key(v, idx)})
  }

  // ----- Eviction -----

  /** evictLocked may remove v. */
  predicate Eligible(c: Cache, current: VideoId, v: VideoId) {
    v in c.videos && v != current && !HasInflight(c.inflight, v)
  }

  ghost predicate Oldest(c: Cache, current: VideoId, v: VideoId) {
    && Eligible(c, current, v)
    && forall w :: Eligible(c, current, w) ==> c.videos[v].lastAccess <= c.videos[w].lastAccess
  }

  /** Eviction has nothing more to do. */
  ghost predicate Settled(c: Cache, max: int, current: VideoId) {
    max <= 0 || Total(c.videos) <= max || forall v :: !Eligible(c, current, v)
  }

  /** victims are the videos eviction may remove from c, in the order it removes them. */
  ghost predicate Evicts(c: Cache, max: int, current: VideoId, victims: seq<VideoId>)
    decreases |victims|
  {
    if victims == [] then Settled(c, max, current)
    else
      !Settled(c, max, current) && Oldest(c, current, victims[0]) &&
      Evicts(Drop(c, victims[0]), max, current, victims[1..])
  }

  /** Eviction from c may have removed victims and reached d, settled or not. */
  ghost predicate EvictsUpTo(c: Cache, max: int, current: VideoId, victims: seq<VideoId>, d: Cache)
    decreases |victims|
  {
    if victims == [] then d == c
    else
      !Settled(c, max, current) && Oldest(c, current, victims[0]) &&
      EvictsUpTo(Drop(c, victims[0]), max, current, victims[1..], d)
  }

  lemma {:induction false} EvictsOneMore(c: Cache, max: int, current: VideoId, victims: seq<VideoId>,
                                         d: Cache, v: VideoId)
    requires EvictsUpTo(c, max, current, victims, d) && !Settled(d, max, current) && Oldest(d, current, v)
    ensures EvictsUpTo(c, max, current, victims + [v], Drop(d, v))
    decreases |victims|
  {
    if victims == [] {
      assert [v][1..] == [];
    } else {
      EvictsOneMore(Drop(c, victims[0]), max, current, victims[1..], d, v);
      assert (victims + [v])[1..] == victims[1..] + [v];
    }
  }

  lemma {:induction false} EvictsToTheEnd(c: Cache, max: int, current: VideoId, victims: seq<VideoId>, d: Cache)
    requires EvictsUpTo(c, max, current, victims, d) && Settled(d, max, current)
    ensures Evicts(c, max, current, victims) && d == DropAll(c, victims)
    decreases |victims|
  {
    if victims != [] {
      EvictsToTheEnd(Drop(c, victims[0]), max, current, victims[1..], d);
    }
  }

  lemma {:induction false} DropAllFrame(c: Cache, victims: seq<VideoId>)
    ensures var d := DropAll(c, victims);
            d.inflight == c.inflight && d.videos == c.videos - (set v | v in victims)
    decreases |victims|
  {
    if victims != [] {
      DropAllFrame(Drop(c, victims[0]), victims[1..]);
      assert victims == [victims[0]] + victims[1..];
      assert (set v | v in victims) == {victims[0]} + (set v | v in victims[1..]);
    }
  }

  /** A removed video leaves neither an entry nor a directory nor a file, and the others keep theirs. */
  lemma {:induction false} RemovedAreGone(c: Cache, victims: seq<VideoId>)
    ensures var d := DropAll(c, victims);
            && d.videos == c.videos - (set v | v in victims) && d.dirs == c.dirs - (set v | v in victims)
            && forall p :: p in d.disk <==> p in c.disk && forall v :: v in victims ==> !Under(p, v)
    ensures forall p :: p in DropAll(c, victims).disk ==> p in c.disk && DropAll(c, victims).disk[p] == c.disk[p]
    decreases |victims|
  {
    if victims != [] {
      RemovedAreGone(Drop(c, victims[0]), victims[1..]);
      assert victims == [victims[0]] + victims[1..];
      assert (set v | v in victims) == {victims[0]} + (set v | v in victims[1..]);
    }
  }

  /** Dropping a video takes its eligibility and nobody else's. */
  lemma DropEligible(c: Cache, current: VideoId, v: VideoId, w: VideoId)
    ensures Eligible(Drop(c, v), current, w) <==> v != w && Eligible(c, current, w)
    ensures v != w && w in c.videos ==> w in Drop(c, v).videos && Drop(c, v).videos[w] == c.videos[w]
  {
  }

  lemma {:induction false} OldestOf(c: Cache, some: set<VideoId>) returns (v: VideoId)
    requires some != {} && some <= c.videos.Keys
    ensures v in some && forall w :: w in some ==> c.videos[v].lastAccess <= c.videos[w].lastAccess
    decreases some
  {
    var first :| first in some;
    v := first;
    var rest := some - {first};
    if rest != {} {
      var u := OldestOf(c, rest);
      if c.videos[u].lastAccess < c.videos[first].lastAccess { v := u; }
    }
    forall w | w in some ensures c.videos[v].lastAccess <= c.videos[w].lastAccess {
      assert w == first || w in rest;
    }
  }

  /** Eviction always has a way to end. */
  lemma {:induction false} EvictionEnds(c: Cache, max: int, current: VideoId) returns (victims: seq<VideoId>)
    ensures Evicts(c, max, current, victims)
    decreases |c.videos|
  {
    victims := [];
    if !Settled(c, max, current) {
      var w :| Eligible(c, current, w);
      var eligible := set u | u in c.videos && Eligible(c, current, u);
      assert w in eligible;
      var v := OldestOf(c, eligible);
      assert Oldest(c, current, v) by {
        forall u | Eligible(c, current, u) ensures c.videos[v].lastAccess <= c.videos[u].lastAccess {
          assert u in eligible;
        }
      }
      assert |Drop(c, v).videos| < |c.videos| by { assert c.videos.Keys == Drop(c, v).videos.Keys + {v}; }
      victims := EvictionEnds(Drop(c, v), max, current);
      victims := [v] + victims;
    }
  }

  /** After eviction the total fits, or only the current video and videos with a segment in
      flight remain. */
  lemma {:induction false} EvictionSettles(c: Cache, max: int, current: VideoId, victims: seq<VideoId>)
    requires Evicts(c, max, current, victims)
    ensures var d := DropAll(c, victims);
            max <= 0 || Total(d.videos) <= max ||
            forall v :: v in d.videos ==> v == current || HasInflight(d.inflight, v)
    decreases |victims|
  {
    if victims == [] {
      forall v | v in c.videos && !Eligible(c, current, v) ensures v == current || HasInflight(c.inflight, v) {
      }
    } else {
      EvictionSettles(Drop(c, victims[0]), max, current, victims[1..]);
    }
  }

  /** Eviction removes only eligible videos, each last used no later than any eligible survivor. */
  lemma {:induction false} EvictedWereOldest(c: Cache, max: int, current: VideoId, victims: seq<VideoId>,
                                             i: nat, w: VideoId)
    requires Evicts(c, max, current, victims) && i < |victims|
    ensures victims[i] in c.videos && victims[i] != current && !HasInflight(c.inflight, victims[i])
    ensures w in DropAll(c, victims).videos && w != current && !HasInflight(c.inflight, w) ==>
              w in c.videos && c.videos[victims[i]].lastAccess <= c.videos[w].lastAccess
    decreases |victims|
  {
    var v := victims[0];
    DropAllFrame(c, victims);
    if i > 0 {
      EvictedWereOldest(Drop(c, v), max, current, victims[1..], i - 1, w);
      DropEligible(c, current, v, victims[i]);
      DropEligible(c, current, v, w);
    }
  }

  /** Nothing is evicted needlessly: with the last victim put back the total would not fit. */
  lemma {:induction false} EvictionIsNeeded(c: Cache, max: int, current: VideoId, victims: seq<VideoId>)
    requires Evicts(c, max, current, victims) && victims != []
    ensures var last := victims[|victims| - 1];
            max > 0 && last in c.videos && Total(DropAll(c, victims).videos) + c.videos[last].size > max
    decreases |victims|
  {
    var v := victims[0];
    if |victims| == 1 {
      DropTotal(c, v);
      assert DropAll(c, victims) == Drop(c, v);
    } else {
      EvictionIsNeeded(Drop(c, v), max, current, victims[1..]);
    }
  }

  lemma DropTotal(c: Cache, v: VideoId)
    requires v in c.videos
    ensures Total(Drop(c, v).videos) + c.videos[v].size == Total(c.videos)
  {
    SumRemove(Sizes(c.videos), v);
    assert Sizes(c.videos) - {v} == Sizes(c.videos - {v});
  }

  // ----- Idle sweep -----

  /** Sweep removes v at time now. */
  predicate Idle(c: Cache, now: int, timeout: int, v: VideoId) {
    v in c.videos && now - c.videos[v].lastAccess > timeout && !HasInflight(c.inflight, v)
  }

  /** victims lists the idle videos once each. */
  ghost predicate Sweeps(c: Cache, now: int, timeout: int, victims: seq<VideoId>) {
    && (forall i, j :: 0 <= i < j < |victims| ==> victims[i] != victims[j])
    && (forall v :: v in victims <==> Idle(c, now, timeout, v))
  }
}
