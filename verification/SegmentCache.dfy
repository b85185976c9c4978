/** The segment cache as a mutable object: each method is one critical section under its lock
    (internal/streaming/segment_cache.go). */
module SegmentCache {
  import opened SegmentTable
  import opened SegmentNames
  import opened MapSums
  import opened CacheState

  class Store {
    const idleTimeout: int
    const maxBytes: int

    var videos: map<VideoId, Entry>
    var inflight: map<string, nat>
    // The file system under the cache directory.
    ghost var disk: map<string, int>
    ghost var dirs: set<VideoId>

    ghost function Model(): Cache
      reads this
    {
      Cache(videos, inflight, disk, dirs)
    }

    constructor (idleTimeout: int, maxBytes: int)
      ensures this.idleTimeout == idleTimeout && this.maxBytes == maxBytes
      ensures Model() == Cache(map[], map[], map[], {})
    {
      this.idleTimeout := idleTimeout;
      this.maxBytes := maxBytes;
      videos, inflight, disk, dirs := map[], map[], map[], {};
    }

    /** The locked part of EnsureSegment's loop. cached tells whether the file exists; ch is the
        channel a leader inserts. */
    method LookupLocked(videoID: VideoId, idx: nat, cached: bool, now: int, ch: nat) returns (found: Found)
      requires cached == (Key(videoID, idx) in disk)
      modifies this`videos, this`inflight
      ensures (Model(), found) == Lookup(old(Model()), videoID, idx, now, ch)
      ensures found == Hit <==> Key(videoID, idx) in disk
      ensures !found.Hit? ==>
                found == if Key(videoID, idx) in old(inflight) then Join(old(inflight)[Key(videoID, idx)]) else Lead
    {
      var key := Key(videoID, idx);
      if videoID in videos {
        videos := videos[videoID := videos[videoID].(lastAccess := now)];
      }
      if cached {
        return Hit;
      }
      if key in inflight {
        return Join(inflight[key]);
      }
      inflight := inflight[key := ch];
      return Lead;
    }

    /** The locked end of generate: book the finalised file, then evict. */
    method BookLocked(videoID: VideoId, size: int, now: int) returns (ghost victims: seq<VideoId>)
      modifies this`videos, this`disk, this`dirs
      ensures Evicts(Charge(old(Model()), videoID, size, now), maxBytes, videoID, victims)
      ensures Model() == DropAll(Charge(old(Model()), videoID, size, now), victims)
    {
      var booked := if videoID in videos then videos[videoID].size else 0;
      videos := videos[videoID := Entry(booked + size, now)];
      victims := EvictLocked(videoID);
    }

    /** The locked end of EnsureSegment. */
    method FinishLocked(videoID: VideoId, idx: nat) returns (closed: nat)
      requires Key(videoID, idx) in inflight
      modifies this`inflight
      ensures closed == old(inflight)[Key(videoID, idx)]
      ensures Model() == Clear(old(Model()), videoID, idx)
    {
      closed := inflight[Key(videoID, idx)];
      inflight := inflight - {Key(videoID, idx)};
    }

    method EvictLocked(current: VideoId) returns (ghost victims: seq<VideoId>)
      modifies this`videos, this`disk, this`dirs
      ensures Evicts(old(Model()), maxBytes, current, victims)
      ensures Model() == DropAll(old(Model()), victims)
    {
      victims := [];
      if maxBytes <= 0 {
        return;
      }
      var total := TotalLocked();
      while total > maxBytes
        invariant total == Total(videos)
        invariant EvictsUpTo(old(Model()), maxBytes, current, victims, Model())
        decreases |videos|
      {
        var victim := OldestEligible(current);
        if victim == None {
          break;
        }
        EvictsOneMore(old(Model()), maxBytes, current, victims, Model(), victim.value);
        RemoveDirectory(victim.value);
        victims := victims + [victim.value];
        total := TotalLocked();
      }
      EvictsToTheEnd(old(Model()), maxBytes, current, victims, Model());
    }

    /** The scan of one round of eviction, over the videos in any order. */
    method OldestEligible(current: VideoId) returns (victim: Option<VideoId>)
      ensures victim == None <==> forall v :: !Eligible(Model(), current, v)
      ensures victim.Some? ==> Oldest(Model(), current, victim.value)
    {
      victim := None;
      var oldest := 0;
      var todo := videos.Keys;
      while todo != {}
        invariant todo <= videos.Keys
        invariant victim == None ==> forall v :: Eligible(Model(), current, v) ==> v in todo
        invariant victim.Some? ==>
                    Eligible(Model(), current, victim.value) && oldest == videos[victim.value].lastAccess
        invariant victim.Some? ==>
                    forall v :: Eligible(Model(), current, v) && v !in todo ==> oldest <= videos[v].lastAccess
        decreases |todo|
      {
        var id :| id in todo;
        todo := todo - {id};
        var busy := HasInflightLocked(id);
        if id == current || busy {
          continue;
        }
        if victim == None || videos[id].lastAccess < oldest {
          victim, oldest := Some(id), videos[id].lastAccess;
        }
      }
    }

    method HasInflightLocked(videoID: VideoId) returns (busy: bool)
      ensures busy == HasInflight(inflight, videoID)
    {
      var prefix := videoID + "/";
      var todo := inflight.Keys;
      while todo != {}
        invariant todo <= inflight.Keys
        invariant forall key :: key in inflight && Under(key, videoID) ==> key in todo
        decreases |todo|
      {
        var key :| key in todo;
        if HasPrefix(key, prefix) {
          return true;
        }
        todo := todo - {key};
      }
      return false;
    }

    method TotalLocked() returns (total: int)
      ensures total == Total(videos)
    {
      total := 0;
      var rest := videos;
      while rest != map[]
        invariant rest.Keys <= videos.Keys
        invariant Total(videos) == total + Total(rest)
        decreases |rest|
      {
        var id :| id in rest;
        RestTotal(rest, id);
        total := total + rest[id].size;
        rest := rest - {id};
      }
    }

    /** Drop a video's entry together with its directory. */
    method RemoveDirectory(id: VideoId)
      requires id in videos
      modifies this`videos, this`disk, this`dirs
      ensures Model() == Drop(old(Model()), id)
      ensures |videos| < |old(videos)|
    {
      disk := map p | p in disk && !Under(p, SanitizeKey(id)) :: disk[p];
      DirectoryIsId(id);
      dirs := dirs - {id};
      videos := videos - {id};
    }

    /** Remove the videos idle for longer than idleTimeout, visiting them in any order. */
    method Sweep(now: int) returns (ghost victims: seq<VideoId>)
      modifies this`videos, this`disk, this`dirs
      ensures Sweeps(old(Model()), now, idleTimeout, victims)
      ensures Model() == DropAll(old(Model()), victims)
    {
      victims := [];
      var todo := videos.Keys;
      while todo != {}
        invariant todo <= videos.Keys && todo <= old(videos).Keys
        invariant inflight == old(inflight)
        invariant Model() == DropAll(old(Model()), victims)
        invariant forall v :: v in todo ==> videos[v] == old(videos)[v]
        invariant forall v :: v in victims <==> v !in todo && Idle(old(Model()), now, idleTimeout, v)
        invariant forall i, j :: 0 <= i < j < |victims| ==> victims[i] != victims[j]
        decreases |todo|
      {
        var id :| id in todo;
        todo := todo - {id};
        if now - videos[id].lastAccess <= idleTimeout {
          continue;
        }
        var busy := HasInflightLocked(id);
        if busy {
          continue;
        }
        RemoveDirectory(id);
        DropAllAppend(old(Model()), victims, id);
        victims := victims + [id];
      }
    }
  }

  lemma RestTotal(rest: map<VideoId, Entry>, id: VideoId)
    requires id in rest
    ensures Total(rest) == rest[id].size + Total(rest - {id})
  {
    SumRemove(Sizes(rest), id);
    assert Sizes(rest) - {id} == Sizes(rest - {id});
  }

  lemma {:induction false} DropAllAppend(c: Cache, victims: seq<VideoId>, v: VideoId)
    ensures DropAll(c, victims + [v]) == Drop(DropAll(c, victims), v)
    decreases |victims|
  {
    if victims == [] {
      assert [v][1..] == [];
    } else {
      assert (victims + [v])[1..] == victims[1..] + [v];
      DropAllAppend(Drop(c, victims[0]), victims[1..], v);
    }
  }
}
