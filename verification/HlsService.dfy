/** Serving a remux Video as VOD HLS (internal/service/hls_service.go). The resolver, the Keyframe
    Index and the segment store answer through parameters. */
module HlsService {
  import opened SegmentTable
  import opened SegmentNames
  import opened Playlist

  datatype PlaybackSource = PlaybackSource(legacy: bool, remux: bool, path: string)

  datatype Error<+E> = InvalidName | NotFound | NotRemux | Failed(cause: E)

  /** A cached file to ensure: which segment of the input, and its place in the table. */
  datatype Request = Request(inputPath: string, idx: nat, seg: SegmentBoundary)

  function Boundaries<E>(resolved: Result<PlaybackSource, E>, index: Result<seq<SegmentBoundary>, E>)
    : Result<(string, seq<SegmentBoundary>), Error<E>>
  {
    match resolved
    case Err(e) => Err(Failed(e))
    case Ok(src) =>
      if src.legacy then Err(NotFound)
      else if !src.remux then Err(NotRemux)
      else
        match index
        case Err(e) => Err(Failed(e))
        case Ok(segs) => Ok((src.path, segs))
  }

  function Manifest<E>(resolved: Result<PlaybackSource, E>, index: Result<seq<SegmentBoundary>, E>)
    : Result<string, Error<E>>
  {
    match Boundaries(resolved, index)
    case Err(e) => Err(e)
    case Ok((_, segs)) => Ok(Unlines(ManifestLines(segs)))
  }

  /** What Segment asks the segment store for. */
  function Segment<E>(resolved: Result<PlaybackSource, E>, index: Result<seq<SegmentBoundary>, E>, name: string)
    : Result<Request, Error<E>>
  {
    match ParseSegmentName(name)
    case None => Err(InvalidName)
    case Some(idx) =>
      match Boundaries(resolved, index)
      case Err(e) => Err(e)
      case Ok((path, segs)) =>
        if idx >= |segs| then Err(NotFound) else Ok(Request(path, idx, segs[idx]))
  }

  /** A URI without its query. */
  function WithoutQuery(uri: string): string {
    uri[..Upto(uri, '?')]
  }

  lemma UriWithoutQuery(i: nat, token: seq<Byte>)
    ensures WithoutQuery(Uri(i, token)) == SegmentName(i)
  {
    NameIsPlain(i);
    var name, uri := SegmentName(i), Uri(i, token);
    assert forall k :: 0 <= k < |name| ==> uri[k] == name[k] != '?';
    assert token != [] ==> uri[|name|] == '?';
  }

  /** Whoever reads the served playlist and asks for its i-th URI gets the i-th segment of the
      table, with the duration the playlist announced to six decimals. */
  lemma ListedSegmentsAreServed<E>(resolved: Result<PlaybackSource, E>, index: Result<seq<SegmentBoundary>, E>,
                                   token: seq<Byte>, vod: Vod, i: nat)
    requires Manifest(resolved, index).Ok? && index.Ok? && Printable(index.value)
    requires ReadPlaylist(Tokenised(Manifest(resolved, index).value, token)) == Some(vod)
    requires i < |vod.entries|
    ensures |vod.entries| == |index.value|
    ensures Segment(resolved, index, WithoutQuery(vod.entries[i].uri)) ==
            Ok(Request(resolved.value.path, i, index.value[i]))
    ensures vod.entries[i].seconds == SixDecimals(index.value[i].duration)
  {
    var segs := index.value;
    PlaylistReadsBack(segs, token);
    assert vod.entries == Entries(segs, 0, token);
    assert vod.entries[i] == EntryOf(segs, 0 + i, token);
    UriWithoutQuery(i, token);
    NameReadsBack(i);
  }

  /** A name is served exactly when the Video is playable by remux, indexed, and the name is that
      of a segment of its table with at most five digits; no other name gets a segment. */
  lemma ServedNames<E>(resolved: Result<PlaybackSource, E>, index: Result<seq<SegmentBoundary>, E>,
                       name: string, r: Request)
    ensures Segment(resolved, index, name) == Ok(r) <==>
            && resolved.Ok? && index.Ok? && !resolved.value.legacy && resolved.value.remux
            && r.idx < |index.value| && r.idx < NAME_LIMIT && name == SegmentName(r.idx)
            && r == Request(resolved.value.path, r.idx, index.value[r.idx])
  {
    if ParseSegmentName(name).Some? {
      OnlyItsNameIsRead(name, ParseSegmentName(name).value);
    }
    NameReadsBack(r.idx);
  }

  /** Why a request is refused: a name that no segment below the limit has, before anything else; what
      could not be looked up; a legacy file or a segment past the table as not found; and another play
      mode as such. The playlist of a remux Video that is indexed is that of its table. */
  lemma RefusalsAreTold<E>(resolved: Result<PlaybackSource, E>, index: Result<seq<SegmentBoundary>, E>,
                           name: string, idx: nat)
    ensures (forall k: nat :: k < NAME_LIMIT ==> name != SegmentName(k)) ==>
              Segment(resolved, index, name) == Err(InvalidName)
    ensures idx < NAME_LIMIT && name == SegmentName(idx) ==>
              Segment(resolved, index, name) ==
              if resolved.Err? then Err(Failed(resolved.error))
              else if resolved.value.legacy then Err(NotFound)
              else if !resolved.value.remux then Err(NotRemux)
              else if index.Err? then Err(Failed(index.error))
              else if idx >= |index.value| then Err(NotFound)
              else Ok(Request(resolved.value.path, idx, index.value[idx]))
    ensures Manifest(resolved, index) ==
            if resolved.Err? then Err(Failed(resolved.error))
            else if resolved.value.legacy then Err(NotFound)
            else if !resolved.value.remux then Err(NotRemux)
            else if index.Err? then Err(Failed(index.error))
            else Ok(Unlines(ManifestLines(index.value)))
  {
    if ParseSegmentName(name).Some? {
      OnlyItsNameIsRead(name, ParseSegmentName(name).value);
      NameReadsBack(ParseSegmentName(name).value);
    }
    NameReadsBack(idx);
  }

  /** A table longer than the name limit lists a segment that cannot be fetched. */
  lemma LongTablesListUnservedNames<E>(resolved: Result<PlaybackSource, E>, index: Result<seq<SegmentBoundary>, E>)
    ensures Segment(resolved, index, SegmentName(NAME_LIMIT)) == Err(InvalidName)
  {
    NameReadsBack(NAME_LIMIT);
  }
}
