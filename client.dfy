/** The general API client `Music163Api`: the song-detail call with its
    single-versus-many result, the playlist call that splices in tracks past
    the first 1000, the search and top-artist requests with their paging, and
    the "who am I" check. Each network call's outcome is a scripted `Reply`;
    the domain objects (`Music`, `PlayList`, ...) are one-to-one wrappers of
    their JSON and are represented by that JSON. */
module ApiClient {
  import opened Wire
  import Seqs

  const SongDetailPath := "/api/v3/song/detail"
  const PlaylistDetailPath := "/api/v6/playlist/detail"
  const SearchPath := "/api/cloudsearch/pc"
  const TopArtistPath := "/api/toplist/artist"
  const AccountPath := "/api/w/nuser/account/get"

  /** The playlist reply carries at most this many tracks, and the song-detail
      call is fed this many ids at a time. */
  const BatchSize: nat := 1000

  /** The `n` the playlist-detail request asks for. */
  const PlaylistTrackLimit := 100000

  /** What `music` returns: one object, a generator over several (or none),
      or a generator over the keys of an object with two or more keys, whose
      order in the reply a `Dict` does not keep. */
  datatype MusicResult = Single(song: Json) | Many(songs: seq<Json>) | KeysOf(names: set<string>)

  /** The values a Python `for` yields over a parsed list or string: a string
      yields its one-character strings. */
  function Items(v: Json): (r: seq<Json>)
    requires v.JList? || v.JStr?
    ensures |r| == Len(v)
    ensures v.JStr? ==> forall i :: 0 <= i < |r| ==> r[i] == JStr([v.s[i]])
  {
    match v
    case JList(items) => items
    case JStr(s) => seq(|s|, i requires 0 <= i < |s| => JStr([s[i]]))
  }

  /** `music(ids)` given the reply of the song-detail call: `len(songs) == 1`
      selects `songs[0]`, anything else a generator over `songs`. */
  function Music(reply: Reply): (r: Result<MusicResult, Failure>)
    ensures var f := ReplyField(reply, SongDetailPath, "songs");
      r.Ok? <==> f.Ok? && Iterable(f.value) && !(f.value.JObject? && |f.value.fields| == 1)
    ensures var f := ReplyField(reply, SongDetailPath, "songs");
      && (f.Err? ==> r == Err(f.error))
      && (f.Ok? && !Iterable(f.value) ==> r == Err(TypeMismatch))
      && (f.Ok? && f.value.JObject? && |f.value.fields| == 1 ==> r == Err(KeyError("0")))
    ensures var f := ReplyField(reply, SongDetailPath, "songs");
      r.Ok? && (f.value.JList? || f.value.JStr?) ==>
        if Len(f.value) == 1 then r.value == Single(Items(f.value)[0]) else r.value == Many(Items(f.value))
    ensures var f := ReplyField(reply, SongDetailPath, "songs");
      r.Ok? && f.value.JObject? ==>
        r.value == if f.value.fields == map[] then Many([]) else KeysOf(f.value.fields.Keys)
  {
    match ReplyField(reply, SongDetailPath, "songs")
    case Err(e) => Err(e)
    case Ok(songs) =>
      if !Iterable(songs) then Err(TypeMismatch)
      else if Len(songs) == 1 then
        match songs
        // `songs[0]` looks up the int key 0, which no parsed object has
        case JObject(_) => Err(KeyError("0"))
        // a one-character string is its own first character
        case JStr(s) => assert s == [s[0]]; Ok(Single(songs))
        case JList(items) => Ok(Single(items[0]))
      else match songs
        case JObject(fields) => if fields == map[] then Ok(Many([])) else Ok(KeysOf(fields.Keys))
        case _ => Ok(Many(Items(songs)))
  }

  /** `[m.music_data for m in list(await self.music(ids=chunk))]`. A reply with
      exactly one song makes `music` return a single object, and `list` of it
      is flagged as a failure; so is a generator over object keys, whose
      order the model does not keep. */
  function ChunkSongs(reply: Reply): (r: Result<seq<Json>, Failure>)
    ensures r.Ok? <==> Music(reply).Ok? && Music(reply).value.Many?
    ensures r.Ok? ==> r.value == Music(reply).value.songs
    ensures r == Err(SingleMusicNotListable) <==> Music(reply).Ok? && Music(reply).value.Single?
    ensures Music(reply).Ok? && Music(reply).value.KeysOf? ==> r == Err(KeyOrderNotKept)
    ensures Music(reply).Err? ==> r == Err(Music(reply).error)
  {
    match Music(reply)
    case Err(e) => Err(e)
    case Ok(Single(_)) => Err(SingleMusicNotListable)
    case Ok(KeysOf(_)) => Err(KeyOrderNotKept)
    case Ok(Many(songs)) => Ok(songs)
  }

  /** `music` on string and object `songs`: a string is iterated by
      character, a one-character string is the single song, an empty object
      gives an empty generator, and a one-key object fails at `songs[0]`. */
  lemma MusicOnStringsAndObjects()
    ensures Music(Answered(JObject(map["songs" := JStr("ab")]))) == Ok(Many([JStr("a"), JStr("b")]))
    ensures Music(Answered(JObject(map["songs" := JStr("x")]))) == Ok(Single(JStr("x")))
    ensures Music(Answered(JObject(map["songs" := JObject(map[])]))) == Ok(Many([]))
    ensures Music(Answered(JObject(map["songs" := JObject(map["a" := JNull])]))) == Err(KeyError("0"))
  {
    assert Items(JStr("ab")) == [JStr("a"), JStr("b")];
  }

  function SongsOf(reply: Reply): seq<Json>
  {
    match ChunkSongs(reply)
    case Ok(songs) => songs
    case Err(_) => []
  }

  /** Reply `k` of the song-detail script; a script that has run out fails. */
  function ReplyAt(replies: seq<Reply>, k: nat): Reply
  {
    if k < |replies| then replies[k] else NoAnswer
  }

  /** The songs of `n` consecutive replies starting at reply `k`. */
  function Fetched(replies: seq<Reply>, k: nat, n: nat): seq<seq<Json>>
  {
    seq(n, j requires 0 <= j < n => SongsOf(ReplyAt(replies, k + j)))
  }

  /** `song.get("id")` */
  function IdOf(song: Json): Json
    requires song.JObject?
  {
    if "id" in song.fields then song.fields["id"] else JNull
  }

  /** `[song.get("id") for song in playlist_data["trackIds"]]`. Only dicts
      have `get`, so any other entry raises (AttributeError, TypeMismatch
      here); an empty string or object yields no ids. */
  function TrackIds(data: Dict): (r: Result<seq<Json>, Failure>)
    ensures "trackIds" !in data ==> r == Err(KeyError("trackIds"))
    ensures "trackIds" in data && r.Err? ==> r == Err(TypeMismatch)
    ensures r.Ok? <==> "trackIds" in data && Iterable(data["trackIds"])
                       && (Len(data["trackIds"]) == 0
                           || (data["trackIds"].JList?
                               && forall i :: 0 <= i < |data["trackIds"].items| ==> data["trackIds"].items[i].JObject?))
    ensures r.Ok? ==> |r.value| == Len(data["trackIds"])
    ensures r.Ok? && data["trackIds"].JList? ==>
      forall i :: 0 <= i < |r.value| ==> r.value[i] == IdOf(data["trackIds"].items[i])
  {
    if "trackIds" !in data then Err(KeyError("trackIds"))
    else match data["trackIds"]
      case JList(songs) =>
        if forall i :: 0 <= i < |songs| ==> songs[i].JObject? then
          Ok(seq(|songs|, i requires 0 <= i < |songs| && songs[i].JObject? => IdOf(songs[i])))
        else Err(TypeMismatch)
      case JStr(s) => if s == "" then Ok([]) else Err(TypeMismatch)
      case JObject(fields) => if fields == map[] then Ok([]) else Err(TypeMismatch)
      case _ => Err(TypeMismatch)
  }

  /** `ids[1000:]` */
  function Later(ids: seq<Json>): seq<Json>
  {
    if |ids| > BatchSize then ids[BatchSize..] else []
  }

  /** `(await _post(...))['playlist']`, which is then subscripted as a dict. */
  function PlaylistData(detail: Reply): Result<Dict, Failure>
  {
    match ReplyField(detail, PlaylistDetailPath, "playlist")
    case Err(e) => Err(e)
    case Ok(p) => if p.JObject? then Ok(p.fields) else Err(TypeMismatch)
  }

  /** The loop of `playlist` over `n` remaining batches, the next one fetched with reply `k`. */
  function Splice(data: Dict, n: nat, replies: seq<Reply>, k: nat): (r: Result<Dict, Failure>)
    ensures r.Ok? ==> r.value.Keys == data.Keys
    ensures r.Ok? ==> forall key :: key in data && key != "tracks" ==> r.value[key] == data[key]
    ensures n == 0 ==> r == Ok(data)
    decreases n
  {
    if n == 0 then Ok(data)
    else match ChunkSongs(ReplyAt(replies, k))
      case Err(e) => Err(e)
      case Ok(songs) =>
        if "tracks" !in data then Err(KeyError("tracks"))
        else if !data["tracks"].JList? then Err(TypeMismatch)
        else Splice(data["tracks" := JList(data["tracks"].items + songs)], n - 1, replies, k + 1)
  }

  /** The batches of ids past the first 1000 that `playlist` fetches, when the reply has the expected shape. */
  function LaterBatches(detail: Reply): seq<seq<Json>>
  {
    match PlaylistData(detail)
    case Err(_) => []
    case Ok(data) =>
      match TrackIds(data)
      case Err(_) => []
      case Ok(ids) => Seqs.Batches(Later(ids), BatchSize)
  }

  /** What `playlist` returns (as the playlist's data) or raises. */
  function PlaylistOutcome(detail: Reply, replies: seq<Reply>): (r: Result<Dict, Failure>)
    ensures r.Ok? ==> PlaylistData(detail).Ok? && r.value.Keys == PlaylistData(detail).value.Keys
    ensures r.Ok? ==> forall key :: key in r.value && key != "tracks" ==> r.value[key] == PlaylistData(detail).value[key]
    ensures PlaylistData(detail).Err? ==> r == Err(PlaylistData(detail).error)
  {
    match PlaylistData(detail)
    case Err(e) => Err(e)
    case Ok(data) =>
      match TrackIds(data)
      case Err(e) => Err(e)
      case Ok(ids) =>
        if Later(ids) == [] then Ok(data)
        else Splice(data, |Seqs.Batches(Later(ids), BatchSize)|, replies, 0)
  }

  /** The songs of n batches from reply k are those of reply k, then those of the n - 1 after it. */
  lemma FlattenFetched(replies: seq<Reply>, k: nat, n: nat)
    requires n > 0
    ensures Seqs.Flatten(Fetched(replies, k, n))
         == SongsOf(ReplyAt(replies, k)) + Seqs.Flatten(Fetched(replies, k + 1, n - 1))
  {
    var fetched := Fetched(replies, k, n);
    assert fetched[1..] == Fetched(replies, k + 1, n - 1);
  }

  /** When every fetch yields a list, the loop appends the fetched songs to
      `tracks` in order and changes no other key. */
  lemma {:induction false} SpliceAppends(data: Dict, n: nat, replies: seq<Reply>, k: nat)
    requires forall j :: k <= j < k + n ==> ChunkSongs(ReplyAt(replies, j)).Ok?
    requires n > 0 ==> "tracks" in data && data["tracks"].JList?
    ensures Splice(data, n, replies, k).Ok?
    ensures var r := Splice(data, n, replies, k).value;
      && r.Keys == data.Keys
      && (forall key :: key in data && key != "tracks" ==> r[key] == data[key])
      && (n > 0 ==> r["tracks"] == JList(data["tracks"].items + Seqs.Flatten(Fetched(replies, k, n))))
    decreases n
  {
    if n > 0 {
      var songs := ChunkSongs(ReplyAt(replies, k)).value;
      var tracks := data["tracks"].items;
      var next := data["tracks" := JList(tracks + songs)];
      assert Splice(data, n, replies, k) == Splice(next, n - 1, replies, k + 1);
      SpliceAppends(next, n - 1, replies, k + 1);
      assert SongsOf(ReplyAt(replies, k)) == songs;
      FlattenFetched(replies, k, n);
      var later := Seqs.Flatten(Fetched(replies, k + 1, n - 1));
      var r := Splice(next, n - 1, replies, k + 1).value;
      if n == 1 {
        assert Fetched(replies, k + 1, 0) == [];
        assert r == next;
      }
      assert r["tracks"] == JList(tracks + songs + later);
      assert tracks + songs + later == tracks + (songs + later);
    }
  }

  /** The loop stops at the first batch whose fetch fails, with that failure. */
  lemma {:induction false} SpliceStopsAtFailedBatch(data: Dict, n: nat, replies: seq<Reply>, k: nat, j: nat)
    requires k <= j < k + n
    requires forall i :: k <= i < j ==> ChunkSongs(ReplyAt(replies, i)).Ok?
    requires ChunkSongs(ReplyAt(replies, j)).Err?
    requires j > k ==> "tracks" in data && data["tracks"].JList?
    ensures Splice(data, n, replies, k) == Err(ChunkSongs(ReplyAt(replies, j)).error)
    decreases n
  {
    if j > k {
      var songs := ChunkSongs(ReplyAt(replies, k)).value;
      var next := data["tracks" := JList(data["tracks"].items + songs)];
      SpliceStopsAtFailedBatch(next, n - 1, replies, k + 1, j);
    }
  }

  /** With at most 1000 track ids the playlist's data comes back unchanged. */
  lemma PlaylistUpTo1000Unchanged(detail: Reply, replies: seq<Reply>)
    requires PlaylistData(detail).Ok? && TrackIds(PlaylistData(detail).value).Ok?
    requires |TrackIds(PlaylistData(detail).value).value| <= BatchSize
    ensures PlaylistOutcome(detail, replies) == PlaylistData(detail)
    ensures LaterBatches(detail) == []
  {
  }

  /** Past 1000 ids: the batches fetched are consecutive, hold between 1 and
      1000 ids each and together are exactly `trackIds[1000:]`; if every fetch
      yields a list, the fetched songs are appended to `tracks` in order and no
      other key changes. */
  lemma PlaylistSplicesLaterTracks(detail: Reply, replies: seq<Reply>)
    requires PlaylistData(detail).Ok? && TrackIds(PlaylistData(detail).value).Ok?
    requires |TrackIds(PlaylistData(detail).value).value| > BatchSize
    requires "tracks" in PlaylistData(detail).value && PlaylistData(detail).value["tracks"].JList?
    requires forall j :: 0 <= j < |LaterBatches(detail)| ==> ChunkSongs(ReplyAt(replies, j)).Ok?
    ensures var data := PlaylistData(detail).value;
      var ids := TrackIds(data).value;
      var batches := LaterBatches(detail);
      && Seqs.Flatten(batches) == ids[BatchSize..]
      && (forall j :: 0 <= j < |batches| ==> 0 < |batches[j]| <= BatchSize)
      && PlaylistOutcome(detail, replies).Ok?
      && var r := PlaylistOutcome(detail, replies).value;
      && r.Keys == data.Keys
      && (forall key :: key in data && key != "tracks" ==> r[key] == data[key])
      && r["tracks"] == JList(data["tracks"].items + Seqs.Flatten(Fetched(replies, 0, |batches|)))
  {
    var data := PlaylistData(detail).value;
    var ids := TrackIds(data).value;
    Seqs.FlattenBatches(Later(ids), BatchSize);
    Seqs.BatchesCount(Later(ids), BatchSize);
    SpliceAppends(data, |LaterBatches(detail)|, replies, 0);
  }

  /** A batch whose reply holds exactly one song stops the playlist call with
      the flagged failure, once the batches before it were spliced in. */
  lemma PlaylistSingleSongBatchFlagged(detail: Reply, replies: seq<Reply>, j: nat)
    requires PlaylistData(detail).Ok? && TrackIds(PlaylistData(detail).value).Ok?
    requires j < |LaterBatches(detail)|
    requires forall i :: 0 <= i < j ==> ChunkSongs(ReplyAt(replies, i)).Ok?
    requires j > 0 ==> "tracks" in PlaylistData(detail).value && PlaylistData(detail).value["tracks"].JList?
    requires Music(ReplyAt(replies, j)).Ok? && Music(ReplyAt(replies, j)).value.Single?
    ensures PlaylistOutcome(detail, replies) == Err(SingleMusicNotListable)
  {
    var data := PlaylistData(detail).value;
    SpliceStopsAtFailedBatch(data, |LaterBatches(detail)|, replies, 0, j);
  }

  datatype SearchKind = Songs | Playlists | Albums | Artists | Users | Mvs | DjRadios

  /** The fixed `type` code each search wrapper passes. */
  function TypeCode(kind: SearchKind): string
  {
    match kind
    case Songs => "1"
    case Playlists => "1000"
    case Albums => "10"
    case Artists => "100"
    case Users => "1002"
    case Mvs => "1004"
    case DjRadios => "1009"
  }

  function CountField(kind: SearchKind): string
  {
    match kind
    case Songs => "songCount"
    case Playlists => "playlistCount"
    case Albums => "albumCount"
    case Artists => "artistCount"
    case Users => "userprofileCount"
    case Mvs => "mvCount"
    case DjRadios => "djRadiosCount"
  }

  function ListField(kind: SearchKind): string
  {
    match kind
    case Songs => "songs"
    case Playlists => "playlists"
    case Albums => "albums"
    case Artists => "artists"
    case Users => "userprofiles"
    case Mvs => "mvs"
    case DjRadios => "djRadios"
  }

  /** Each wrapper's code names one kind of result only. */
  lemma TypeCodesDistinct(a: SearchKind, b: SearchKind)
    ensures TypeCode(a) == TypeCode(b) <==> a == b
  {
  }

  /** The form `_search` posts. */
  function SearchForm(key: string, type_: Json, page: int, limit: int): Dict
  {
    map["s" := JStr(key), "type" := type_, "limit" := JInt(limit),
        "offset" := JInt(limit * page), "total" := JBool(true)]
  }

  /** The form `top_artist_list` posts. */
  function TopArtistForm(type_: Json, page: int, limit: int): Dict
  {
    map["type" := type_, "limit" := JInt(limit), "offset" := JInt(page * limit),
        "total" := JStr("true")]
  }

  lemma MulAtLeast(limit: int, d: int)
    requires limit > 0 && d >= 1
    ensures limit * d >= limit
  {
  }

  lemma ExactQuotient(limit: int, p: int)
    requires limit > 0
    ensures (limit * p) / limit == p
  {
    var a := limit * p;
    var q, r := a / limit, a % limit;
    assert a == limit * q + r && 0 <= r < limit;
    assert limit * (p - q) == r;
    if p - q >= 1 {
      MulAtLeast(limit, p - q);
    }
  }

  /** Paging: with a positive limit, page `p` asks for the `limit` results that
      start at `p * limit`, so different pages ask for disjoint windows and
      the page can be read back from the offset. */
  lemma PagesAreDisjointWindows(key: string, type_: Json, p: int, q: int, limit: int)
    requires limit > 0 && p < q
    ensures SearchForm(key, type_, p, limit)["offset"].i + limit <= SearchForm(key, type_, q, limit)["offset"].i
    ensures TopArtistForm(type_, p, limit)["offset"].i + limit <= TopArtistForm(type_, q, limit)["offset"].i
    ensures SearchForm(key, type_, p, limit)["offset"].i / limit == p
    ensures TopArtistForm(type_, p, limit)["offset"].i / limit == p
  {
    MulAtLeast(limit, q - p);
    assert limit * q == limit * p + limit * (q - p);
    assert p * limit == limit * p && q * limit == limit * q;
    ExactQuotient(limit, p);
  }

  /** `search_*`: the result count and the item list of one kind, from the
      reply's `result`. The tuple is built left to right, and the generator
      expression calls `iter` on the item list at once, so a list field that
      is not iterable raises TypeError at call time. */
  function SearchResult(kind: SearchKind, reply: Reply): (r: Result<(Json, Json), Failure>)
    ensures r.Ok? <==> (ReplyField(reply, SearchPath, "result").Ok?
                       && Subscript(ReplyField(reply, SearchPath, "result").value, CountField(kind)).Ok?
                       && Subscript(ReplyField(reply, SearchPath, "result").value, ListField(kind)).Ok?
                       && Iterable(ReplyField(reply, SearchPath, "result").value.fields[ListField(kind)]))
    ensures r.Ok? ==> var result := ReplyField(reply, SearchPath, "result").value;
                      r.value == (result.fields[CountField(kind)], result.fields[ListField(kind)])
    ensures (ReplyField(reply, SearchPath, "result").Ok?
             && Subscript(ReplyField(reply, SearchPath, "result").value, CountField(kind)).Ok?
             && Subscript(ReplyField(reply, SearchPath, "result").value, ListField(kind)).Ok?
             && !Iterable(ReplyField(reply, SearchPath, "result").value.fields[ListField(kind)]))
            ==> r == Err(TypeMismatch)
  {
    match ReplyField(reply, SearchPath, "result")
    case Err(e) => Err(e)
    case Ok(result) =>
      match Subscript(result, CountField(kind))
      case Err(e) => Err(e)
      case Ok(count) =>
        match Subscript(result, ListField(kind))
        case Err(e) => Err(e)
        case Ok(items) => if Iterable(items) then Ok((count, items)) else Err(TypeMismatch)
  }

  /** `top_artist_list`: the artists of the reply's `list`; the generator
      expression calls `iter` on them at once, so a non-iterable value raises
      TypeError at call time. */
  function TopArtists(reply: Reply): (r: Result<Json, Failure>)
    ensures r.Ok? <==> (ReplyField(reply, TopArtistPath, "list").Ok?
                       && Subscript(ReplyField(reply, TopArtistPath, "list").value, "artists").Ok?
                       && Iterable(ReplyField(reply, TopArtistPath, "list").value.fields["artists"]))
    ensures r.Ok? ==> r.value == ReplyField(reply, TopArtistPath, "list").value.fields["artists"]
    ensures (ReplyField(reply, TopArtistPath, "list").Ok?
             && Subscript(ReplyField(reply, TopArtistPath, "list").value, "artists").Ok?
             && !Iterable(ReplyField(reply, TopArtistPath, "list").value.fields["artists"]))
            ==> r == Err(TypeMismatch)
  {
    match ReplyField(reply, TopArtistPath, "list")
    case Err(e) => Err(e)
    case Ok(list) =>
      match Subscript(list, "artists")
      case Err(e) => Err(e)
      case Ok(artists) => if Iterable(artists) then Ok(artists) else Err(TypeMismatch)
  }

  /** `my`: the account reply, unless its `profile` is null (an invalid cookie). */
  function My(reply: Reply): (r: Result<Json, Failure>)
    ensures r == Err(BadData) <==> ReplyField(reply, AccountPath, "profile") == Ok(JNull)
    ensures r.Ok? <==> (ReplyField(reply, AccountPath, "profile").Ok?
                       && ReplyField(reply, AccountPath, "profile").value != JNull)
    ensures r.Ok? ==> reply == Answered(r.value)
  {
    match ReplyField(reply, AccountPath, "profile")
    case Err(e) => Err(e)
    case Ok(profile) => if profile == JNull then Err(BadData) else Ok(reply.body)
  }

  /** The `for` loop of `playlist`: fetches the batches of `trackIds` in
      order, one reply each, and appends their songs to `tracks`. */
  method SpliceBatches(playlistData: Dict, trackIds: seq<Json>, replies: seq<Reply>)
    returns (r: Result<Dict, Failure>, requested: seq<seq<Json>>)
    ensures r == Splice(playlistData, |Seqs.Batches(trackIds, BatchSize)|, replies, 0)
    ensures requested <= Seqs.Batches(trackIds, BatchSize)
    ensures r.Ok? ==> requested == Seqs.Batches(trackIds, BatchSize)
  {
    requested := [];
    var data := playlistData;
    ghost var batches := Seqs.Batches(trackIds, BatchSize);
    ghost var goal := Splice(data, |batches|, replies, 0);
    Seqs.BatchesCount(trackIds, BatchSize);
    var i, k := 0, 0;
    while i < |trackIds|
      invariant k <= |batches| && i == k * BatchSize
      invariant i < |trackIds| <==> k < |batches|
      invariant requested == batches[..k]
      invariant goal == Splice(data, |batches| - k, replies, k)
      decreases |trackIds| - i
    {
      Seqs.BatchesPrefix(trackIds, BatchSize, k, i);
      var chunk := trackIds[i .. Seqs.Min(i + BatchSize, |trackIds|)];
      requested := requested + [chunk];
      var music := Music(ReplyAt(replies, k));
      if music.Err? {
        r := Err(music.error);
        return;
      }
      if music.value.Single? {
        r := Err(SingleMusicNotListable);
        return;
      }
      if music.value.KeysOf? {
        r := Err(KeyOrderNotKept);
        return;
      }
      var musicList := music.value.songs;
      assert ChunkSongs(ReplyAt(replies, k)) == Ok(musicList);
      if "tracks" !in data {
        r := Err(KeyError("tracks"));
        return;
      }
      if !data["tracks"].JList? {
        r := Err(TypeMismatch);
        return;
      }
      ghost var before := data;
      data := data["tracks" := JList(data["tracks"].items + musicList)];
      assert Splice(before, |batches| - k, replies, k) == Splice(data, |batches| - (k + 1), replies, k + 1);
      i, k := i + BatchSize, k + 1;
    }
    r := Ok(data);
  }

  class Music163Api {
    /** The session cookie every call attaches; None before login. */
    const cookie: Option<string>

    constructor (cookie: Option<string>)
      ensures this.cookie == cookie
    {
      this.cookie := cookie;
    }

    /** The request `playlist` posts for the playlist's detail. */
    function PlaylistRequest(id: Json): (r: Request)
      ensures r.path == PlaylistDetailPath && r.cookie == cookie
      ensures r.form.Keys == {"id", "n"}
      ensures r.form["id"] == id && r.form["n"] == JInt(PlaylistTrackLimit)
    {
      Request(PlaylistDetailPath, map["id" := id, "n" := JInt(PlaylistTrackLimit)], cookie)
    }

    /** The request a `search_*` wrapper posts. */
    function SearchRequest(kind: SearchKind, key: string, page: int, limit: int): (r: Request)
      ensures r.path == SearchPath && r.cookie == cookie
      ensures r.form.Keys == {"s", "type", "limit", "offset", "total"}
      ensures r.form["type"] == JStr(TypeCode(kind)) && r.form["s"] == JStr(key)
      ensures r.form["limit"] == JInt(limit) && r.form["offset"] == JInt(limit * page)
      ensures r.form["total"] == JBool(true)
    {
      Request(SearchPath, SearchForm(key, JStr(TypeCode(kind)), page, limit), cookie)
    }

    /** The request `top_artist_list` posts. */
    function TopArtistListRequest(type_: Json, page: int, limit: int): (r: Request)
      ensures r.path == TopArtistPath && r.cookie == cookie
      ensures r.form.Keys == {"type", "limit", "offset", "total"}
      ensures r.form["type"] == type_ && r.form["offset"] == JInt(page * limit)
      ensures r.form["limit"] == JInt(limit) && r.form["total"] == JStr("true")
    {
      Request(TopArtistPath, TopArtistForm(type_, page, limit), cookie)
    }

    /** `playlist`: given the playlist-detail reply and the scripted replies of
        the song-detail calls, returns the playlist's data with the tracks past
        the first 1000 spliced in, and the id batches it asked for. */
    method Playlist(detail: Reply, replies: seq<Reply>)
      returns (r: Result<Dict, Failure>, requested: seq<seq<Json>>)
      ensures r == PlaylistOutcome(detail, replies)
      ensures requested <= LaterBatches(detail)
      ensures r.Ok? ==> requested == LaterBatches(detail)
    {
      requested := [];
      var fetched := PlaylistData(detail);
      if fetched.Err? {
        r := Err(fetched.error);
        return;
      }
      var data := fetched.value;
      var allIds := TrackIds(data);
      if allIds.Err? {
        r := Err(allIds.error);
        return;
      }
      var trackIds := Later(allIds.value);
      if trackIds == [] {
        r := Ok(data);
        return;
      }
      r, requested := SpliceBatches(data, trackIds, replies);
    }
  }
}
