/**
 * The item store (DatabaseManager): a settings table, a playlists table keyed
 * by URL and a videos table with a uniqueness rule on (playlist, video id).
 * The tables are kept in insertion order; row ids come from AUTOINCREMENT
 * counters that start at 1.
 */
module Store {
  import opened Wrappers

  datatype Status = Pending | Completed | Error

  const FirstRowId: nat := 1
  /** Title stored for an entry that has none. */
  const UnknownTitle := "Unknown"
  /** URL built from a video id when an entry supplies no URL of its own. */
  const WatchUrl := "https://www.youtube.com/watch?v="

  /**
   * A flat-extraction entry (a Python dict). A field is `None` when its key
   * is absent; `otherKeys` records whether the dict holds any other key.
   */
  datatype Descriptor = Descriptor(
    id: Option<string>,
    title: Option<string>,
    url: Option<string>,
    webpageUrl: Option<string>,
    otherKeys: bool)

  /** An element of the entries list: `None` stands for a null element. */
  type Entry = Option<Descriptor>

  /** Python truthiness of an optional string. */
  predicate Truthy(o: Option<string>)
  {
    o.Some? && o.value != ""
  }

  /** `not entry`: a null element or an empty dict. */
  predicate IsFalsy(e: Entry)
  {
    e.None? ||
    (e.value.id.None? && e.value.title.None? && e.value.url.None? &&
     e.value.webpageUrl.None? && !e.value.otherKeys)
  }

  datatype Playlist = Playlist(id: nat, url: string, title: string)

  datatype Video = Video(
    id: nat,
    playlistId: nat,
    videoId: Option<string>,
    title: string,
    url: Option<string>,
    status: Status,
    errorMsg: Option<string>,
    filepath: Option<string>)

  /** A row of the pending query: (id, title, url, video_id, filepath). */
  datatype PendingItem = PendingItem(
    dbId: nat, title: string, url: Option<string>, videoId: Option<string>, filepath: Option<string>)

  /** A row of the completed query: (id, filepath). */
  datatype CompletedItem = CompletedItem(dbId: nat, filepath: Option<string>)

  /** The two item tables with their AUTOINCREMENT counters. */
  datatype Tables = Tables(
    playlists: seq<Playlist>, nextPlaylistId: nat, videos: seq<Video>, nextVideoId: nat)

  const EmptyTables := Tables([], FirstRowId, [], FirstRowId)

  // ---------------------------------------------------------------- invariants

  /** Playlist ids are issued in increasing order below the counter; URLs are unique. */
  ghost predicate PlaylistsOk(ps: seq<Playlist>, next: nat)
  {
    FirstRowId <= next &&
    (forall i :: 0 <= i < |ps| ==> FirstRowId <= ps[i].id < next) &&
    (forall i, j :: 0 <= i < j < |ps| ==> ps[i].id < ps[j].id && ps[i].url != ps[j].url)
  }

  /** Two rows that break UNIQUE(playlist_id, video_id); NULL video ids never clash. */
  predicate KeyClash(a: Video, b: Video)
  {
    a.playlistId == b.playlistId && a.videoId.Some? && a.videoId == b.videoId
  }

  /** Video ids are issued in increasing order below the counter; no two rows clash. */
  ghost predicate VideosOk(vs: seq<Video>, next: nat)
  {
    FirstRowId <= next &&
    (forall i :: 0 <= i < |vs| ==> FirstRowId <= vs[i].id < next) &&
    (forall i, j :: 0 <= i < j < |vs| ==> vs[i].id < vs[j].id && !KeyClash(vs[i], vs[j]))
  }

  ghost predicate TablesOk(t: Tables)
  {
    PlaylistsOk(t.playlists, t.nextPlaylistId) && VideosOk(t.videos, t.nextVideoId)
  }

  // ---------------------------------------------------------------- playlists

  /** `SELECT id FROM playlists WHERE url = ?`. */
  function FindPlaylist(ps: seq<Playlist>, url: string): (r: Option<nat>)
    ensures r.Some? ==> exists i :: 0 <= i < |ps| && ps[i].url == url && ps[i].id == r.value
    ensures r.None? ==> forall i :: 0 <= i < |ps| ==> ps[i].url != url
  {
    if ps == [] then None
    else if ps[0].url == url then Some(ps[0].id)
    else FindPlaylist(ps[1..], url)
  }

  datatype Created = Created(tables: Tables, id: nat)

  /**
   * get_or_create_playlist on table values: afterwards a row with the URL
   * carries the returned id, and the videos table is untouched (the exact
   * new playlists table is stated by CreatePlaylistOk).
   */
  function CreatePlaylist(t: Tables, url: string, title: string): (r: Created)
    ensures r.tables.videos == t.videos && r.tables.nextVideoId == t.nextVideoId
    ensures exists i :: 0 <= i < |r.tables.playlists| && r.tables.playlists[i].url == url && r.tables.playlists[i].id == r.id
  {
    match FindPlaylist(t.playlists, url)
    case Some(id) => Created(t, id)
    case None =>
      var row := Playlist(t.nextPlaylistId, url, title);
      assert (t.playlists + [row])[|t.playlists|] == row;
      Created(t.(playlists := t.playlists + [row], nextPlaylistId := t.nextPlaylistId + 1),
              t.nextPlaylistId)
  }

  /**
   * get_or_create_playlist returns the id recorded for the URL, touching
   * nothing, or inserts exactly one row for it; the tables stay well formed.
   */
  lemma CreatePlaylistOk(t: Tables, url: string, title: string)
    requires TablesOk(t)
    ensures var c := CreatePlaylist(t, url, title);
      && TablesOk(c.tables)
      && c.tables.videos == t.videos && c.tables.nextVideoId == t.nextVideoId
      && (exists i :: 0 <= i < |c.tables.playlists| &&
                      c.tables.playlists[i].url == url && c.tables.playlists[i].id == c.id)
      && (FindPlaylist(t.playlists, url).Some? ==> c.tables == t)
      && (FindPlaylist(t.playlists, url).None? ==>
            c.tables.playlists == t.playlists + [Playlist(t.nextPlaylistId, url, title)])
  {
    var c := CreatePlaylist(t, url, title);
    if FindPlaylist(t.playlists, url).None? {
      assert c.tables.playlists[|t.playlists|].url == url;
    }
  }

  /** Calling get_or_create_playlist again with the same URL returns the same id and inserts nothing. */
  lemma CreatePlaylistStable(t: Tables, url: string, title: string, title2: string)
    requires TablesOk(t)
    ensures var c := CreatePlaylist(t, url, title);
      CreatePlaylist(c.tables, url, title2) == c
  {
    var c := CreatePlaylist(t, url, title);
    CreatePlaylistOk(t, url, title);
    var i :| 0 <= i < |c.tables.playlists| && c.tables.playlists[i].url == url && c.tables.playlists[i].id == c.id;
    var found := FindPlaylist(c.tables.playlists, url);
    assert found.Some?;
    var j :| 0 <= j < |c.tables.playlists| && c.tables.playlists[j].url == url && c.tables.playlists[j].id == found.value;
    assert i == j;
  }

  // ---------------------------------------------------------------- videos

  /** `entry.get('url') or entry.get('webpage_url')`, falling back to the watch URL of the id. */
  function VideoUrl(d: Descriptor): (u: Option<string>)
    ensures Truthy(u) <==> Truthy(d.url) || Truthy(d.webpageUrl) || Truthy(d.id)
    ensures Truthy(d.url) ==> u == d.url
    ensures !Truthy(d.url) && Truthy(d.webpageUrl) ==> u == d.webpageUrl
    ensures !Truthy(d.url) && !Truthy(d.webpageUrl) && Truthy(d.id) ==> u == Some(WatchUrl + d.id.value)
    ensures !Truthy(d.url) && !Truthy(d.webpageUrl) && !Truthy(d.id) ==> u == d.webpageUrl
  {
    var web := if Truthy(d.url) then d.url else d.webpageUrl;
    if !Truthy(web) && Truthy(d.id) then Some(WatchUrl + d.id.value) else web
  }

  /** The row inserted for an entry: status PENDING, no error, no file path. */
  function NewRow(id: nat, pid: nat, d: Descriptor): Video
  {
    Video(id, pid, d.id, d.title.GetOr(UnknownTitle), VideoUrl(d), Pending, None, None)
  }

  /** Inserting `vid` into playlist `pid` would violate UNIQUE(playlist_id, video_id). */
  predicate Known(vs: seq<Video>, pid: nat, vid: Option<string>)
  {
    vid.Some? && exists i | 0 <= i < |vs| :: vs[i].playlistId == pid && vs[i].videoId == vid
  }

  /** The videos table and its counter part-way through add_videos_to_playlist, with the insert count. */
  datatype Batch = Batch(videos: seq<Video>, next: nat, count: nat)

  /**
   * One iteration of add_videos_to_playlist: a falsy entry is skipped and
   * one whose (playlist, id) pair is taken is ignored; any other is
   * inserted as the row NewRow describes, under the next id.
   */
  function AddOne(b: Batch, pid: nat, e: Entry): (r: Batch)
    ensures r == b <==> IsFalsy(e) || Known(b.videos, pid, e.value.id)
    ensures r != b ==>
      && |r.videos| == |b.videos| + 1 && r.videos[..|b.videos|] == b.videos
      && r.next == b.next + 1 && r.count == b.count + 1
      && var v := r.videos[|b.videos|];
         v.id == b.next && v.playlistId == pid && v.videoId == e.value.id && v.status == Pending &&
         v.title == e.value.title.GetOr(UnknownTitle) && v.url == VideoUrl(e.value) &&
         v.errorMsg == None && v.filepath == None
  {
    if IsFalsy(e) || Known(b.videos, pid, e.value.id) then b
    else Batch(b.videos + [NewRow(b.next, pid, e.value)], b.next + 1, b.count + 1)
  }

  /**
   * add_videos_to_playlist over `es`: the existing rows stay as they were,
   * every new row is PENDING in playlist `pid`, and the count is the number
   * of rows actually inserted.
   */
  function AddAll(vs: seq<Video>, next: nat, pid: nat, es: seq<Entry>): (r: Batch)
    ensures |r.videos| == |vs| + r.count && r.next == next + r.count && r.count <= |es|
    ensures r.videos[..|vs|] == vs
    ensures forall i :: |vs| <= i < |r.videos| ==>
      r.videos[i].status == Pending && r.videos[i].playlistId == pid &&
      r.videos[i].errorMsg == None && r.videos[i].filepath == None
    decreases |es|
  {
    if es == [] then Batch(vs, next, 0)
    else AddOne(AddAll(vs, next, pid, es[..|es| - 1]), pid, es[|es| - 1])
  }

  /**
   * Row `v` is the one inserted for some non-empty entry of `es` whose id was
   * not yet recorded in playlist `pid` of `vs`: its video id is the entry's,
   * its title the entry's or "Unknown", and its URL the one VideoUrl derives.
   */
  ghost predicate InsertedFor(v: Video, vs: seq<Video>, pid: nat, es: seq<Entry>)
  {
    exists k :: 0 <= k < |es| && !IsFalsy(es[k]) && !Known(vs, pid, es[k].value.id) &&
                v.videoId == es[k].value.id && v.title == es[k].value.title.GetOr(UnknownTitle) &&
                v.url == VideoUrl(es[k].value)
  }

  /**
   * Every row add_videos_to_playlist inserts takes the next id in turn and
   * is the row of a non-empty entry whose id was not yet recorded.
   */
  lemma {:induction false} AddAllRows(vs: seq<Video>, next: nat, pid: nat, es: seq<Entry>)
    ensures var r := AddAll(vs, next, pid, es);
      forall i :: |vs| <= i < |r.videos| ==> r.videos[i].id == next + (i - |vs|) && InsertedFor(r.videos[i], vs, pid, es)
    decreases |es|
  {
    if es != [] {
      var init := es[..|es| - 1];
      var e := es[|es| - 1];
      var b := AddAll(vs, next, pid, init);
      var r := AddAll(vs, next, pid, es);
      AddAllRows(vs, next, pid, init);
      assert forall i :: |vs| <= i < |b.videos| ==>
        AddAll(vs, next, pid, init).videos[i].id == next + (i - |vs|) &&
        InsertedFor(AddAll(vs, next, pid, init).videos[i], vs, pid, init);
      forall i | |vs| <= i < |r.videos|
        ensures r.videos[i].id == next + (i - |vs|) && InsertedFor(r.videos[i], vs, pid, es)
      {
        if i < |b.videos| {
          assert r.videos[i] == b.videos[i];
          var k :| 0 <= k < |init| && !IsFalsy(init[k]) && !Known(vs, pid, init[k].value.id) &&
             b.videos[i].videoId == init[k].value.id &&
             b.videos[i].title == init[k].value.title.GetOr(UnknownTitle) &&
             b.videos[i].url == VideoUrl(init[k].value);
          assert es[k] == init[k];
        } else {
          assert !Known(b.videos, pid, e.value.id);
          assert es[|es| - 1] == e;
        }
      }
    }
  }

  /**
   * A non-empty entry without an id is always inserted: a NULL video id never
   * clashes with UNIQUE(playlist_id, video_id).
   */
  lemma AnonymousInserted(vs: seq<Video>, next: nat, pid: nat, es: seq<Entry>, e: Entry)
    requires !IsFalsy(e) && e.value.id.None?
    ensures var b := AddAll(vs, next, pid, es);
      var r := AddAll(vs, next, pid, es + [e]);
      r.count == b.count + 1 && |r.videos| == |b.videos| + 1 && r.videos[|b.videos|].videoId == None
  {
    assert (es + [e])[..|es|] == es;
  }

  lemma AddOneOk(b: Batch, pid: nat, e: Entry)
    requires VideosOk(b.videos, b.next)
    ensures VideosOk(AddOne(b, pid, e).videos, AddOne(b, pid, e).next)
  {
    if !(IsFalsy(e) || Known(b.videos, pid, e.value.id)) {
      var r := AddOne(b, pid, e);
      var n := |b.videos|;
      forall i | 0 <= i < n
        ensures r.videos[i].id < r.videos[n].id && !KeyClash(r.videos[i], r.videos[n])
      {
        assert r.videos[i] == b.videos[i];
        assert !(b.videos[i].playlistId == pid && b.videos[i].videoId.Some? && b.videos[i].videoId == e.value.id);
      }
    }
  }

  /** add_videos_to_playlist keeps the videos table well formed. */
  lemma {:induction false} AddAllOk(vs: seq<Video>, next: nat, pid: nat, es: seq<Entry>)
    requires VideosOk(vs, next)
    ensures VideosOk(AddAll(vs, next, pid, es).videos, AddAll(vs, next, pid, es).next)
    decreases |es|
  {
    if es != [] {
      AddAllOk(vs, next, pid, es[..|es| - 1]);
      AddOneOk(AddAll(vs, next, pid, es[..|es| - 1]), pid, es[|es| - 1]);
    }
  }

  lemma KnownGrows(vs: seq<Video>, ws: seq<Video>, pid: nat, vid: Option<string>)
    requires Known(vs, pid, vid)
    ensures Known(vs + ws, pid, vid)
  {
    var i :| 0 <= i < |vs| && vs[i].playlistId == pid && vs[i].videoId == vid;
    assert (vs + ws)[i] == vs[i];
  }

  /** After add_videos_to_playlist, every id-bearing entry is recorded in the playlist. */
  lemma {:induction false} AddAllRecords(vs: seq<Video>, next: nat, pid: nat, es: seq<Entry>)
    ensures forall k :: 0 <= k < |es| && !IsFalsy(es[k]) && es[k].value.id.Some? ==>
      Known(AddAll(vs, next, pid, es).videos, pid, es[k].value.id)
    decreases |es|
  {
    if es != [] {
      var init := es[..|es| - 1];
      var b := AddAll(vs, next, pid, init);
      var r := AddAll(vs, next, pid, es);
      AddAllRecords(vs, next, pid, init);
      assert r.videos[..|b.videos|] == b.videos;
      forall k | 0 <= k < |es| && !IsFalsy(es[k]) && es[k].value.id.Some?
        ensures Known(r.videos, pid, es[k].value.id)
      {
        if k < |es| - 1 {
          assert es[k] == init[k];
          KnownGrows(b.videos, r.videos[|b.videos|..], pid, es[k].value.id);
          assert b.videos + r.videos[|b.videos|..] == r.videos;
        } else if !Known(b.videos, pid, es[k].value.id) {
          assert r.videos[|b.videos|].videoId == es[k].value.id;
        } else {
          KnownGrows(b.videos, r.videos[|b.videos|..], pid, es[k].value.id);
          assert b.videos + r.videos[|b.videos|..] == r.videos;
        }
      }
    }
  }

  /** Entries that are all already recorded insert nothing. */
  lemma {:induction false} AddAllNoop(vs: seq<Video>, next: nat, pid: nat, es: seq<Entry>)
    requires forall k :: 0 <= k < |es| && !IsFalsy(es[k]) ==> Known(vs, pid, es[k].value.id)
    ensures AddAll(vs, next, pid, es) == Batch(vs, next, 0)
    decreases |es|
  {
    if es != [] {
      AddAllNoop(vs, next, pid, es[..|es| - 1]);
    }
  }

  /**
   * Reconciling the same id-bearing entries twice: the second
   * add_videos_to_playlist returns 0 and leaves the table as it was.
   */
  lemma AddAllIdempotent(vs: seq<Video>, next: nat, pid: nat, es: seq<Entry>)
    requires forall k :: 0 <= k < |es| && !IsFalsy(es[k]) ==> es[k].value.id.Some?
    ensures var r := AddAll(vs, next, pid, es);
      AddAll(r.videos, r.next, pid, es) == Batch(r.videos, r.next, 0)
  {
    var r := AddAll(vs, next, pid, es);
    AddAllRecords(vs, next, pid, es);
    AddAllNoop(r.videos, r.next, pid, es);
  }

  // ---------------------------------------------------------------- queries

  function AsPending(v: Video): PendingItem
  {
    PendingItem(v.id, v.title, v.url, v.videoId, v.filepath)
  }

  /**
   * get_pending_videos: the rows of playlist `pid` whose status is not
   * COMPLETED (so ERROR rows are retried), in table order.
   */
  function PendingOf(vs: seq<Video>, pid: nat): (r: seq<PendingItem>)
    ensures |r| <= |vs|
    ensures forall it :: it in r <==>
      exists i :: 0 <= i < |vs| && vs[i].playlistId == pid && vs[i].status != Completed && AsPending(vs[i]) == it
    decreases |vs|
  {
    if vs == [] then []
    else
      var r := PendingOf(vs[..|vs| - 1], pid);
      var v := vs[|vs| - 1];
      assert forall i :: 0 <= i < |vs| - 1 ==> vs[..|vs| - 1][i] == vs[i];
      if v.playlistId == pid && v.status != Completed then r + [AsPending(v)] else r
  }

  /** get_completed_videos: the rows of playlist `pid` whose status is COMPLETED, in table order. */
  function CompletedOf(vs: seq<Video>, pid: nat): (r: seq<CompletedItem>)
    ensures |r| <= |vs|
    ensures forall it :: it in r <==>
      exists i :: 0 <= i < |vs| && vs[i].playlistId == pid && vs[i].status == Completed &&
                  CompletedItem(vs[i].id, vs[i].filepath) == it
    decreases |vs|
  {
    if vs == [] then []
    else
      var r := CompletedOf(vs[..|vs| - 1], pid);
      var v := vs[|vs| - 1];
      assert forall i :: 0 <= i < |vs| - 1 ==> vs[..|vs| - 1][i] == vs[i];
      if v.playlistId == pid && v.status == Completed then r + [CompletedItem(v.id, v.filepath)] else r
  }

  /** All rows of playlist `pid`. */
  function RowsOf(vs: seq<Video>, pid: nat): seq<Video>
    decreases |vs|
  {
    if vs == [] then []
    else
      var r := RowsOf(vs[..|vs| - 1], pid);
      if vs[|vs| - 1].playlistId == pid then r + [vs[|vs| - 1]] else r
  }

  /** Every row of a playlist is returned by exactly one of the two queries. */
  lemma {:induction false} PendingCompletedSplit(vs: seq<Video>, pid: nat)
    ensures |PendingOf(vs, pid)| + |CompletedOf(vs, pid)| == |RowsOf(vs, pid)|
    decreases |vs|
  {
    if vs != [] {
      PendingCompletedSplit(vs[..|vs| - 1], pid);
    }
  }

  /** In a well-formed table the pending rows come in increasing id order, so no item appears twice. */
  lemma {:induction false} PendingSorted(vs: seq<Video>, next: nat, pid: nat)
    requires VideosOk(vs, next)
    ensures forall i, j :: 0 <= i < j < |PendingOf(vs, pid)| ==> PendingOf(vs, pid)[i].dbId < PendingOf(vs, pid)[j].dbId
    decreases |vs|
  {
    if vs != [] {
      var init := vs[..|vs| - 1];
      assert VideosOk(init, next);
      PendingSorted(init, next, pid);
      var r := PendingOf(init, pid);
      forall it | it in r
        ensures it.dbId < vs[|vs| - 1].id
      {
        var i :| 0 <= i < |init| && init[i].playlistId == pid && init[i].status != Completed && AsPending(init[i]) == it;
        assert init[i] == vs[i];
      }
    }
  }

  // ---------------------------------------------------------------- status updates

  /** `UPDATE videos SET status = ?, error_msg = ?, filepath = ? WHERE id = ?`. */
  function UpdateRows(vs: seq<Video>, id: nat, status: Status, msg: string, path: string): (r: seq<Video>)
    ensures |r| == |vs|
  {
    seq(|vs|, i requires 0 <= i < |vs| =>
      if vs[i].id == id then vs[i].(status := status, errorMsg := Some(msg), filepath := Some(path))
      else vs[i])
  }

  /**
   * An update touches only the three status columns of the row with that id;
   * every other row, and the row's identity, stay as they were.
   */
  lemma UpdateFrame(vs: seq<Video>, id: nat, status: Status, msg: string, path: string)
    ensures var r := UpdateRows(vs, id, status, msg, path);
      forall i :: 0 <= i < |vs| ==>
        && r[i].(status := vs[i].status, errorMsg := vs[i].errorMsg, filepath := vs[i].filepath) == vs[i]
        && (vs[i].id == id ==> r[i].status == status && r[i].errorMsg == Some(msg) && r[i].filepath == Some(path))
        && (vs[i].id != id ==> r[i] == vs[i])
  {
  }

  /** Repeating an update changes nothing further. */
  lemma UpdateIdempotent(vs: seq<Video>, id: nat, status: Status, msg: string, path: string)
    ensures var r := UpdateRows(vs, id, status, msg, path);
      UpdateRows(r, id, status, msg, path) == r
  {
  }

  /** An update keeps the table well formed. */
  lemma UpdateOk(vs: seq<Video>, next: nat, id: nat, status: Status, msg: string, path: string)
    requires VideosOk(vs, next)
    ensures VideosOk(UpdateRows(vs, id, status, msg, path), next)
  {
    var r := UpdateRows(vs, id, status, msg, path);
    assert forall i, j :: 0 <= i < j < |vs| ==> KeyClash(r[i], r[j]) == KeyClash(vs[i], vs[j]);
  }

  /**
   * Resume semantics: a row marked COMPLETED leaves the pending set, while a
   * row marked ERROR stays in it and is offered again on the next run.
   */
  lemma UpdateThenPending(vs: seq<Video>, i: nat, status: Status, msg: string, path: string)
    requires i < |vs|
    requires forall j :: 0 <= j < |vs| && j != i ==> vs[j].id != vs[i].id
    ensures var r := UpdateRows(vs, vs[i].id, status, msg, path);
      var pid := vs[i].playlistId;
      (status == Completed ==> forall it :: it in PendingOf(r, pid) ==> it.dbId != vs[i].id) &&
      (status != Completed ==> AsPending(r[i]) in PendingOf(r, pid))
  {
    var r := UpdateRows(vs, vs[i].id, status, msg, path);
    var pid := vs[i].playlistId;
    if status == Completed {
      forall it | it in PendingOf(r, pid)
        ensures it.dbId != vs[i].id
      {
        var j :| 0 <= j < |r| && r[j].playlistId == pid && r[j].status != Completed && AsPending(r[j]) == it;
      }
    }
  }

  /** The status writes of one run, applied in order. */
  datatype Write = Write(dbId: nat, status: Status, errorMsg: string, filepath: string)

  function ApplyAll(vs: seq<Video>, ws: seq<Write>): (r: seq<Video>)
    ensures |r| == |vs|
    decreases |ws|
  {
    if ws == [] then vs
    else
      var w := ws[|ws| - 1];
      UpdateRows(ApplyAll(vs, ws[..|ws| - 1]), w.dbId, w.status, w.errorMsg, w.filepath)
  }

  /** Applying no write changes nothing. */
  lemma ApplyNone(vs: seq<Video>)
    ensures ApplyAll(vs, []) == vs
  {
  }

  /** Applying one write is one UPDATE. */
  lemma ApplyOne(vs: seq<Video>, w: Write)
    ensures ApplyAll(vs, [w]) == UpdateRows(vs, w.dbId, w.status, w.errorMsg, w.filepath)
  {
    assert [w][..0] == [];
  }

  /** Applying a batch and then at most one more write is applying them all in order. */
  lemma ApplyAllSnoc(vs: seq<Video>, ws: seq<Write>, more: seq<Write>)
    requires |more| <= 1
    ensures ApplyAll(ApplyAll(vs, ws), more) == ApplyAll(vs, ws + more)
  {
    if |more| == 1 {
      assert (ws + more)[..|ws|] == ws;
      ApplyOne(ApplyAll(vs, ws), more[0]);
      assert more == [more[0]];
    } else {
      assert ws + more == ws;
    }
  }

  predicate Writes(ws: seq<Write>, id: nat)
  {
    exists j | 0 <= j < |ws| :: ws[j].dbId == id
  }

  /**
   * A sequence of status writes keeps every row's identity, leaves the rows
   * it never names unchanged, and leaves a written row with a status that one
   * of the writes gave it.
   */
  lemma {:induction false} ApplyAllFrame(vs: seq<Video>, ws: seq<Write>)
    ensures var r := ApplyAll(vs, ws);
      forall i :: 0 <= i < |vs| ==>
        && r[i].(status := vs[i].status, errorMsg := vs[i].errorMsg, filepath := vs[i].filepath) == vs[i]
        && (!Writes(ws, vs[i].id) ==> r[i] == vs[i])
        && (Writes(ws, vs[i].id) ==> exists j :: 0 <= j < |ws| && ws[j].dbId == vs[i].id && ws[j].status == r[i].status)
    decreases |ws|
  {
    if ws != [] {
      var init := ws[..|ws| - 1];
      ApplyAllFrame(vs, init);
      var b := ApplyAll(vs, init);
      var w := ws[|ws| - 1];
      UpdateFrame(b, w.dbId, w.status, w.errorMsg, w.filepath);
      var r := ApplyAll(vs, ws);
      forall i | 0 <= i < |vs|
        ensures (!Writes(ws, vs[i].id) ==> r[i] == vs[i])
        ensures (Writes(ws, vs[i].id) ==> exists j :: 0 <= j < |ws| && ws[j].dbId == vs[i].id && ws[j].status == r[i].status)
      {
        if !Writes(ws, vs[i].id) {
          assert forall j :: 0 <= j < |init| ==> init[j] == ws[j];
          assert !Writes(init, vs[i].id);
        } else if w.dbId == vs[i].id {
          assert ws[|ws| - 1].dbId == vs[i].id && ws[|ws| - 1].status == r[i].status;
        } else {
          var j :| 0 <= j < |ws| && ws[j].dbId == vs[i].id;
          assert j < |ws| - 1 && init[j] == ws[j];
          assert Writes(init, vs[i].id);
          var j' :| 0 <= j' < |init| && init[j'].dbId == vs[i].id && init[j'].status == b[i].status;
          assert ws[j'] == init[j'];
        }
      }
    }
  }

  lemma {:induction false} ApplyAllOk(vs: seq<Video>, next: nat, ws: seq<Write>)
    requires VideosOk(vs, next)
    ensures VideosOk(ApplyAll(vs, ws), next)
    decreases |ws|
  {
    if ws != [] {
      ApplyAllOk(vs, next, ws[..|ws| - 1]);
      var w := ws[|ws| - 1];
      UpdateOk(ApplyAll(vs, ws[..|ws| - 1]), next, w.dbId, w.status, w.errorMsg, w.filepath);
    }
  }

  // ---------------------------------------------------------------- the manager

  class DatabaseManager {
    var settings: map<string, string>
    var playlists: seq<Playlist>
    var nextPlaylistId: nat
    var videos: seq<Video>
    var nextVideoId: nat

    function Snapshot(): Tables
      reads this
    {
      Tables(playlists, nextPlaylistId, videos, nextVideoId)
    }

    ghost predicate Valid()
      reads this
    {
      TablesOk(Snapshot())
    }

    /** A new database file: the three tables exist and are empty. */
    constructor ()
      ensures Valid()
      ensures settings == map[] && Snapshot() == EmptyTables
    {
      settings := map[];
      playlists, nextPlaylistId := [], FirstRowId;
      videos, nextVideoId := [], FirstRowId;
    }

    /** `INSERT OR REPLACE INTO settings`: the last write for a key wins. */
    method SaveSetting(key: string, value: string)
      modifies this`settings
      ensures settings == old(settings)[key := value]
    {
      settings := settings[key := value];
    }

    /** Every stored setting, as a dictionary. */
    method LoadSettings() returns (m: map<string, string>)
      ensures m == settings
    {
      m := settings;
    }

    method GetOrCreatePlaylist(url: string, title: string) returns (id: nat)
      requires Valid()
      modifies this`playlists, this`nextPlaylistId
      ensures Valid()
      ensures Created(Snapshot(), id) == CreatePlaylist(old(Snapshot()), url, title)
    {
      CreatePlaylistOk(Snapshot(), url, title);
      var found := FindPlaylist(playlists, url);
      if found.Some? {
        id := found.value;
      } else {
        id := nextPlaylistId;
        playlists := playlists + [Playlist(nextPlaylistId, url, title)];
        nextPlaylistId := nextPlaylistId + 1;
      }
    }

    method AddVideosToPlaylist(pid: nat, entries: seq<Entry>) returns (count: nat)
      requires Valid()
      modifies this`videos, this`nextVideoId
      ensures Valid()
      ensures Batch(videos, nextVideoId, count) == AddAll(old(videos), old(nextVideoId), pid, entries)
    {
      count := 0;
      for i := 0 to |entries|
        invariant Batch(videos, nextVideoId, count) == AddAll(old(videos), old(nextVideoId), pid, entries[..i])
      {
        assert entries[..i + 1][..i] == entries[..i];
        var e := entries[i];
        if !IsFalsy(e) && !Known(videos, pid, e.value.id) {
          videos := videos + [NewRow(nextVideoId, pid, e.value)];
          nextVideoId := nextVideoId + 1;
          count := count + 1;
        }
      }
      assert entries[..|entries|] == entries;
      AddAllOk(old(videos), old(nextVideoId), pid, entries);
    }

    method GetPendingVideos(pid: nat) returns (r: seq<PendingItem>)
      ensures r == PendingOf(videos, pid)
    {
      r := PendingOf(videos, pid);
    }

    method GetCompletedVideos(pid: nat) returns (r: seq<CompletedItem>)
      ensures r == CompletedOf(videos, pid)
    {
      r := CompletedOf(videos, pid);
    }

    method UpdateVideoStatus(id: nat, status: Status, msg: string, path: string)
      modifies this`videos
      ensures videos == UpdateRows(old(videos), id, status, msg, path)
    {
      videos := UpdateRows(videos, id, status, msg, path);
    }
  }
}
