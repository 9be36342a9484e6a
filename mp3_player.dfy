/**
 * The `Player` class of the audio player: it opens a local file or a
 * remote URL, resolving remote URLs through yt-dlp, installs a fresh media
 * list in the VLC list player and starts playing; for a remote playlist a
 * background thread resolves the following entries and appends them to
 * that same list.
 */
module Mp3Player {
  import opened Wrappers
  import opened Vlc

  type Url = string

  /** What yt-dlp's `extract_info` yields for a URL: a stream URL and title, and the entries of a playlist. */
  datatype YtInfo = YtInfo(url: Url, title: string, entries: Option<seq<Url>>)

  /** `extract_info(url, download=False)`; None stands for a falsy result. */
  type Resolver = Url -> Option<YtInfo>

  /** The background thread resolves at most this many playlist entries, counting the first. */
  const FetchLimit := 50

  /** The exception `open` lets escape: IndexError on an empty playlist, TypeError when its first entry resolves to None. */
  datatype OpenError = IndexError | TypeError

  /** What `open` installs: the new list's items and, for a playlist, the song list handed to the background thread. */
  datatype Plan = Install(items: seq<Media>, songList: Option<seq<Url>>) | Raise(error: OpenError)

  /** A started background thread: the media list it appends to and the playlist it works through. */
  datatype Fetch = Fetch(mlist: MediaList, songList: seq<Url>)

  /** `uri.startswith('http')`. */
  predicate IsRemote(uri: string) {
    |uri| >= 4 && uri[..4] == "http"
  }

  function ToMedia(info: YtInfo): Media {
    RemoteMedia(info.url, info.title)
  }

  function Min(a: int, b: int): int {
    if a <= b then a else b
  }

  /** `song_list[1:50]`: the entries after the first, up to the limit. */
  function BackgroundEntries(songList: seq<Url>): (r: seq<Url>)
    ensures |r| == if |songList| <= 1 then 0 else Min(FetchLimit, |songList|) - 1
    ensures forall i :: 0 <= i < |r| ==> r[i] == songList[i + 1]
  {
    if |songList| <= 1 then [] else songList[1..Min(FetchLimit, |songList|)]
  }

  /**
   * What the background thread appends for `urls`: each resolution, in
   * order, up to the first URL that resolves to None (subscripting None
   * raises TypeError and ends the thread).
   */
  function Fetched(urls: seq<Url>, resolve: Resolver): (r: seq<Media>)
    ensures |r| <= |urls|
    ensures forall i :: 0 <= i < |r| ==> resolve(urls[i]).Some? && r[i] == ToMedia(resolve(urls[i]).value)
    ensures |r| < |urls| ==> resolve(urls[|r|]).None?
  {
    if urls == [] then []
    else match resolve(urls[0])
      case None => []
      case Some(info) => [ToMedia(info)] + Fetched(urls[1..], resolve)
  }

  /** One step of the background thread: the entry at `i` is resolved, or the thread ends there. */
  lemma FetchedAt(urls: seq<Url>, i: nat, resolve: Resolver)
    requires i < |urls|
    ensures Fetched(urls[i..], resolve) ==
      if resolve(urls[i]).None? then [] else [ToMedia(resolve(urls[i]).value)] + Fetched(urls[i + 1..], resolve)
  {
    assert urls[i..][0] == urls[i];
    assert urls[i..][1..] == urls[i + 1..];
  }

  /** The outcome of `open(uri)` for a given resolver. */
  function OpenPlan(uri: string, resolve: Resolver): Plan {
    if !IsRemote(uri) then Install([LocalMedia(uri)], None)
    else match resolve(uri)
      case None => Install([], None)
      case Some(info) =>
        match info.entries
        case None => Install([ToMedia(info)], None)
        case Some(songList) =>
          if songList == [] then Raise(IndexError)
          else match resolve(songList[0])
            case None => Raise(TypeError)
            case Some(first) => Install([ToMedia(first)], Some(songList))
  }

  /**
   * The engine after `open` carried out `plan` with the fresh list `l`: a
   * raise leaves it as it was; otherwise `l` is installed and played.
   */
  function Opened(e: EngineState, l: MediaList, plan: Plan): (r: EngineState)
    ensures r.volume == e.volume
    ensures plan.Raise? ==> r == e
    ensures plan.Install? && plan.items != [] ==>
      r.list == l && r.current == Some(0) && r.state == Playing && r.position == 0
    ensures plan.Install? && plan.items == [] ==>
      r.list == l && r.current == None && r.state == e.state && r.position == e.position
  {
    if plan.Raise? then e else Played(e.(list := l, current := None), |plan.items|)
  }

  /** The thread record after `open` carried out `plan` with the fresh list `l`: only a playlist starts one. */
  function ThreadAfter(t: Option<Fetch>, l: MediaList, plan: Plan): Option<Fetch> {
    if plan.Install? && plan.songList.Some? then Some(Fetch(l, plan.songList.value)) else t
  }

  class Player {
    const listPlayer: ListPlayer
    /** The last remote URI opened, which `save` downloads. */
    var ydlUrl: Option<Url>
    /** The last background thread started. */
    var ydlThread: Option<Fetch>

    constructor ()
      ensures fresh(listPlayer) && fresh(listPlayer.list) && listPlayer.list.items == []
      ensures listPlayer.Engine() == EngineState(listPlayer.list, None, Stopped, 0, 100)
      ensures ydlUrl == None && ydlThread == None
    {
      listPlayer := new ListPlayer();
      ydlUrl := None;
      ydlThread := None;
    }

    method GetPosition() returns (p: int)
      ensures p == listPlayer.position
    {
      p := listPlayer.position;
    }

    /**
     * `open(uri)`. The URI is remote when it starts with "http"; only then is
     * it remembered for `save`. A new media list is built, installed whole
     * and played; a playlist also starts the background thread on that list.
     */
    method Open(uri: string, resolve: Resolver) returns (raised: Option<OpenError>)
      modifies this, listPlayer
      ensures ydlUrl == if IsRemote(uri) then Some(uri) else old(ydlUrl)
      ensures raised == if OpenPlan(uri, resolve).Raise? then Some(OpenPlan(uri, resolve).error) else None
      ensures OpenPlan(uri, resolve).Install? ==> fresh(listPlayer.list) && listPlayer.list.items == OpenPlan(uri, resolve).items
      ensures listPlayer.Engine() == Opened(old(listPlayer.Engine()), listPlayer.list, OpenPlan(uri, resolve))
      ensures ydlThread == ThreadAfter(old(ydlThread), listPlayer.list, OpenPlan(uri, resolve))
    {
      var mlist := new MediaList();
      if IsRemote(uri) {
        ydlUrl := Some(uri);
        var ytInfo := resolve(uri);
        if ytInfo.Some? {
          match ytInfo.value.entries {
            case Some(songList) =>
              if songList == [] {
                return Some(IndexError);
              }
              var first := resolve(songList[0]);
              if first.None? {
                return Some(TypeError);
              }
              mlist.AddMedia(ToMedia(first.value));
              ydlThread := Some(Fetch(mlist, songList));
            case None =>
              mlist.AddMedia(ToMedia(ytInfo.value));
          }
        }
      } else {
        // Metadata parsing of the local file is left to the engine.
        mlist.AddMedia(LocalMedia(uri));
      }
      listPlayer.SetMediaList(mlist);
      listPlayer.Play();
      raised := None;
    }

    /**
     * `_ydl_background_thread(mlist, song_list, mlistplayer)`, run to the end:
     * resolves the entries after the first, up to the limit, and appends them
     * to `mlist` in playlist order.
     */
    method YdlBackgroundThread(mlist: MediaList, songList: seq<Url>, resolve: Resolver)
      modifies mlist
      ensures mlist.items == old(mlist.items) + Fetched(BackgroundEntries(songList), resolve)
    {
      var songs := BackgroundEntries(songList);
      var i := 0;
      while i < |songs|
        invariant 0 <= i <= |songs|
        invariant old(mlist.items) + Fetched(songs, resolve) == mlist.items + Fetched(songs[i..], resolve)
      {
        FetchedAt(songs, i, resolve);
        var ytInfo := resolve(songs[i]);
        if ytInfo.None? {
          // Subscripting None raises TypeError and ends the thread.
          assert mlist.items + [] == mlist.items;
          return;
        }
        var m := ToMedia(ytInfo.value);
        assert mlist.items + ([m] + Fetched(songs[i + 1..], resolve)) == (mlist.items + [m]) + Fetched(songs[i + 1..], resolve);
        mlist.AddMedia(m);
        i := i + 1;
      }
    }

    method Next()
      modifies listPlayer
      ensures listPlayer.Engine() == Moved(old(listPlayer.Engine()), NextIndex(old(listPlayer.current), |listPlayer.list.items|))
    {
      listPlayer.Next();
    }

    method Prev()
      modifies listPlayer
      ensures listPlayer.Engine() == Moved(old(listPlayer.Engine()), PreviousIndex(old(listPlayer.current)))
    {
      listPlayer.Previous();
    }

    method Pause()
      modifies listPlayer
      ensures listPlayer.Engine() == old(listPlayer.Engine()).(state := Toggled(old(listPlayer.state)))
    {
      listPlayer.Pause();
    }

    method Stop()
      modifies listPlayer
      ensures listPlayer.Engine() == old(listPlayer.Engine()).(state := Stopped)
    {
      listPlayer.Stop();
    }

    method SetPosition(p: int)
      modifies listPlayer
      ensures listPlayer.Engine() == old(listPlayer.Engine()).(position := p)
    {
      listPlayer.SetPosition(p);
    }

    method SetVolume(v: int)
      modifies listPlayer
      ensures listPlayer.Engine() == old(listPlayer.Engine()).(volume := v)
    {
      listPlayer.SetVolume(v);
    }
  }

  // ---------------------------------------------------------------------
  // Properties of open and of the background fetch

  /** A URI that does not start with "http" is played as it is, as the only item. */
  lemma LocalOpened(uri: string, resolve: Resolver)
    requires !IsRemote(uri)
    ensures OpenPlan(uri, resolve) == Install([LocalMedia(uri)], None)
  {
  }

  /**
   * A remote URI that resolves to a single item gives a one-item list with
   * its stream URL and title; a falsy resolution gives an empty list.
   */
  lemma RemoteSingleOpened(uri: string, resolve: Resolver)
    requires IsRemote(uri)
    ensures resolve(uri).None? ==> OpenPlan(uri, resolve) == Install([], None)
    ensures resolve(uri).Some? && resolve(uri).value.entries.None? ==>
      OpenPlan(uri, resolve) == Install([RemoteMedia(resolve(uri).value.url, resolve(uri).value.title)], None)
  {
  }

  /**
   * A remote playlist starts with its first entry, resolved again on its own,
   * and hands the whole song list to the background thread; an empty
   * playlist raises IndexError and an unresolvable first entry TypeError.
   */
  lemma PlaylistOpened(uri: string, resolve: Resolver, songList: seq<Url>)
    requires IsRemote(uri) && resolve(uri).Some? && resolve(uri).value.entries == Some(songList)
    ensures songList == [] ==> OpenPlan(uri, resolve) == Raise(IndexError)
    ensures songList != [] && resolve(songList[0]).None? ==> OpenPlan(uri, resolve) == Raise(TypeError)
    ensures songList != [] && resolve(songList[0]).Some? ==>
      OpenPlan(uri, resolve) == Install([ToMedia(resolve(songList[0]).value)], Some(songList))
  {
  }

  /**
   * The queue of a playlist once the background thread has finished: entry
   * i of the queue is the resolution of entry i of the playlist, there are
   * never more than 50 of them, and exactly min(50, |playlist|) when every
   * one of those resolves.
   */
  lemma PlaylistQueue(songList: seq<Url>, resolve: Resolver)
    requires songList != [] && resolve(songList[0]).Some?
    ensures var queue := [ToMedia(resolve(songList[0]).value)] + Fetched(BackgroundEntries(songList), resolve);
      && |queue| <= Min(FetchLimit, |songList|)
      && (forall i :: 0 <= i < |queue| ==> resolve(songList[i]).Some? && queue[i] == ToMedia(resolve(songList[i]).value))
      && ((forall i :: 0 <= i < Min(FetchLimit, |songList|) ==> resolve(songList[i]).Some?) ==>
            |queue| == Min(FetchLimit, |songList|))
  {
    var rest := BackgroundEntries(songList);
    var fetched := Fetched(rest, resolve);
    var queue := [ToMedia(resolve(songList[0]).value)] + fetched;
    forall i | 0 < i < |queue|
      ensures resolve(songList[i]).Some? && queue[i] == ToMedia(resolve(songList[i]).value)
    {
      assert queue[i] == fetched[i - 1];
      assert rest[i - 1] == songList[i];
    }
  }

  /**
   * Opening a playlist and letting the background thread finish leaves the
   * list player with the playlist's first min(50, |playlist|) entries at
   * most, in order, playing the first.
   */
  method OpenPlaylistThenFetch(p: Player, uri: string, resolve: Resolver)
    requires OpenPlan(uri, resolve).Install? && OpenPlan(uri, resolve).songList.Some?
    modifies p, p.listPlayer
    ensures var songList := OpenPlan(uri, resolve).songList.value;
      && p.listPlayer.list.items == [ToMedia(resolve(songList[0]).value)] + Fetched(BackgroundEntries(songList), resolve)
      && |p.listPlayer.list.items| <= FetchLimit
      && p.listPlayer.current == Some(0) && p.listPlayer.state == Playing
  {
    var raised := p.Open(uri, resolve);
    var fetch := p.ydlThread.value;
    p.YdlBackgroundThread(fetch.mlist, fetch.songList, resolve);
    PlaylistQueue(fetch.songList, resolve);
  }

  /**
   * A background thread of an earlier open appends only to the earlier,
   * replaced list: the list of the current open is left as that open built it.
   */
  method StaleFetchDoesNotLeak(p: Player, first: string, second: string, resolve: Resolver)
    requires OpenPlan(first, resolve).Install? && OpenPlan(first, resolve).songList.Some?
    requires OpenPlan(second, resolve).Install?
    modifies p, p.listPlayer
    ensures p.listPlayer.list.items == OpenPlan(second, resolve).items
  {
    var raised := p.Open(first, resolve);
    var stale := p.ydlThread.value;
    raised := p.Open(second, resolve);
    p.YdlBackgroundThread(stale.mlist, stale.songList, resolve);
  }

  /**
   * When the later open raises instead, it returns before installing its
   * list, so the earlier list stays installed and the stale thread's entries
   * do reach the queue that is playing.
   */
  method StaleFetchAfterRaise(p: Player, first: string, second: string, resolve: Resolver)
    requires OpenPlan(first, resolve).Install? && OpenPlan(first, resolve).songList.Some?
    requires OpenPlan(second, resolve).Raise?
    modifies p, p.listPlayer
    ensures p.listPlayer.list.items ==
      OpenPlan(first, resolve).items + Fetched(BackgroundEntries(OpenPlan(first, resolve).songList.value), resolve)
  {
    var raised := p.Open(first, resolve);
    var stale := p.ydlThread.value;
    raised := p.Open(second, resolve);
    p.YdlBackgroundThread(stale.mlist, stale.songList, resolve);
  }
}
