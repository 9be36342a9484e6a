/**
 * The part of the VLC media engine the player drives, reduced to an
 * abstract play queue: a media list object that can be shared and grown,
 * and a list player that holds one list, a current index, a play state,
 * a position (in percent) and a volume.
 */
module Vlc {
  import opened Wrappers

  /** A media item: a local path, or a resolved stream URL tagged with its title. */
  datatype Media = LocalMedia(path: string) | RemoteMedia(mrl: string, title: string)

  datatype PlayState = Stopped | Playing | Paused

  /** `pause()` toggles between playing and paused; a stopped player stays stopped. */
  function Toggled(s: PlayState): (r: PlayState)
    ensures s == Stopped <==> r == Stopped
    ensures s != Stopped ==> r != s
  {
    match s case Playing => Paused case Paused => Playing case Stopped => Stopped
  }

  /** The queue position after `next()`: one further on, when the list has one. */
  function NextIndex(current: Option<nat>, length: nat): (r: Option<nat>)
    ensures r.Some? ==> r.value < length
    ensures r.Some? <==> current.Some? && current.value + 1 < length
    ensures r.Some? ==> r.value == current.value + 1
  {
    if current.Some? && current.value + 1 < length then Some(current.value + 1) else None
  }

  /** The queue position after `previous()`: one back, when there is one. */
  function PreviousIndex(current: Option<nat>): (r: Option<nat>)
    ensures r.Some? <==> current.Some? && current.value > 0
    ensures r.Some? ==> r.value + 1 == current.value
  {
    if current.Some? && current.value > 0 then Some(current.value - 1) else None
  }

  /** Everything a list player holds, as one value: the stored list, the current index, the play state, the position and the volume. */
  datatype EngineState = EngineState(list: MediaList, current: Option<nat>, state: PlayState, position: int, volume: int)

  /**
   * What `play()` leaves of a player whose list holds `count` items: a player
   * with no current item starts the first one, when there is one; one with a
   * current item resumes it.
   */
  function Played(e: EngineState, count: nat): (r: EngineState)
    ensures r.list == e.list && r.volume == e.volume
    ensures e.current.None? && count == 0 ==> r == e
    ensures e.current.None? && count > 0 ==> r.current == Some(0) && r.state == Playing && r.position == 0
    ensures e.current.Some? ==> r.current == e.current && r.state == Playing && r.position == e.position
  {
    if e.current.None? then
      if count == 0 then e else e.(current := Some(0), state := Playing, position := 0)
    else e.(state := Playing)
  }

  /**
   * What `next()` or `previous()` leaves: the target item, played from its
   * start, or the player as it was when there is no target.
   */
  function Moved(e: EngineState, target: Option<nat>): (r: EngineState)
    ensures r.list == e.list && r.volume == e.volume
    ensures target.None? ==> r == e
    ensures target.Some? ==> r.current == target && r.state == Playing && r.position == 0
  {
    if target.Some? then e.(current := target, state := Playing, position := 0) else e
  }

  /** A `media_list_new()` object; the list player and a background fetch may share it. */
  class MediaList {
    var items: seq<Media>

    constructor ()
      ensures items == []
    {
      items := [];
    }

    method AddMedia(m: Media)
      modifies this
      ensures items == old(items) + [m]
    {
      items := items + [m];
    }
  }

  /** A `media_list_player_new()` object together with its media player. */
  class ListPlayer {
    var list: MediaList
    var current: Option<nat>
    var state: PlayState
    var position: int
    var volume: int

    function Engine(): EngineState
      reads this
    {
      EngineState(list, current, state, position, volume)
    }

    constructor ()
      ensures fresh(list) && list.items == []
      ensures current == None && state == Stopped && position == 0 && volume == 100
    {
      list := new MediaList();
      current := None;
      state := Stopped;
      position := 0;
      volume := 100;
    }

    /** Installs a new list; nothing of the old one stays reachable from the player. */
    method SetMediaList(l: MediaList)
      modifies this
      ensures Engine() == old(Engine()).(list := l, current := None)
    {
      list := l;
      current := None;
    }

    /** Starts the first item of a freshly installed list; with an empty list nothing changes. */
    method Play()
      modifies this
      ensures Engine() == Played(old(Engine()), |list.items|)
    {
      if current.None? {
        if list.items != [] {
          current := Some(0);
          state := Playing;
          position := 0;
        }
      } else {
        state := Playing;
      }
    }

    /** Toggles between playing and paused; a stopped player stays stopped. */
    method Pause()
      modifies this
      ensures Engine() == old(Engine()).(state := Toggled(old(state)))
    {
      state := Toggled(state);
    }

    method Stop()
      modifies this
      ensures Engine() == old(Engine()).(state := Stopped)
    {
      state := Stopped;
    }

    /** Moves to the next queued item and plays it; past the end it does nothing. */
    method Next()
      modifies this
      ensures Engine() == Moved(old(Engine()), NextIndex(old(current), |list.items|))
    {
      var n := NextIndex(current, |list.items|);
      if n.Some? {
        current := n;
        state := Playing;
        position := 0;
      }
    }

    /** Moves to the previous queued item and plays it; at the start it does nothing. */
    method Previous()
      modifies this
      ensures Engine() == Moved(old(Engine()), PreviousIndex(old(current)))
    {
      var n := PreviousIndex(current);
      if n.Some? {
        current := n;
        state := Playing;
        position := 0;
      }
    }

    method SetPosition(p: int)
      modifies this
      ensures Engine() == old(Engine()).(position := p)
    {
      position := p;
    }

    method SetVolume(v: int)
      modifies this
      ensures Engine() == old(Engine()).(volume := v)
    {
      volume := v;
    }
  }
}
