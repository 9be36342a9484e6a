/**
 * The `PlayerGui` class of the audio player. Besides widgets it keeps three
 * pieces of state: a now-playing text, a flag set by VLC's "playing" event
 * and consumed by the next poll tick, and the id of the poll callback
 * scheduled with Tk's `root.after` (`job`). The Tk timer queue is modelled
 * as the set of callback ids that are scheduled and have neither run nor
 * been cancelled.
 */
module Mp3PlayerGui {
  import opened Wrappers
  import opened Vlc
  import opened Mp3Player

  /** An id returned by `root.after`. */
  type Token = nat

  const NothingPlaying := "Now Playing: N/A"
  const FetchingText := "YT-DLP is fetching media, please wait..."
  const InfoMissingText := "Error: Media info not found."
  const NowPlayingPrefix := "Now Playing: "

  /** The label for the engine's current title, or the fallback when it has none. */
  function NowPlayingText(title: Option<string>): string {
    if title.Some? then NowPlayingPrefix + title.value else InfoMissingText
  }

  /** The GUI's own state: the update flag, the job id, the label text, the position slider and the Tk timer queue. */
  datatype Gui = Gui(needsUpdate: bool, job: Option<Token>, text: string, slider: int, pending: set<Token>, nextToken: Token)

  /** What can happen to the GUI: engine events, Tk timer callbacks and the user's actions. */
  datatype Event =
    | MediaPlaying                                           // VLC MediaPlayerPlaying -> set_needs_update
    | EndReached                                             // VLC MediaPlayerEndReached -> clear_current
    | Timer(token: Token, title: Option<string>, position: int)  // a scheduled callback runs update_media_info
    | SliderPress                                            // <ButtonPress-1> on the slider -> cancel_job
    | SliderDrag(value: int)                                 // the user moves the slider
    | SliderRelease                                          // <ButtonRelease-1> on the slider -> set_position
    | StopClicked                                            // the Stop button -> stop
    | UrlEntered(url: Option<string>)                        // the Open URL dialog's answer -> open_url

  /** `self.job = self.root.after(ms, self.update_media_info)`. */
  function Schedule(g: Gui): Gui {
    g.(job := Some(g.nextToken), pending := g.pending + {g.nextToken}, nextToken := g.nextToken + 1)
  }

  /** `cancel_job`. */
  function CancelJob(g: Gui): Gui {
    if g.job.Some? then g.(pending := g.pending - {g.job.value}, job := None) else g
  }

  /** `set_needs_update`. */
  function SetNeedsUpdate(g: Gui): Gui {
    g.(needsUpdate := true)
  }

  /** `clear_current`. */
  function ClearCurrent(g: Gui): Gui {
    g.(text := NothingPlaying)
  }

  /** `update_media_info`, given the engine's position and current title. */
  function Polled(g: Gui, title: Option<string>, position: int): Gui {
    var moved := g.(slider := position);
    var shown := if moved.needsUpdate then moved.(text := NowPlayingText(title), needsUpdate := false) else moved;
    Schedule(shown)
  }

  /** Tk runs a callback only while it is scheduled; running it takes it off the queue. */
  function Fire(g: Gui, token: Token, title: Option<string>, position: int): Gui {
    if token in g.pending then Polled(g.(pending := g.pending - {token}), title, position) else g
  }

  /** The GUI's part of `set_position`: polling is re-enabled. */
  function SetPosition(g: Gui): Gui {
    Schedule(g)
  }

  /** The GUI's part of `open_url`: a non-empty URL shows the fetching placeholder. */
  function OpenUrl(g: Gui, url: Option<string>): Gui {
    if url.Some? && url.value != "" then g.(text := FetchingText) else g
  }

  function Step(g: Gui, e: Event): Gui {
    match e
    case MediaPlaying => SetNeedsUpdate(g)
    case EndReached => ClearCurrent(g)
    case Timer(token, title, position) => Fire(g, token, title, position)
    case SliderPress => CancelJob(g)
    case SliderDrag(value) => g.(slider := value)
    case SliderRelease => SetPosition(g)
    case StopClicked => ClearCurrent(g)
    case UrlEntered(url) => OpenUrl(g, url)
  }

  function Run(g: Gui, events: seq<Event>): Gui
    decreases |events|
  {
    if events == [] then g else Run(Step(g, events[0]), events[1..])
  }

  /** The state `__init__` leaves: flag clear, text "N/A", one poll scheduled. */
  function Initial(): Gui {
    Schedule(Gui(false, None, NothingPlaying, 0, {}, 0))
  }

  /** Whether mouse button 1 is down on the slider after `e`. */
  function PressedAfter(pressed: bool, e: Event): bool {
    match e
    case SliderPress => true
    case SliderRelease => false
    case _ => pressed
  }

  /** Tk delivers a button release only after the press, and a press only while the button is up. */
  predicate Paired(events: seq<Event>, pressed: bool)
    decreases |events|
  {
    events == [] ||
    (&& (events[0].SliderPress? ==> !pressed)
     && (events[0].SliderRelease? ==> pressed)
     && Paired(events[1..], PressedAfter(pressed, events[0])))
  }

  function PressedAtEnd(events: seq<Event>, pressed: bool): bool
    decreases |events|
  {
    if events == [] then pressed else PressedAtEnd(events[1..], PressedAfter(pressed, events[0]))
  }

  function JobSet(job: Option<Token>): set<Token> {
    if job.Some? then {job.value} else {}
  }

  /**
   * The poll runs as one chain: exactly the callback `job` names is
   * scheduled (none after cancel_job), ids are fresh, and while the slider
   * is held nothing is scheduled.
   */
  predicate Consistent(g: Gui, pressed: bool) {
    && g.pending == JobSet(g.job)
    && (forall t :: t in g.pending ==> t < g.nextToken)
    && (pressed ==> g.job.None?)
  }

  /** The text of the label is always one of the forms the GUI writes. */
  predicate Displayable(text: string) {
    || text == NothingPlaying
    || text == FetchingText
    || text == InfoMissingText
    || (|text| >= |NowPlayingPrefix| && text[..|NowPlayingPrefix|] == NowPlayingPrefix)
  }

  /** The slider's value after `events`: the last drag, or `start` when there is none. */
  function LastDrag(start: int, events: seq<Event>): int
    decreases |events|
  {
    if events == [] then start
    else LastDrag(if events[0].SliderDrag? then events[0].value else start, events[1..])
  }

  // ---------------------------------------------------------------------
  // Properties of single events

  /** `set_needs_update` only sets the flag. */
  lemma PlayingOnlySetsFlag(g: Gui)
    ensures Step(g, MediaPlaying) == g.(needsUpdate := true)
  {
  }

  /**
   * A poll tick moves the slider to the engine's position, shows the
   * current title (or the fallback) only when the flag was set, clears the
   * flag and schedules the next tick.
   */
  lemma TimerTick(g: Gui, token: Token, title: Option<string>, position: int)
    requires Consistent(g, false) && g.job == Some(token)
    ensures var r := Step(g, Timer(token, title, position));
      && !r.needsUpdate
      && r.slider == position
      && r.text == (if g.needsUpdate then NowPlayingText(title) else g.text)
      && r.job.Some? && r.pending == {r.job.value}
  {
  }

  /** cancel_job leaves no job and nothing scheduled, and a second call changes nothing. */
  lemma CancelJobIdempotent(g: Gui)
    requires Consistent(g, false)
    ensures CancelJob(g).job == None && CancelJob(g).pending == {}
    ensures CancelJob(CancelJob(g)) == CancelJob(g)
  {
  }

  /** set_position re-establishes a scheduled job. */
  lemma ReleaseReenablesPolling(g: Gui)
    ensures Step(g, SliderRelease).job.Some?
    ensures Step(g, SliderRelease).job.value in Step(g, SliderRelease).pending
  {
  }

  /** Stop and the end of playback reset the label; open_url with a URL shows the placeholder. */
  lemma TextResets(g: Gui, url: Option<string>)
    ensures Step(g, StopClicked).text == NothingPlaying
    ensures Step(g, EndReached).text == NothingPlaying
    ensures url.Some? && url.value != "" ==> Step(g, UrlEntered(url)).text == FetchingText
    ensures url.None? || url.value == "" ==> Step(g, UrlEntered(url)) == g
  {
  }

  /**
   * A release the press did not precede would leave two poll chains running:
   * set_position schedules without cancelling the job already scheduled.
   */
  lemma UnpairedReleaseDoublesPolling(g: Gui)
    requires Consistent(g, false) && g.job.Some?
    ensures |Step(g, SliderRelease).pending| == 2
  {
    var r := Step(g, SliderRelease);
    assert r.pending == {g.job.value, g.nextToken};
    assert g.job.value != g.nextToken;
  }

  // ---------------------------------------------------------------------
  // Properties of event sequences

  lemma StepConsistent(g: Gui, e: Event, pressed: bool)
    requires Consistent(g, pressed)
    requires e.SliderPress? ==> !pressed
    requires e.SliderRelease? ==> pressed
    ensures Consistent(Step(g, e), PressedAfter(pressed, e))
  {
    if e.Timer? && e.token in g.pending {
      assert g.pending - {e.token} == {};
    }
  }

  /** Under Tk's press/release pairing every reachable state keeps the poll a single chain. */
  lemma {:induction false} RunConsistent(g: Gui, events: seq<Event>, pressed: bool)
    requires Consistent(g, pressed) && Paired(events, pressed)
    ensures Consistent(Run(g, events), PressedAtEnd(events, pressed))
    decreases |events|
  {
    if events != [] {
      StepConsistent(g, events[0], pressed);
      RunConsistent(Step(g, events[0]), events[1..], PressedAfter(pressed, events[0]));
    }
  }

  /** From start-up, at most one poll callback is ever scheduled, and it is the one `job` names. */
  lemma SinglePollChain(events: seq<Event>)
    requires Paired(events, false)
    ensures Run(Initial(), events).pending == JobSet(Run(Initial(), events).job)
    ensures |Run(Initial(), events).pending| <= 1
  {
    RunConsistent(Initial(), events, false);
  }

  /**
   * While the slider is held, no poll tick runs: the slider keeps the value
   * the user dragged it to, and nothing is scheduled until the release.
   */
  lemma {:induction false} ScrubbingKeepsSlider(g: Gui, events: seq<Event>)
    requires Consistent(g, true)
    requires forall i :: 0 <= i < |events| ==> !events[i].SliderPress? && !events[i].SliderRelease?
    ensures Run(g, events).slider == LastDrag(g.slider, events)
    ensures Run(g, events).pending == {} && Run(g, events).job == None
    decreases |events|
  {
    if events != [] {
      var next := Step(g, events[0]);
      assert next.slider == if events[0].SliderDrag? then events[0].value else g.slider;
      assert Consistent(next, true);
      ScrubbingKeepsSlider(next, events[1..]);
    }
  }

  /** Whatever happens, the label shows one of the GUI's texts. */
  lemma {:induction false} TextAlwaysDisplayable(g: Gui, events: seq<Event>)
    requires Displayable(g.text)
    ensures Displayable(Run(g, events).text)
    decreases |events|
  {
    if events != [] {
      var next := Step(g, events[0]);
      assert Displayable(next.text) by {
        if events[0].Timer? && events[0].token in g.pending && g.needsUpdate && events[0].title.Some? {
          var t := NowPlayingPrefix + events[0].title.value;
          assert next.text == t;
          assert t[..|NowPlayingPrefix|] == NowPlayingPrefix;
        }
      }
      TextAlwaysDisplayable(next, events[1..]);
    }
  }

  /** A "playing" event is shown by the next poll tick: the flag round-trips. */
  lemma PlayingShownAtNextTick(g: Gui, title: Option<string>, position: int)
    requires Consistent(g, false) && g.job.Some?
    ensures var r := Run(g, [MediaPlaying, Timer(g.job.value, title, position)]);
      r.text == NowPlayingText(title) && !r.needsUpdate
  {
    var e := [MediaPlaying, Timer(g.job.value, title, position)];
    var flagged := Step(g, MediaPlaying);
    assert e[1..] == [e[1]] && e[1..][1..] == [];
    assert Run(g, e) == Run(flagged, [e[1]]) == Step(flagged, e[1]);
  }

  // ---------------------------------------------------------------------
  // The GUI object

  /**
   * The engine after `open_media` carried out `plan` with the fresh list `l`
   * while the volume slider stood at `volume`: as `open` leaves it, with
   * that volume applied unless the open raised.
   */
  function OpenedAt(e: EngineState, l: MediaList, plan: Plan, volume: int): (r: EngineState)
    ensures plan.Raise? ==> r == e
    ensures plan.Install? ==> r == Opened(e, l, plan).(volume := volume)
    ensures plan.Install? && plan.items != [] ==> r.current == Some(0) && r.state == Playing && r.volume == volume
  {
    if plan.Raise? then e else Opened(e, l, plan).(volume := volume)
  }

  class PlayerGui {
    const player: Player
    var mediaNeedsUpdate: bool
    var job: Option<Token>
    var nowPlayingText: string
    var posSlider: int
    var volumeSlider: int
    /** Poll callbacks Tk has scheduled and has neither run nor cancelled. */
    var pending: set<Token>
    /** The id the next `root.after` returns. */
    var nextToken: Token

    function State(): Gui
      reads this
    {
      Gui(mediaNeedsUpdate, job, nowPlayingText, posSlider, pending, nextToken)
    }

    constructor (player: Player)
      ensures this.player == player
      ensures State() == Initial() && volumeSlider == 100
    {
      this.player := player;
      mediaNeedsUpdate := false;
      job := Some(0);
      pending := {0};
      nextToken := 1;
      volumeSlider := 100;
      nowPlayingText := NothingPlaying;
      posSlider := 0;
    }

    method CancelJob()
      modifies this
      ensures State() == Step(old(State()), SliderPress) && volumeSlider == old(volumeSlider)
    {
      if job.Some? {
        pending := pending - {job.value};
        job := None;
      }
    }

    method ClearCurrent()
      modifies this
      ensures State() == Step(old(State()), EndReached) && volumeSlider == old(volumeSlider)
    {
      nowPlayingText := NothingPlaying;
    }

    method SetNeedsUpdate()
      modifies this
      ensures State() == Step(old(State()), MediaPlaying) && volumeSlider == old(volumeSlider)
    {
      mediaNeedsUpdate := true;
    }

    /** The user lets go of the position slider: the engine seeks to it and polling resumes. */
    method SetPosition()
      modifies this, player.listPlayer
      ensures State() == Step(old(State()), SliderRelease) && volumeSlider == old(volumeSlider)
      ensures player.listPlayer.Engine() == old(player.listPlayer.Engine()).(position := old(posSlider))
    {
      player.SetPosition(posSlider);
      job := Some(nextToken);
      pending := pending + {nextToken};
      nextToken := nextToken + 1;
    }

    method Stop()
      modifies this, player.listPlayer
      ensures State() == Step(old(State()), StopClicked) && volumeSlider == old(volumeSlider)
      ensures player.listPlayer.Engine() == old(player.listPlayer.Engine()).(state := Stopped)
    {
      player.Stop();
      ClearCurrent();
    }

    /** `update_media_info`; `title` is what the engine reports for its current media. */
    method UpdateMediaInfo(title: Option<string>)
      modifies this
      ensures State() == Polled(old(State()), title, player.listPlayer.position)
      ensures volumeSlider == old(volumeSlider)
    {
      posSlider := player.GetPosition();
      if mediaNeedsUpdate {
        nowPlayingText := NowPlayingText(title);
        mediaNeedsUpdate := false;
      }
      job := Some(nextToken);
      pending := pending + {nextToken};
      nextToken := nextToken + 1;
    }

    /** Tk runs the scheduled callback `token`. */
    method RunScheduled(token: Token, title: Option<string>)
      requires token in pending
      modifies this
      ensures State() == Step(old(State()), Timer(token, title, player.listPlayer.position))
      ensures volumeSlider == old(volumeSlider)
    {
      pending := pending - {token};
      UpdateMediaInfo(title);
    }

    /** The volume slider moved: the engine takes the new volume. */
    method VolumeChanged(volume: int)
      modifies this, player.listPlayer
      ensures State() == old(State()) && volumeSlider == volume
      ensures player.listPlayer.Engine() == old(player.listPlayer.Engine()).(volume := volume)
    {
      volumeSlider := volume;
      player.SetVolume(volume);
    }

    /**
     * `open_media`: open, then, when the open did not raise, give the engine
     * the volume slider's value (the engine modelled here keeps its volume
     * across the change of media, so this only matters when the two differ).
     */
    method OpenMedia(url: string, resolve: Resolver) returns (raised: Option<OpenError>)
      modifies player, player.listPlayer
      ensures raised == if OpenPlan(url, resolve).Raise? then Some(OpenPlan(url, resolve).error) else None
      ensures OpenPlan(url, resolve).Install? ==>
        fresh(player.listPlayer.list) && player.listPlayer.list.items == OpenPlan(url, resolve).items
      ensures player.listPlayer.Engine() ==
        OpenedAt(old(player.listPlayer.Engine()), player.listPlayer.list, OpenPlan(url, resolve), volumeSlider)
      ensures player.ydlUrl == if IsRemote(url) then Some(url) else old(player.ydlUrl)
      ensures player.ydlThread == ThreadAfter(old(player.ydlThread), player.listPlayer.list, OpenPlan(url, resolve))
    {
      raised := player.Open(url, resolve);
      if raised.None? {
        player.SetVolume(volumeSlider);
      }
    }

    /** `open_file`; `path` is the dialog's answer, empty when it was cancelled. */
    method OpenFile(path: string, resolve: Resolver) returns (raised: Option<OpenError>)
      modifies player, player.listPlayer
      ensures path == "" ==>
        && raised == None
        && player.listPlayer.Engine() == old(player.listPlayer.Engine())
        && player.ydlUrl == old(player.ydlUrl) && player.ydlThread == old(player.ydlThread)
      ensures path != "" ==> var plan := OpenPlan(path, resolve);
        && raised == (if plan.Raise? then Some(plan.error) else None)
        && (plan.Install? ==> fresh(player.listPlayer.list) && player.listPlayer.list.items == plan.items)
        && player.listPlayer.Engine() == OpenedAt(old(player.listPlayer.Engine()), player.listPlayer.list, plan, volumeSlider)
        && player.ydlUrl == (if IsRemote(path) then Some(path) else old(player.ydlUrl))
        && player.ydlThread == ThreadAfter(old(player.ydlThread), player.listPlayer.list, plan)
    {
      raised := None;
      if path != "" {
        raised := OpenMedia(path, resolve);
      }
    }

    /**
     * `open_url`; `url` is the dialog's answer. A non-empty URL stops the
     * engine, shows the fetching placeholder and opens, so an open that
     * installs nothing leaves the engine stopped.
     */
    method OpenUrl(url: Option<string>, resolve: Resolver) returns (raised: Option<OpenError>)
      modifies this, player, player.listPlayer
      ensures State() == Step(old(State()), UrlEntered(url)) && volumeSlider == old(volumeSlider)
      ensures (url.None? || url.value == "") ==>
        && raised == None
        && player.listPlayer.Engine() == old(player.listPlayer.Engine())
        && player.ydlUrl == old(player.ydlUrl) && player.ydlThread == old(player.ydlThread)
      ensures url.Some? && url.value != "" ==> var plan := OpenPlan(url.value, resolve);
        && raised == (if plan.Raise? then Some(plan.error) else None)
        && (plan.Install? ==> fresh(player.listPlayer.list) && player.listPlayer.list.items == plan.items)
        && player.listPlayer.Engine() ==
             OpenedAt(old(player.listPlayer.Engine()).(state := Stopped), player.listPlayer.list, plan, volumeSlider)
        && player.ydlUrl == (if IsRemote(url.value) then Some(url.value) else old(player.ydlUrl))
        && player.ydlThread == ThreadAfter(old(player.ydlThread), player.listPlayer.list, plan)
    {
      raised := None;
      if url.Some? && url.value != "" {
        player.Stop();
        nowPlayingText := FetchingText;
        raised := OpenMedia(url.value, resolve);
      }
    }
  }
}
