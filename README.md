# mp3-player core, modelled in Dafny

This project models the two pieces of logic in the mp3-player repository
that are more than calls into VLC, yt-dlp and tkinter:

- **SavePlaylistPP**, a yt-dlp post-processor. For each downloaded file it
  appends the file's base name, plus a newline, to `<dir>/<playlist title>.m3u`
  in that file's directory. The output is bare M3U: no `#EXTM3U` header and
  one relative path per line. The filesystem is a map from path to contents.
  `dirname`, `basename` and `join` follow Python's `posixpath` on strings.
- **Player** and **PlayerGui** in `mp3-player.py`.
  - `Player.open` sorts a URI into local or remote by its `http` prefix.
  - It builds a fresh VLC media list: the local path, one resolved remote
    item, or the first entry of a remote playlist.
  - It installs that list in the list player and starts playback.
  - For a playlist, a background thread resolves `entries[1:50]` and appends
    them to the same list object.
  - `PlayerGui` keeps a "media needs update" flag, the id of the scheduled
    poll callback (`job`) and the now-playing text. VLC events, the poll
    tick, the position slider and the buttons change them.

Files and modules:

| file | module | models |
|---|---|---|
| `wrappers.dfy` | `Wrappers` | `Option` (a value or None) |
| `posix_path.dfy` | `PosixPath` | `os.path.dirname`, `basename`, `join` |
| `playlist_plugin.dfy` | `PlaylistPlugin` | `SavePlaylistPP.run`, `append_to_playlist_file` |
| `vlc.dfy` | `Vlc` | the VLC objects the player drives: a media list (a class, so it can be shared) and a list player |
| `mp3_player.dfy` | `Mp3Player` | `Player` |
| `player_gui.dfy` | `Mp3PlayerGui` | `PlayerGui` |

External collaborators become parameters:

- yt-dlp's `extract_info` is a total function `Resolver = Url -> Option<YtInfo>`.
  `None` stands for a falsy result. `YtInfo` holds `url`, `title` and the
  optional `entries`.
- The title VLC reports for its current media is a parameter of the poll tick.
- The engine's playback position is a field of the list player, in percent.

Python's info dictionary keys are `Field<T> = Missing | Null | Present(v)`.
So `d.get(k)`, `d.get(k, default)` and the truthiness tests of `run` are
written out case by case. A `playlist_title` mapped to None gives `None.m3u`,
and a `_type` of None counts as "not a video".

The Tk timer queue is the set `pending` of scheduled callback ids plus a
counter for fresh ids. This makes "cancel_job stops polling" and "only one
poll chain runs" statable. The GUI's state is also a datatype `Gui`, with
one step function per event and `Run` over event sequences. Seven
`PlayerGui` methods are specified as `State() == Step(old(State()), e)` for
their event `e`: `CancelJob`, `ClearCurrent`, `SetNeedsUpdate`,
`SetPosition`, `Stop`, `RunScheduled` and `OpenUrl`. The others are not:
`UpdateMediaInfo` is specified by `Polled`, the tick without the removal
of its own callback from the queue. `VolumeChanged` states that the GUI
state stays. `OpenMedia` and `OpenFile`, the Open File button's handler,
may change only the player and the engine, so the GUI state stays by
their frame. That is why the Open File button has no `Event`.

The list player's five fields are also one value, `EngineState`, read by
`ListPlayer.Engine()`. Every method that drives the engine states the whole
new `EngineState`, so whatever it does not name stays as it was.

The playlist title is not sanitised, and the model keeps that. A title
holding `/` makes `join` put the playlist below the recorded file's
directory: `AC/DC` writes `<dir>/AC/DC.m3u`. A title starting with `/`
gives an absolute path, away from the recorded file.

Four behaviours of the code that are easy to misread:

- The background thread stops at the first entry that resolves to None.
  Subscripting None raises TypeError and ends the thread, so later entries
  are not skipped and fetched.
- Opening a new URI does not cancel a running background thread. The stale
  thread keeps appending to the earlier media list. When the new open
  installs a list, the earlier one is no longer installed, so nothing leaks
  into the new queue (`StaleFetchDoesNotLeak`). When the new open raises
  (an empty playlist, or a first entry resolving to None), it returns before
  `set_media_list`. The earlier list then stays installed, and the stale
  thread's entries do reach the playing queue (`StaleFetchAfterRaise`).
- `open` returns nothing. A playlist with no entries raises IndexError
  (`song_list[0]`). A first entry that resolves to None raises TypeError.
  Both escape `open` before the new list is installed.
- The thread builds its own `YoutubeDL` but resolves with `self.ydl`. So
  one resolver serves every call.

## Model

| member | source | states |
|---|---|---|
| `PosixPath.LastSepEnd` | yt_dlp_plugins/postprocessor/playlistplugin.py:39 | the split point is just after the last `/` (0 if there is none): no separator follows it |
| `PosixPath.DirName` | yt_dlp_plugins/postprocessor/playlistplugin.py:39 | `dirname` is a prefix of the path in normal form; it is empty iff the path has no `/`; only separators lie between it and the base name |
| `PosixPath.BaseName` | yt_dlp_plugins/postprocessor/playlistplugin.py:41 | `basename` contains no `/` and is a suffix of the path |
| `PosixPath.Join` | yt_dlp_plugins/postprocessor/playlistplugin.py:39 | `join(a, b)` is `b` when `b` is absolute; otherwise it starts with `a` and ends with `b` |
| `PosixPath.DirNameOfJoin` | yt_dlp_plugins/postprocessor/playlistplugin.py:39 | joining a file name without `/` onto a dirname gives a path whose dirname and basename are those two parts again |
| `PosixPath.JoinDirBase` | yt_dlp_plugins/postprocessor/playlistplugin.py:39-41 | for a path without doubled separators, `join(dirname(p), basename(p)) == p` |
| `PlaylistPlugin.Appended` | yt_dlp_plugins/postprocessor/playlistplugin.py:40-42 | an append-mode write adds the path if it is missing; the file becomes its old contents (or empty) followed by the text; other files keep their contents |
| `PlaylistPlugin.AppendEachOnlyGrows` | yt_dlp_plugins/postprocessor/playlistplugin.py:40-42 | after any sequence of appends, every file that existed still exists and keeps its old contents as a prefix |
| `PlaylistPlugin.AppendEachFrame` | yt_dlp_plugins/postprocessor/playlistplugin.py:38-42 | the paths after the appends are the old ones plus the playlist files of the recorded paths; all other files are unchanged |
| `PlaylistPlugin.AppendEachRaises` | yt_dlp_plugins/postprocessor/playlistplugin.py:28-35 | the sequence of appends raises TypeError iff some recorded path is None |
| `PlaylistPlugin.AppendEachSamePlaylist` | yt_dlp_plugins/postprocessor/playlistplugin.py:30-31 | files that share a playlist file add their lines to it in list order, with no error |
| `PlaylistPlugin.LinesCount` | yt_dlp_plugins/postprocessor/playlistplugin.py:30-31 | n recorded files whose names hold no newline add exactly n lines |
| `PlaylistPlugin.PlaylistTitleDefault` | yt_dlp_plugins/postprocessor/playlistplugin.py:19 | the title is "playlist" when `playlist_title` is missing, and the given title when one is present |
| `PlaylistPlugin.NotVideoWritesNothing` | yt_dlp_plugins/postprocessor/playlistplugin.py:20-22 | if `_type` is present and not "video", nothing is written and nothing raises, whatever paths the info holds |
| `PlaylistPlugin.FilepathRecorded` | yt_dlp_plugins/postprocessor/playlistplugin.py:23-26 | a video's non-empty `filepath` appends exactly one line, `basename(filepath)` and a newline, to the playlist beside it; `requested_downloads` and `_filename` do not affect the result |
| `PlaylistPlugin.DownloadsRecordedPerPlaylist` | yt_dlp_plugins/postprocessor/playlistplugin.py:27-31 | with no `filepath`, wherever the downloads lie, every file `t` gets exactly the lines of the downloads whose playlist is `t`, in download order, and nothing raises; when no base name holds a newline, that is one line per download |
| `PlaylistPlugin.AppendEachPerPlaylist` | yt_dlp_plugins/postprocessor/playlistplugin.py:30-31 | for present paths spread over any playlists, each file `t` becomes its old contents followed by the lines of the paths whose playlist is `t`, in order |
| `PlaylistPlugin.OnPlaylist` | yt_dlp_plugins/postprocessor/playlistplugin.py:30-31 | the paths whose playlist is `t`: `Filter` with the test `PlaylistPath(title, p) == t` |
| `PlaylistPlugin.Filter` | yt_dlp_plugins/postprocessor/playlistplugin.py:30-31 | only accepted elements of the list, each one taken from it, and never more than the list holds |
| `PlaylistPlugin.FilterKeeps` | yt_dlp_plugins/postprocessor/playlistplugin.py:30-31 | every accepted element of the list is kept |
| `PlaylistPlugin.FilterAll` | yt_dlp_plugins/postprocessor/playlistplugin.py:30-31 | when every element is accepted, the filter is the whole list |
| `PlaylistPlugin.FilterConcat` | yt_dlp_plugins/postprocessor/playlistplugin.py:30-31 | the filter keeps the list's order: the filter of a concatenation is the filter of the first part followed by that of the second |
| `PlaylistPlugin.DownloadsRecorded` | yt_dlp_plugins/postprocessor/playlistplugin.py:27-31 | the one-directory case: with no `filepath`, downloads in one directory append their base names to one playlist file in download order, one new line per download |
| `PlaylistPlugin.FilenameRecorded` | yt_dlp_plugins/postprocessor/playlistplugin.py:32-35 | in the remaining case `_filename` gives the only line; a missing or None `_filename` raises TypeError before anything is written |
| `PlaylistPlugin.EntryBesidePlaylist` | yt_dlp_plugins/postprocessor/playlistplugin.py:39-41 | for a title without `/`, the playlist is `title.m3u` in the recorded file's directory; the line written has no directory part, and read from the playlist's directory it names the recorded file again |
| `PlaylistPlugin.AbsoluteTitleEscapes` | yt_dlp_plugins/postprocessor/playlistplugin.py:39 | a title starting with `/` makes the playlist path `title.m3u` itself, whatever the recorded path is |
| `PlaylistPlugin.SeparatorTitleSplits` | yt_dlp_plugins/postprocessor/playlistplugin.py:39 | a title holding `/` does not come back as the playlist file's base name |
| `PlaylistPlugin.PlaylistTitle` | yt_dlp_plugins/postprocessor/playlistplugin.py:19 | `playlist_title`, "playlist" when it is missing, "None" when it is None |
| `PlaylistPlugin.IsVideo` | yt_dlp_plugins/postprocessor/playlistplugin.py:20 | `_type` is missing or "video"; a None `_type` is not a video |
| `PlaylistPlugin.Get` | yt_dlp_plugins/postprocessor/playlistplugin.py:19-35 | `d.get(key)`: the value, or None for a missing key and for a key mapped to None |
| `PlaylistPlugin.HasFilepath` | yt_dlp_plugins/postprocessor/playlistplugin.py:23 | the truthiness of `info.get('filepath')`: present and not empty |
| `PlaylistPlugin.HasDownloads` | yt_dlp_plugins/postprocessor/playlistplugin.py:27 | the truthiness of `info.get('requested_downloads')`: present and not empty |
| `PlaylistPlugin.DownloadPaths` | yt_dlp_plugins/postprocessor/playlistplugin.py:28 | each download's `get('filepath')`, in download order |
| `PlaylistPlugin.Contents` | yt_dlp_plugins/postprocessor/playlistplugin.py:40 | what a file opened with mode 'a+' starts from: its contents, or nothing for a new file |
| `PlaylistPlugin.RecordedPaths` | yt_dlp_plugins/postprocessor/playlistplugin.py:20-35 | the paths `run` appends, in call order: none for a non-video, else `filepath` if truthy, else each download's `filepath` if the downloads are non-empty, else `_filename` |
| `PlaylistPlugin.PlaylistPath` | yt_dlp_plugins/postprocessor/playlistplugin.py:39 | the playlist path: the recorded file's dirname joined with `title.m3u` |
| `PlaylistPlugin.Entry` | yt_dlp_plugins/postprocessor/playlistplugin.py:41-42 | the line written: the base name and a newline |
| `PlaylistPlugin.AppendEach` | yt_dlp_plugins/postprocessor/playlistplugin.py:30-31 | the appends for each path in turn; a None path raises TypeError and stops there, after the earlier appends are written |
| `PlaylistPlugin.RunEffect` | yt_dlp_plugins/postprocessor/playlistplugin.py:18-36 | the filesystem after `run`: the appends of the recorded paths under the playlist title, and whether they raised |
| `PlaylistPlugin.FileSystem.Append` | yt_dlp_plugins/postprocessor/playlistplugin.py:40-42 | opening in mode 'a+' and writing changes the filesystem as `Appended` says |
| `PlaylistPlugin.AppendToPlaylistFile` | yt_dlp_plugins/postprocessor/playlistplugin.py:38-42 | appends `basename + "\n"` to `join(dirname, title + ".m3u")`; a None path raises TypeError and writes nothing |
| `PlaylistPlugin.Run` | yt_dlp_plugins/postprocessor/playlistplugin.py:18-36 | the filesystem changes as the dispatch on the info dictionary says, with the downloads loop done in order; the result is the empty deletion list and the info unchanged, or TypeError |
| `Mp3Player.BackgroundEntries` | mp3-player.py:100 | `song_list[1:50]` holds the entries after the first, at most 49 of them, in order |
| `Mp3Player.Fetched` | mp3-player.py:100-106 | item i of what the thread appends is the resolution of entry i; it stops exactly at the first entry that resolves to None |
| `Mp3Player.LocalOpened` | mp3-player.py:48-52 | a URI without the `http` prefix becomes the only item, as it is |
| `Mp3Player.RemoteSingleOpened` | mp3-player.py:30-47 | a remote URI whose resolution has no entries gives one item with its `url` and `title`; a falsy resolution gives an empty list |
| `Mp3Player.PlaylistOpened` | mp3-player.py:35-43 | a playlist starts with its first entry resolved on its own, and hands the song list to the thread; an empty playlist raises IndexError, and a first entry that resolves to None raises TypeError |
| `Mp3Player.PlaylistQueue` | mp3-player.py:97-106 | after the fetch, item i of the queue is the resolution of playlist entry i; there are at most min(50, number of entries) items, and exactly that many when all of those entries resolve |
| `Mp3Player.IsRemote` | mp3-player.py:30 | `uri.startswith('http')` |
| `Mp3Player.ToMedia` | mp3-player.py:39-40 | a resolved item becomes a media with the stream `url`, tagged with its `title` (also at lines 45-46 and 104-105) |
| `Mp3Player.OpenPlan` | mp3-player.py:28-55 | what `open` installs: the local path; nothing for a falsy resolution; the one resolved item; or a playlist's first entry and its song list; IndexError for an empty playlist and TypeError for a first entry resolving to None |
| `Mp3Player.Opened` | mp3-player.py:53-55 | the engine after `open`: as it was on a raise; otherwise the new list is installed; a list with items plays from its first item, while an empty list leaves no current item and keeps the old play state and position; the volume always stays |
| `Mp3Player.ThreadAfter` | mp3-player.py:42-43 | `ydl_thread` after `open`: a new thread on the new list only for a playlist, the old record otherwise |
| `Mp3Player.Player.constructor` | mp3-player.py:10-20 | a new player has an empty list, no current item, a stopped engine at position 0 and volume 100, no remote URI and no thread |
| `Mp3Player.Player.GetPosition` | mp3-player.py:22-23 | returns the engine's position |
| `Mp3Player.Player.Open` | mp3-player.py:28-55 | an `http` URI sets `ydl_url` and any other URI leaves it; a fresh list holding exactly the planned items is installed and played; the whole engine state is `Opened` and `ydl_thread` is `ThreadAfter`, so a raised error leaves the list player and the thread record as they were |
| `Mp3Player.Player.YdlBackgroundThread` | mp3-player.py:97-106 | the thread appends `Fetched(song_list[1:50])` to the list it was given, and changes nothing else |
| `Mp3Player.Player.Next` | mp3-player.py:25-26 | moves to the next queued item and plays it from the start when there is one, and otherwise leaves the whole engine state as it was; the list and volume always stay |
| `Mp3Player.Player.Prev` | mp3-player.py:60-61 | moves to the previous item and plays it from the start when there is one, and otherwise leaves the whole engine state as it was; the list and volume always stay |
| `Mp3Player.Player.Pause` | mp3-player.py:57-58 | toggles between playing and paused, a stopped engine stays stopped; list, current item, position and volume stay |
| `Mp3Player.Player.Stop` | mp3-player.py:88-89 | stops the engine; list, current item, position and volume stay |
| `Mp3Player.Player.SetPosition` | mp3-player.py:91-92 | the engine's position becomes the given one; everything else in the engine stays |
| `Mp3Player.Player.SetVolume` | mp3-player.py:94-95 | the engine's volume becomes the given one; everything else in the engine stays |
| `Mp3Player.OpenPlaylistThenFetch` | mp3-player.py:36-43 | opening a playlist and finishing the thread leaves at most 50 items, in playlist order, with the first one playing |
| `Mp3Player.StaleFetchDoesNotLeak` | mp3-player.py:28-55 | when the later open installs a list, a thread from an earlier open only appends to the earlier list, so the current list stays as the later open built it |
| `Mp3Player.StaleFetchAfterRaise` | mp3-player.py:28-55 | when the later open raises, the earlier list stays installed and the stale thread's entries are appended to it, after the first entry |
| `Mp3PlayerGui.PlayingOnlySetsFlag` | mp3-player.py:192-193 | the "playing" event only sets the flag |
| `Mp3PlayerGui.TimerTick` | mp3-player.py:203-212 | a tick moves the slider to the engine's position; if the flag is set it shows "Now Playing: " + title (or the error text when there is no title), otherwise it leaves the text; it clears the flag and schedules one next tick |
| `Mp3PlayerGui.CancelJobIdempotent` | mp3-player.py:159-162 | `cancel_job` leaves no job and nothing scheduled, and calling it twice is the same as calling it once |
| `Mp3PlayerGui.ReleaseReenablesPolling` | mp3-player.py:195-197 | `set_position` leaves a scheduled job |
| `Mp3PlayerGui.TextResets` | mp3-player.py:164-201 | Stop and end of playback show "Now Playing: N/A"; `open_url` with a non-empty URL shows the fetching placeholder, and with none changes nothing |
| `Mp3PlayerGui.UnpairedReleaseDoublesPolling` | mp3-player.py:195-197 | a release with no press before it would leave two poll callbacks scheduled |
| `Mp3PlayerGui.StepConsistent` | mp3-player.py:150-197 | every event keeps the poll a single chain when slider presses and releases alternate |
| `Mp3PlayerGui.RunConsistent` | mp3-player.py:150-212 | the same holds along any event sequence in which presses and releases alternate |
| `Mp3PlayerGui.SinglePollChain` | mp3-player.py:122-212 | from start-up, exactly the callback `job` names is scheduled, and never more than one |
| `Mp3PlayerGui.ScrubbingKeepsSlider` | mp3-player.py:150-151 | while the slider is held no tick runs: it keeps the value last dragged to, and nothing is scheduled |
| `Mp3PlayerGui.TextAlwaysDisplayable` | mp3-player.py:145-212 | the label always shows "Now Playing: ...", the fetching placeholder or the error text |
| `Mp3PlayerGui.PlayingShownAtNextTick` | mp3-player.py:192-212 | a "playing" event followed by the scheduled tick shows the current title and clears the flag |
| `Mp3PlayerGui.NowPlayingText` | mp3-player.py:207-210 | "Now Playing: " + title, or the error text when there is no title |
| `Mp3PlayerGui.Schedule` | mp3-player.py:212 | `root.after`: a fresh callback id becomes `job` and joins the queue (also at lines 122 and 197) |
| `Mp3PlayerGui.Fire` | mp3-player.py:203-212 | Tk runs a callback only while it is queued; it leaves the queue and the tick runs, otherwise nothing happens |
| `Mp3PlayerGui.Initial` | mp3-player.py:121-145 | the state `__init__` leaves: flag clear, "Now Playing: N/A", slider 0 and one poll queued |
| `Mp3PlayerGui.SetPosition` | mp3-player.py:195-197 | the GUI's part of `set_position`: a new poll is queued |
| `Mp3PlayerGui.OpenUrl` | mp3-player.py:177-184 | the GUI's part of `open_url`: a non-empty URL shows the fetching placeholder, and no URL changes nothing |
| `Mp3PlayerGui.Run` | mp3-player.py:118-151 | the GUI state after a sequence of events, one `Step` each, in order |
| `Mp3PlayerGui.SetNeedsUpdate` | mp3-player.py:192-193 | the GUI state with the flag set |
| `Mp3PlayerGui.ClearCurrent` | mp3-player.py:164-165 | the GUI state with the text "Now Playing: N/A" |
| `Mp3PlayerGui.CancelJob` | mp3-player.py:159-162 | the GUI state with the scheduled poll, if any, taken off the queue and `job` cleared |
| `Mp3PlayerGui.Polled` | mp3-player.py:203-212 | the GUI state after the tick body: the slider at the engine's position, the text updated and the flag cleared when the flag was set, and one new poll scheduled |
| `Mp3PlayerGui.Step` | mp3-player.py:150-212 | the GUI state after one event: a VLC callback, a scheduled tick, a slider press, drag or release, the Stop button or an answered URL dialog |
| `Mp3PlayerGui.OpenedAt` | mp3-player.py:172-175 | the engine after `open_media`: as `Opened`, with the slider's volume applied unless the open raised |
| `Mp3PlayerGui.PlayerGui.constructor` | mp3-player.py:111-156 | the GUI starts with the flag clear, "Now Playing: N/A", volume 100 and one poll scheduled |
| `Mp3PlayerGui.PlayerGui.CancelJob` | mp3-player.py:159-162 | cancels the scheduled poll, if any, and clears `job` |
| `Mp3PlayerGui.PlayerGui.ClearCurrent` | mp3-player.py:164-165 | the text becomes "Now Playing: N/A" |
| `Mp3PlayerGui.PlayerGui.SetNeedsUpdate` | mp3-player.py:192-193 | sets the flag |
| `Mp3PlayerGui.PlayerGui.SetPosition` | mp3-player.py:195-197 | the engine seeks to the slider's value, and the rest of the engine stays; one new poll is scheduled |
| `Mp3PlayerGui.PlayerGui.Stop` | mp3-player.py:199-201 | stops the engine, keeping its list, current item, position and volume, then resets the text |
| `Mp3PlayerGui.PlayerGui.UpdateMediaInfo` | mp3-player.py:203-212 | the poll tick: the GUI state becomes `Polled` at the engine's position and title, whose effect `TimerTick` describes |
| `Mp3PlayerGui.PlayerGui.RunScheduled` | mp3-player.py:122 | Tk runs a scheduled callback: it leaves the queue, then the tick runs |
| `Mp3PlayerGui.PlayerGui.VolumeChanged` | mp3-player.py:139 | the volume slider passes its value to the engine; the rest of the engine and the GUI state stay |
| `Mp3PlayerGui.PlayerGui.OpenMedia` | mp3-player.py:172-175 | opens, then sets the engine volume to the slider's value only when the open did not raise; the engine state is `OpenedAt`, and `ydl_url` and `ydl_thread` change as in `open` |
| `Mp3PlayerGui.PlayerGui.OpenFile` | mp3-player.py:167-170 | a chosen path is opened as `open_media` does; a cancelled dialog leaves the engine, `ydl_url` and `ydl_thread` as they were |
| `Mp3PlayerGui.PlayerGui.OpenUrl` | mp3-player.py:177-184 | a non-empty URL stops the engine, shows the placeholder and then opens, so an open that installs nothing leaves the engine stopped; `ydl_url` and `ydl_thread` change as in `open`; no URL leaves the engine, `ydl_url` and `ydl_thread` as they were |

## Left out

- `Player.save` and `PlayerGui.save_media`: they download through yt-dlp into a directory, which is network and disk I/O in a third-party tool.
- VLC internals are left out. This covers media parsing with its 5000 ms timeout, the event manager, decoding, and how playback moves the position. The list player here only has a queue, a current index, a play state, a position and a volume. It keeps its volume across a change of media, so the volume fix in `open_media` only matters when the slider and the engine differ. Its `play`, `next` and `previous` follow the usual list-player behaviour; VLC's own edge cases are not modelled.
- Threads: the background fetch runs to its end in one call, at some point after `open`. Interleaving it with the control thread item by item is not modelled.
- Floating point: `get_position() * 100`, `float(...) / 100` and `int(volume)` are all in percent, as integers.
- tkinter widgets, layout, dialogs and timing are left out. Dialog answers are parameters. `root.after` delays are not modelled. `root.update()` in `open_url` counts as a redraw and runs no callbacks.
- `to_screen`, `report_warning` and `self._kwargs`: logging only.
- Filesystem errors: directories always exist, and opening a file for appending never fails.
- `Mp3PlayerGui.PlayerGui.UpdateMediaInfo`: the exception raised when VLC has no current media (`get_media()` is None) is not modelled. The engine's title is any `Option<string>`.
- `Mp3Player.YtInfo`: yt-dlp results always carry `url` and `title`, and entries are URLs. KeyErrors from missing keys inside an entry (`song['url']`) are not modelled, and neither is yt-dlp raising instead of returning.
- `PlayerGui`'s default argument `player=Player()` is evaluated once and shared. The model passes the player in.
