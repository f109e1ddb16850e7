# Audio player core: seek-bar controller, playlist reader, media service, notification routing

This project models, in Dafny, the sequential logic of an Android audio-player
application:

- **Controller** (`controller.dfy`): the control fragment that keeps a seek bar
  in step with the player. The bar's progress and maximum are stored, and so is
  the maximum `maxValue`, whose sentinel is `UNDEFINED = -1`. A tick runnable is
  posted on a handler. Each time it fires, it sets the bar to the player's
  position and posts itself again. The handler's queue is a multiset of runnable
  identities. `postDelayed` adds one post and `removeCallbacks` removes every
  post of the current runnable. Each `onViewCreated` allocates a new runnable.
  The pure function `Step(State, Event)` is the specification. Each method of the
  class `ControllerFragment` is proved to change its fields exactly as `Step`
  says. Lemmas over event sequences give the current runnable's pending count:
  the number of adding events since the last reset. Posts of a runnable that a
  later `onViewCreated` replaced are outside that count and are never removed.
- **Playlist** (`playlist.dfy`): the singleton JSON reader. It takes one JSON
  object (RFC 4627, sections 2.2 and 2.3). From it the reader picks out
  `numberOfSongs` and every `songs` array, and builds one record per array
  element from `artist`, `title`, `path` and `cover`. The input is an
  already-tokenised JSON value. An object is its list of members, so repeated
  keys are kept. The reading loops append to the parser's song list and
  overwrite its count. They are proved against the reference functions
  `SongOf`, `SongsOf`, `AllSongs` and `DeclaredCount`. When the reader throws,
  the functions `StreamCount` and `StreamSongs` give what it left behind.
- **Service** (`service.dfy`): the bound media service. It has one player slot,
  which may be empty, and commands that do nothing when the slot is empty.
  Players are numbered in creation order. `calls` records every call the
  service makes on a player.
- **Notification** (`notification.dfy`): the broadcast receiver. It routes the
  action strings `"Play"`, `"Pause"` and `"Stop"` to the service's three
  commands.

The player is abstract. A `Player` value holds the answers it gives during one
event: the results of `play()`, `pause()` and `stop()`, `isPlaying()` and the
current position. These answers are unconstrained inputs. Where the Java code
reads `getPlayer()`, the model takes an `Option<Player>` argument, with `None`
standing for null.

Two behaviours of the code are worth stating up front:

- Pending ticks are a count. Each successful `play()`, each `onResume` with a
  player and each end of scrubbing while playing adds a post. Only a removal
  clears them (`TicksWithoutReset`).
- `playMedia` is `void`. The model returns whether `play()` was asked, and the
  pending count shows its answer.

## Model

| member | source | states |
|---|---|---|
| Controller.StepTicks | app/src/main/java/fr/wildcodeschool/mediaplayer/ControllerFragment.java:100-226 | every event either resets the current runnable's pending count to 0 (removal, or a new runnable), adds exactly one post, or leaves the count unchanged; no event both resets and adds |
| Controller.StepPreservesWellFormed | app/src/main/java/fr/wildcodeschool/mediaplayer/ControllerFragment.java:76-93 | every pending or current runnable identity has been allocated, after any event |
| Controller.TicksWithoutReset | app/src/main/java/fr/wildcodeschool/mediaplayer/ControllerFragment.java:199-203 | with no reset in between, pending ticks accumulate: the count grows by one per successful play, resume with a player, or end of scrubbing while playing |
| Controller.TicksAfterLastReset | app/src/main/java/fr/wildcodeschool/mediaplayer/ControllerFragment.java:100-226 | after the last pause, stop, completion, scrub start or runnable allocation, the current runnable's pending count equals the number of adding events since then, so the current runnable reports iff such an event followed the last reset |
| Controller.StaleTicksPersist | app/src/main/java/fr/wildcodeschool/mediaplayer/ControllerFragment.java:80-92 | posts of a runnable replaced by a later onViewCreated are never removed by any sequence of events |
| Controller.RunAppend | app/src/main/java/fr/wildcodeschool/mediaplayer/ControllerFragment.java:100-226 | handling events `a` then `b` is handling `a + b`, and is admissible exactly when both parts are |
| Controller.RunsPreserveWellFormed | app/src/main/java/fr/wildcodeschool/mediaplayer/ControllerFragment.java:76-93 | runnable identities stay allocated along any admissible event sequence |
| Controller.ScrubWhileStoppedStaysOff | app/src/main/java/fr/wildcodeschool/mediaplayer/ControllerFragment.java:174-189 | starting then ending a scrub while the player is absent or not playing leaves the current runnable with no pending post, whether or not a runnable exists |
| Controller.PreparedThenInflated | app/src/main/java/fr/wildcodeschool/mediaplayer/ControllerFragment.java:54-64 | a bar inflated after onPrepared(d) gets maximum d, unless d equals the sentinel -1, when it keeps its layout maximum |
| Controller.ControllerFragment.constructor | app/src/main/java/fr/wildcodeschool/mediaplayer/ControllerFragment.java:22-31 | no bar, no runnable, nothing pending, maximum UNDEFINED |
| Controller.ControllerFragment.OnCreateView | app/src/main/java/fr/wildcodeschool/mediaplayer/ControllerFragment.java:54-64 | the new bar takes the stored maximum only when it is not UNDEFINED; pending posts and the stored maximum are unchanged |
| Controller.ControllerFragment.OnViewCreated | app/src/main/java/fr/wildcodeschool/mediaplayer/ControllerFragment.java:76-93 | a new runnable identity, not among the pending posts, so its pending count is 0; earlier posts stay |
| Controller.ControllerFragment.PostTick | app/src/main/java/fr/wildcodeschool/mediaplayer/ControllerFragment.java:201 | `postDelayed(mSeekBarThread)`, as called at lines 107, 187 and 201, adds one post of the current runnable and removes none; with no runnable it adds nothing that ticks |
| Controller.ControllerFragment.RemoveTicks | app/src/main/java/fr/wildcodeschool/mediaplayer/ControllerFragment.java:118 | removeCallbacks leaves no post of the current runnable and keeps every other runnable's posts |
| Controller.ControllerFragment.OnResume | app/src/main/java/fr/wildcodeschool/mediaplayer/ControllerFragment.java:100-109 | with a player, the bar shows its position and one post of the current runnable is added; without one nothing changes; a player with no bar is refused (null dereference) |
| Controller.ControllerFragment.OnPause | app/src/main/java/fr/wildcodeschool/mediaplayer/ControllerFragment.java:116-119 | no pending tick of the current runnable remains; the bar is unchanged |
| Controller.ControllerFragment.OnPrepared | app/src/main/java/fr/wildcodeschool/mediaplayer/ControllerFragment.java:130-136 | the stored maximum becomes the duration, and so does the bar's maximum when a bar exists; pending posts are unchanged |
| Controller.ControllerFragment.OnCompletion | app/src/main/java/fr/wildcodeschool/mediaplayer/ControllerFragment.java:143-150 | whatever the state before, no pending post of the current runnable remains and an existing bar shows 0; posts of replaced runnables are kept |
| Controller.ControllerFragment.OnProgressChanged | app/src/main/java/fr/wildcodeschool/mediaplayer/ControllerFragment.java:163-167 | seekTo is called iff the change came from the user and a player is present, with the unclamped progress; no state changes |
| Controller.ControllerFragment.OnStartTrackingTouch | app/src/main/java/fr/wildcodeschool/mediaplayer/ControllerFragment.java:174-177 | no pending post of the current runnable remains; the player is not consulted and the bar is unchanged |
| Controller.ControllerFragment.OnStopTrackingTouch | app/src/main/java/fr/wildcodeschool/mediaplayer/ControllerFragment.java:184-189 | one post of the current runnable is added exactly when a runnable exists and the player is present and playing |
| Controller.ControllerFragment.PlayMedia | app/src/main/java/fr/wildcodeschool/mediaplayer/ControllerFragment.java:199-203 | play() is asked iff a runnable and a player exist; one post of the current runnable is added iff it answered true, otherwise that runnable's count is unchanged |
| Controller.ControllerFragment.PauseMedia | app/src/main/java/fr/wildcodeschool/mediaplayer/ControllerFragment.java:209-213 | pause() is asked iff a runnable and a player exist; on success no pending post of the current runnable remains, otherwise the whole state is unchanged |
| Controller.ControllerFragment.StopMedia | app/src/main/java/fr/wildcodeschool/mediaplayer/ControllerFragment.java:219-226 | stop() is asked iff a runnable, a bar and a player exist; on success no pending post of the current runnable remains and the bar shows 0, otherwise the whole state is unchanged |
| Controller.ControllerFragment.Tick | app/src/main/java/fr/wildcodeschool/mediaplayer/ControllerFragment.java:82-91 | a firing post re-posts its own runnable, so the pending posts are unchanged; the bar shows the player's position when a player is present and is unchanged otherwise; the firing post may belong to a replaced runnable; refused without a bar (null dereference at line 84), which the fragment never reaches since the bar is set at line 59 before onViewCreated creates a runnable and is never cleared |
| Playlist.NextString | app/src/main/java/fr/wildcodeschool/mediaplayer/json/JsonParser.java:76 | a string value is read as itself; any other value is a reader error |
| Playlist.NextInt | app/src/main/java/fr/wildcodeschool/mediaplayer/json/JsonParser.java:48 | an integer within the 32-bit range is read as itself; anything else is a reader error |
| Playlist.SongsOf | app/src/main/java/fr/wildcodeschool/mediaplayer/json/JsonParser.java:66-97 | one record per array element, in document order, each built from that element's members |
| Playlist.ReadSong | app/src/main/java/fr/wildcodeschool/mediaplayer/json/JsonParser.java:69-93 | reading an element succeeds iff its four song keys all hold strings, and then yields the record whose fields are the last values given for them |
| Playlist.JsonParser.constructor | app/src/main/java/fr/wildcodeschool/mediaplayer/json/JsonParser.java:13-29 | the singleton starts with count 0 and no songs |
| Playlist.JsonParser.GetNumberOfSongs | app/src/main/java/fr/wildcodeschool/mediaplayer/json/JsonParser.java:32 | the stored count |
| Playlist.JsonParser.GetSongList | app/src/main/java/fr/wildcodeschool/mediaplayer/json/JsonParser.java:33 | the stored song list |
| Playlist.JsonParser.GetSong | app/src/main/java/fr/wildcodeschool/mediaplayer/json/JsonParser.java:34 | for an index within the list, the song appended at that position |
| Playlist.JsonParser.ReadJsonStream | app/src/main/java/fr/wildcodeschool/mediaplayer/json/JsonParser.java:41-59 | succeeds iff the document is an object whose numberOfSongs members are 32-bit integers and whose songs members are arrays of well-formed elements; then the count is the last declared one (or the previous count) and the songs of all arrays are appended after those already held; on failure the members before the first rejected one have had their effect, a rejected songs array has appended its elements before its first rejected one, and a non-object changes nothing |
| Playlist.JsonParser.ReadMember | app/src/main/java/fr/wildcodeschool/mediaplayer/json/JsonParser.java:46-55 | a member is accepted iff it is a 32-bit numberOfSongs, a songs array of well-formed elements, or any other key; numberOfSongs sets the count, songs appends its records, other keys are skipped; a rejected member leaves the count and appends only what its array read before throwing |
| Playlist.JsonParser.ReadJsonArray | app/src/main/java/fr/wildcodeschool/mediaplayer/json/JsonParser.java:66-98 | succeeds iff the value is an array of well-formed elements, then appends their records in order; on failure exactly the records of the elements before the first rejected one are appended; the count is untouched |
| Playlist.AcceptedItems | app/src/main/java/fr/wildcodeschool/mediaplayer/json/JsonParser.java:68-96 | the leading elements of an array that the reader accepts: all of them are well-formed and the next one, if any, is not |
| Playlist.AcceptedMembers | app/src/main/java/fr/wildcodeschool/mediaplayer/json/JsonParser.java:45-56 | the leading members of a document that the reader accepts: all of them are accepted and the next one, if any, is not |
| Playlist.ItemStep | app/src/main/java/fr/wildcodeschool/mediaplayer/json/JsonParser.java:68-96 | one more accepted element keeps the prefix accepted and appends exactly its record |
| Playlist.MemberStep | app/src/main/java/fr/wildcodeschool/mediaplayer/json/JsonParser.java:45-56 | one more accepted member keeps the prefix accepted, sets the count iff it is numberOfSongs, and appends records iff it is songs |
| Playlist.FirstRejectedItem | app/src/main/java/fr/wildcodeschool/mediaplayer/json/JsonParser.java:72-88 | the first element the reader rejects is where the accepted prefix ends |
| Playlist.FirstRejectedMember | app/src/main/java/fr/wildcodeschool/mediaplayer/json/JsonParser.java:47-54 | the first member the reader rejects is where the accepted prefix ends |
| Playlist.RejectedMember | app/src/main/java/fr/wildcodeschool/mediaplayer/json/JsonParser.java:47-54 | one rejected member makes the whole document rejected |
| Playlist.StreamAccepted | app/src/main/java/fr/wildcodeschool/mediaplayer/json/JsonParser.java:41-59 | on a fully accepted document, what the reader leaves is the last declared count and the records of all its songs arrays |
| Playlist.StreamStopsAt | app/src/main/java/fr/wildcodeschool/mediaplayer/json/JsonParser.java:41-59 | a document rejected at member i is rejected, keeps the count declared before i, and holds the records before i followed by those the rejected member appended |
| Playlist.MissingFieldStaysEmpty | app/src/main/java/fr/wildcodeschool/mediaplayer/json/JsonParser.java:17-22 | a field whose key is absent from the element stays "" |
| Playlist.OtherKeyIgnored | app/src/main/java/fr/wildcodeschool/mediaplayer/json/JsonParser.java:75-91 | a member with another key, wherever it stands, does not change a field |
| Playlist.UnknownKeyIgnored | app/src/main/java/fr/wildcodeschool/mediaplayer/json/JsonParser.java:75-91 | a member whose key is none of artist, title, path, cover leaves the record unchanged |
| Playlist.LastValueWins | app/src/main/java/fr/wildcodeschool/mediaplayer/json/JsonParser.java:75-90 | when a key repeats in an element, the last string given for it is the field's value |
| Playlist.CountKeptWhenUndeclared | app/src/main/java/fr/wildcodeschool/mediaplayer/json/JsonParser.java:47-50 | with no numberOfSongs member the count keeps its previous value |
| Playlist.AllSongsAppend | app/src/main/java/fr/wildcodeschool/mediaplayer/json/JsonParser.java:51-55 | songs arrays in two parts of a document contribute their records one after the other |
| Playlist.CountIsNotChecked | app/src/main/java/fr/wildcodeschool/mediaplayer/json/JsonParser.java:47-50 | a document declaring 5 songs with an empty songs array is accepted, and the count stays 5 |
| Service.OpOf | app/src/main/java/fr/wildcodeschool/mediaplayer/service/MediaService.java:89-107 | each command forwards the player call of the same name, and only that one |
| Service.Forward | app/src/main/java/fr/wildcodeschool/mediaplayer/service/MediaService.java:89-107 | a null-guarded forward makes no call on an empty slot and exactly one call, to the slot's player, otherwise |
| Service.Released | app/src/main/java/fr/wildcodeschool/mediaplayer/service/MediaService.java:49-83 | a player counts as released iff a release call on it was recorded |
| Service.ReleasedAppend | app/src/main/java/fr/wildcodeschool/mediaplayer/service/MediaService.java:49-83 | the players released over two runs of calls are those released in either |
| Service.MediaService.constructor | app/src/main/java/fr/wildcodeschool/mediaplayer/service/MediaService.java:17 | the slot starts empty and no call was made |
| Service.MediaService.CreateMediaPlayer | app/src/main/java/fr/wildcodeschool/mediaplayer/service/MediaService.java:61-65 | a fresh player is initialised and takes the slot; the previous player is overwritten without being released |
| Service.MediaService.GetPlayer | app/src/main/java/fr/wildcodeschool/mediaplayer/service/MediaService.java:71-74 | the slot as it is, possibly empty |
| Service.MediaService.PlayMedia | app/src/main/java/fr/wildcodeschool/mediaplayer/service/MediaService.java:89-91 | nothing on an empty slot, otherwise exactly one play call on the slot's player; the slot is unchanged |
| Service.MediaService.PauseMedia | app/src/main/java/fr/wildcodeschool/mediaplayer/service/MediaService.java:97-99 | nothing on an empty slot, otherwise exactly one pause call on the slot's player; the slot is unchanged |
| Service.MediaService.StopMedia | app/src/main/java/fr/wildcodeschool/mediaplayer/service/MediaService.java:105-107 | nothing on an empty slot, otherwise exactly one stop call on the slot's player; the slot is unchanged |
| Service.MediaService.OnUnbind | app/src/main/java/fr/wildcodeschool/mediaplayer/service/MediaService.java:49-54 | requires a player (no null check); releases it, keeps it in the slot, and refuses rebinding |
| Service.MediaService.OnDestroy | app/src/main/java/fr/wildcodeschool/mediaplayer/service/MediaService.java:79-83 | releases the slot's player only when there is one |
| Notification.Route | app/src/main/java/fr/wildcodeschool/mediaplayer/notification/NotificationReceiver.java:21-37 | a null intent, a null action or a missing binder routes to no command; with a binder, exactly the strings "Play", "Pause" and "Stop" route to play, pause and stop, and every other string to none |
| Notification.OtherActionsIgnored | app/src/main/java/fr/wildcodeschool/mediaplayer/notification/NotificationReceiver.java:27-37 | every action string other than exactly "Play", "Pause" and "Stop", including those names in another letter case, triggers no command |
| Notification.Issued | app/src/main/java/fr/wildcodeschool/mediaplayer/notification/NotificationReceiver.java:27-37 | a routed command reaches the player iff there is a command and a player in the slot, with at most one call |
| Notification.OnReceive | app/src/main/java/fr/wildcodeschool/mediaplayer/notification/NotificationReceiver.java:19-40 | with a service binder, the service makes exactly the player call the routed command forwards, and nothing else, and its slot and player count are unchanged; without a binder nothing happens |

## Left out

- Tokenising the JSON text, including `JsonReader`'s I/O errors, is not modelled. The input is an already-structured value.
- `JsonReader`'s lenient coercions are not modelled. In the source, a number can be read as a string and a numeric string as an int. The model reports a type error for both.
- JSON numbers with a fraction or exponent are not modelled. The model only has integer numbers.
- Songs are values in the model. In the source, each song is a mutable object. The parser never changes a song after appending it. Aliasing through the list that `getSongList` returns is not modelled.
- Real time is not modelled: the 1000 ms delay, the handler's ordering of posts and the posting of work onto the UI thread. A tick firing is an explicit event. A post on the bar runs at once.
- The seek bar's own clamping of progress into `[0, max]` and its default layout values are not modelled. The layout's initial bar is a parameter of `OnCreateView`.
- The player's internals, its listener registration and the resource lookup are not modelled. `createMediaPlayer` records `Init(resId)` only.
- `MainActivity.java` is not part of this model. Its service binding appears only as "the player may be absent".
- `MediaNotification.java` is not part of this model, except for its three action names.
- `ObbManager.java`, `ItemFragment.java`, `ItemRecyclerViewAdapter.java` and `Item.java` are not part of this model. They are platform glue with no logic of their own.
- The service's `onBind`, the binder's `getService`, and `peekService` are not modelled. A null binder is a null service argument of `Notification.OnReceive`.
- Java's 32-bit `int` is modelled only where the code checks it (`nextInt`). Positions, durations and seek targets are passed on unchanged, so they are unbounded integers.
