/**
 * The seek-bar controller of the audio player's control fragment.
 *
 * The fragment keeps a seek bar (progress and maximum), the stored maximum
 * `maxValue` (with the sentinel UNDEFINED) and a periodic "tick" runnable that
 * it posts on a handler. A posted tick refreshes the bar from the player's
 * current position and posts itself again. The handler's queue is a multiset
 * of runnable identities: posting never removes an earlier post, and
 * `removeCallbacks` removes every pending post of the runnable it is given.
 *
 * Runnables are numbered: every `onViewCreated` allocates a new one, and the
 * fragment only ever removes posts of its current runnable.
 *
 * The player is abstract: a `Player` value holds the answers it gives to the
 * calls made during one event (`play()`, `pause()`, `stop()`, `isPlaying()`,
 * `getCurrentPosition()`); those answers are unconstrained inputs.
 */
module Controller {
  import opened Wrappers

  /** The sentinel stored in `maxValue` before any media was prepared. */
  const UNDEFINED: int := -1

  /** The seek-bar widget's state. */
  datatype Bar = Bar(progress: int, max: int)

  /** What the abstract player answers during one event. */
  datatype Player = Player(playOk: bool, pauseOk: bool, stopOk: bool, playing: bool, position: int)

  /** The whole state of the fragment and of its handler's queue. */
  datatype State = State(
    bar: Option<Bar>,          // the seek bar, once the view was inflated
    maxValue: int,             // duration stored by onPrepared, or UNDEFINED
    runnable: Option<nat>,     // identity of the current tick runnable
    nextRunnable: nat,         // identity the next runnable will get
    pending: multiset<nat>)    // posted runnables that have not fired yet

  /**
   * The events the fragment reacts to. `player` is what `getPlayer()` (or the
   * caller of the transport commands) yields: None stands for null.
   */
  datatype Event =
    | ViewInflated(layout: Bar)                                    // onCreateView
    | RunnableCreated                                              // onViewCreated
    | Resumed(player: Option<Player>)                              // onResume
    | Paused                                                       // onPause
    | Prepared(duration: int)                                      // onPrepared
    | Completed                                                    // onCompletion
    | ProgressChanged(progress: int, fromUser: bool, player: Option<Player>) // onProgressChanged
    | TrackingStarted                                              // onStartTrackingTouch
    | TrackingStopped(player: Option<Player>)                      // onStopTrackingTouch
    | PlayPressed(player: Option<Player>)                          // playMedia
    | PausePressed(player: Option<Player>)                         // pauseMedia
    | StopPressed(player: Option<Player>)                          // stopMedia
    | TickFired(which: nat, player: Option<Player>)                // a posted runnable runs

  /** Every pending or current runnable has already been allocated. */
  predicate WellFormed(s: State) {
    (forall g :: g in s.pending ==> g < s.nextRunnable) &&
    (s.runnable.Some? ==> s.runnable.value < s.nextRunnable)
  }

  /** Number of pending posts of the current runnable: the reporting "on" count. */
  function Ticks(s: State): nat {
    if s.runnable.Some? then s.pending[s.runnable.value] else 0
  }

  /** `postDelayed(mSeekBarThread, ...)`: posting a null runnable enqueues nothing that ticks. */
  function Post(s: State): State {
    if s.runnable.Some? then s.(pending := s.pending + multiset{s.runnable.value}) else s
  }

  /** `removeCallbacks(mSeekBarThread)`: drops every pending post of the current runnable. */
  function Remove(s: State): State {
    if s.runnable.Some? then s.(pending := s.pending[s.runnable.value := 0]) else s
  }

  /** `mSeekBar.setProgress(p)`, on a bar that may be null (then nothing happens). */
  function WithProgress(bar: Option<Bar>, p: int): Option<Bar> {
    if bar.Some? then Some(bar.value.(progress := p)) else None
  }

  /** `mSeekBar.setMax(m)`, on a bar that may be null (then nothing happens). */
  function WithMax(bar: Option<Bar>, m: int): Option<Bar> {
    if bar.Some? then Some(bar.value.(max := m)) else None
  }

  /**
   * The events that do not dereference a null seek bar and, for a tick, that
   * the runnable is indeed pending.
   */
  predicate Enabled(s: State, e: Event) {
    match e
    case Resumed(player) => player.Some? ==> s.bar.Some?
    case TickFired(g, _) => g in s.pending && s.bar.Some?
    case _ => true
  }

  /** The effect of one event on the fragment's state. */
  function Step(s: State, e: Event): State
    requires Enabled(s, e)
  {
    match e
    case ViewInflated(layout) =>
      s.(bar := Some(if s.maxValue != UNDEFINED then layout.(max := s.maxValue) else layout))
    case RunnableCreated =>
      s.(runnable := Some(s.nextRunnable), nextRunnable := s.nextRunnable + 1)
    case Resumed(player) =>
      if player.Some? then Post(s.(bar := WithProgress(s.bar, player.value.position))) else s
    case Paused => Remove(s)
    case Prepared(d) => s.(bar := WithMax(s.bar, d), maxValue := d)
    case Completed => Remove(s).(bar := WithProgress(s.bar, 0))
    case ProgressChanged(_, _, _) => s
    case TrackingStarted => Remove(s)
    case TrackingStopped(player) =>
      if player.Some? && player.value.playing then Post(s) else s
    case PlayPressed(player) =>
      if s.runnable.Some? && player.Some? && player.value.playOk then Post(s) else s
    case PausePressed(player) =>
      if s.runnable.Some? && player.Some? && player.value.pauseOk then Remove(s) else s
    case StopPressed(player) =>
      if s.runnable.Some? && s.bar.Some? && player.Some? && player.value.stopOk
      then Remove(s).(bar := WithProgress(s.bar, 0))
      else s
    case TickFired(_, player) =>
      if player.Some? then s.(bar := WithProgress(s.bar, player.value.position)) else s
  }

  /** The events that add one pending post of the current runnable. */
  predicate Adds(s: State, e: Event) {
    s.runnable.Some? &&
    match e
    case Resumed(player) => player.Some?
    case TrackingStopped(player) => player.Some? && player.value.playing
    case PlayPressed(player) => player.Some? && player.value.playOk
    case _ => false
  }

  /**
   * The events after which the current runnable has no pending post: a
   * removal of its callbacks, or the allocation of a new runnable.
   */
  predicate Resets(s: State, e: Event) {
    e.RunnableCreated? ||
    (s.runnable.Some? &&
     match e
     case Paused => true
     case Completed => true
     case TrackingStarted => true
     case PausePressed(player) => player.Some? && player.value.pauseOk
     case StopPressed(player) => s.bar.Some? && player.Some? && player.value.stopOk
     case _ => false)
  }

  /** Each event keeps every runnable identity allocated. */
  lemma StepPreservesWellFormed(s: State, e: Event)
    requires WellFormed(s) && Enabled(s, e)
    ensures WellFormed(Step(s, e))
  {
  }

  /**
   * One event changes the reporting count exactly as Resets and Adds say:
   * reset to zero, or incremented by one, or unchanged.
   */
  lemma StepTicks(s: State, e: Event)
    requires WellFormed(s) && Enabled(s, e)
    ensures !(Resets(s, e) && Adds(s, e))
    ensures Ticks(Step(s, e)) == if Resets(s, e) then 0 else Ticks(s) + (if Adds(s, e) then 1 else 0)
  {
  }

  /** The event sequences that never dereference a null seek bar. */
  predicate Admissible(s: State, es: seq<Event>)
    decreases |es|
  {
    |es| == 0 || (Enabled(s, es[0]) && Admissible(Step(s, es[0]), es[1..]))
  }

  /** The state after the events `es`, in order. */
  function Run(s: State, es: seq<Event>): State
    requires Admissible(s, es)
    decreases |es|
  {
    if |es| == 0 then s else Run(Step(s, es[0]), es[1..])
  }

  /** Number of events along `es` that add a post of the runnable current at that point. */
  function AddsAlong(s: State, es: seq<Event>): nat
    requires Admissible(s, es)
    decreases |es|
  {
    if |es| == 0 then 0
    else (if Adds(s, es[0]) then 1 else 0) + AddsAlong(Step(s, es[0]), es[1..])
  }

  /** No event along `es` resets the reporting count. */
  predicate NoResetAlong(s: State, es: seq<Event>)
    requires Admissible(s, es)
    decreases |es|
  {
    |es| == 0 || (!Resets(s, es[0]) && NoResetAlong(Step(s, es[0]), es[1..]))
  }

  /** Running `a` then `b` is running `a + b`. */
  lemma {:induction false} RunAppend(s: State, a: seq<Event>, b: seq<Event>)
    requires Admissible(s, a)
    ensures Admissible(s, a + b) <==> Admissible(Run(s, a), b)
    ensures Admissible(s, a + b) ==> Run(s, a + b) == Run(Run(s, a), b)
    decreases |a|
  {
    if |a| > 0 {
      assert (a + b)[0] == a[0];
      assert (a + b)[1..] == a[1..] + b;
      RunAppend(Step(s, a[0]), a[1..], b);
    } else {
      assert a + b == b;
    }
  }

  /**
   * Without a reset, every adding event leaves one more pending post of the
   * current runnable: ticks accumulate, they are not a single flag.
   */
  lemma {:induction false} TicksWithoutReset(s: State, es: seq<Event>)
    requires WellFormed(s) && Admissible(s, es) && NoResetAlong(s, es)
    ensures Ticks(Run(s, es)) == Ticks(s) + AddsAlong(s, es)
    decreases |es|
  {
    if |es| > 0 {
      StepTicks(s, es[0]);
      StepPreservesWellFormed(s, es[0]);
      TicksWithoutReset(Step(s, es[0]), es[1..]);
    }
  }

  /**
   * After the last reset `e`, the current runnable's pending count is the
   * number of adding events since then: the current runnable reports exactly
   * when some successful play, resume or end of scrubbing came after the last
   * pause, stop, completion, start of scrubbing or runnable allocation. Posts
   * of runnables replaced earlier are not in this count (`StaleTicksPersist`).
   */
  lemma {:induction false} TicksAfterLastReset(s: State, pre: seq<Event>, e: Event, post: seq<Event>)
    requires WellFormed(s) && Admissible(s, pre)
    requires Enabled(Run(s, pre), e) && Resets(Run(s, pre), e)
    requires Admissible(Step(Run(s, pre), e), post) && NoResetAlong(Step(Run(s, pre), e), post)
    ensures Admissible(s, pre + [e] + post)
    ensures Ticks(Run(s, pre + [e] + post)) == AddsAlong(Step(Run(s, pre), e), post)
  {
    var mid := Run(s, pre);
    var after := Step(mid, e);
    assert Admissible(mid, [e] + post) && Run(mid, [e] + post) == Run(after, post) by {
      assert ([e] + post)[0] == e && ([e] + post)[1..] == post;
    }
    RunAppend(s, pre, [e] + post);
    assert pre + ([e] + post) == pre + [e] + post;
    RunsPreserveWellFormed(s, pre);
    StepTicks(mid, e);
    StepPreservesWellFormed(mid, e);
    TicksWithoutReset(after, post);
  }

  /** Every admissible run keeps the runnable identities allocated. */
  lemma {:induction false} RunsPreserveWellFormed(s: State, es: seq<Event>)
    requires WellFormed(s) && Admissible(s, es)
    ensures WellFormed(Run(s, es))
    decreases |es|
  {
    if |es| > 0 {
      StepPreservesWellFormed(s, es[0]);
      RunsPreserveWellFormed(Step(s, es[0]), es[1..]);
    }
  }

  /**
   * Posts of a runnable that is no longer current are never removed: once a
   * second `onViewCreated` replaced the runnable, the earlier one keeps
   * firing and re-posting itself whatever happens next.
   */
  lemma {:induction false} StaleTicksPersist(s: State, es: seq<Event>, g: nat)
    requires WellFormed(s) && Admissible(s, es)
    requires g < s.nextRunnable && s.runnable != Some(g)
    ensures Run(s, es).pending[g] >= s.pending[g]
    decreases |es|
  {
    if |es| > 0 {
      var t := Step(s, es[0]);
      assert t.pending[g] >= s.pending[g] && g < t.nextRunnable && t.runnable != Some(g);
      StepPreservesWellFormed(s, es[0]);
      StaleTicksPersist(t, es[1..], g);
    }
  }

  /** Starting then ending a scrub while the player is not playing leaves the current runnable with no post. */
  lemma ScrubWhileStoppedStaysOff(s: State, player: Option<Player>)
    requires player.Some? ==> !player.value.playing
    ensures Ticks(Step(Step(s, TrackingStarted), TrackingStopped(player))) == 0
  {
  }

  /**
   * A duration stored by onPrepared reaches a seek bar inflated later,
   * unless it equals the UNDEFINED sentinel.
   */
  lemma PreparedThenInflated(s: State, d: int, layout: Bar)
    ensures Step(Step(s, Prepared(d)), ViewInflated(layout)).bar
         == Some(if d == UNDEFINED then layout else layout.(max := d))
  {
  }

  /** The fragment: the fields the Java class updates in place. */
  class ControllerFragment {
    var bar: Option<Bar>
    var maxValue: int
    var runnable: Option<nat>
    var nextRunnable: nat
    var pending: multiset<nat>

    /** The fields as one State value. */
    function Snapshot(): State
      reads this
    {
      State(bar, maxValue, runnable, nextRunnable, pending)
    }

    predicate Valid()
      reads this
    {
      WellFormed(Snapshot())
    }

    /** A new fragment: no view, no runnable, nothing posted, maximum undefined. */
    constructor ()
      ensures Valid()
      ensures bar == None && maxValue == UNDEFINED && runnable == None && pending == multiset{}
    {
      bar, maxValue, runnable, nextRunnable, pending := None, UNDEFINED, None, 0, multiset{};
    }

    /** onCreateView: a freshly inflated bar, given the stored maximum unless it is UNDEFINED. */
    method OnCreateView(layout: Bar)
      requires Valid()
      modifies this
      ensures Valid() && Snapshot() == Step(old(Snapshot()), ViewInflated(layout))
      ensures bar == Some(Bar(layout.progress, if maxValue == UNDEFINED then layout.max else maxValue))
      ensures maxValue == old(maxValue) && pending == old(pending) && runnable == old(runnable)
    {
      var b := layout;
      if UNDEFINED != maxValue {
        b := b.(max := maxValue);
      }
      bar := Some(b);
    }

    /** onViewCreated: a new tick runnable, with no pending post yet. */
    method OnViewCreated()
      requires Valid()
      modifies this
      ensures Valid() && Snapshot() == Step(old(Snapshot()), RunnableCreated)
      ensures runnable.Some? && runnable.value !in old(pending) && Ticks(Snapshot()) == 0
      ensures pending == old(pending) && bar == old(bar) && maxValue == old(maxValue)
    {
      runnable := Some(nextRunnable);
      nextRunnable := nextRunnable + 1;
    }

    /** The body of the current runnable's posting: adds one pending post of it. */
    method PostTick()
      requires Valid()
      modifies this
      ensures Valid() && Snapshot() == Post(old(Snapshot()))
      ensures Ticks(Snapshot()) == if runnable.Some? then old(Ticks(Snapshot())) + 1 else 0
    {
      if runnable.Some? {
        pending := pending + multiset{runnable.value};
      }
    }

    /** `removeCallbacks` on the current runnable: none of its posts remain. */
    method RemoveTicks()
      requires Valid()
      modifies this
      ensures Valid() && Snapshot() == Remove(old(Snapshot()))
      ensures Ticks(Snapshot()) == 0
      ensures forall g :: Some(g) != runnable ==> pending[g] == old(pending)[g]
    {
      if runnable.Some? {
        pending := pending[runnable.value := 0];
      }
    }

    /** onResume: with a player, show its position and post one tick. */
    method OnResume(player: Option<Player>)
      requires Valid()
      requires player.Some? ==> bar.Some?
      modifies this
      ensures Valid() && Snapshot() == Step(old(Snapshot()), Resumed(player))
      ensures player.Some? ==> bar.value.progress == player.value.position
      ensures Ticks(Snapshot()) == old(Ticks(Snapshot())) + (if player.Some? && runnable.Some? then 1 else 0)
    {
      if player.Some? {
        bar := Some(bar.value.(progress := player.value.position));
        PostTick();
      }
    }

    /** onPause: no post of the current runnable remains. */
    method OnPause()
      requires Valid()
      modifies this
      ensures Valid() && Snapshot() == Step(old(Snapshot()), Paused)
      ensures Ticks(Snapshot()) == 0 && bar == old(bar)
    {
      RemoveTicks();
    }

    /** onPrepared: the duration becomes the stored maximum, and the bar's maximum when there is a bar. */
    method OnPrepared(duration: int)
      requires Valid()
      modifies this
      ensures Valid() && Snapshot() == Step(old(Snapshot()), Prepared(duration))
      ensures maxValue == duration
      ensures bar.Some? <==> old(bar).Some?
      ensures bar.Some? ==> bar.value == old(bar).value.(max := duration)
      ensures pending == old(pending)
    {
      if bar.Some? {
        bar := Some(bar.value.(max := duration));
      }
      maxValue := duration;
    }

    /** onCompletion: the current runnable stops reporting and the bar returns to 0, whatever the state before. */
    method OnCompletion()
      requires Valid()
      modifies this
      ensures Valid() && Snapshot() == Step(old(Snapshot()), Completed)
      ensures Ticks(Snapshot()) == 0
      ensures bar.Some? <==> old(bar).Some?
      ensures bar.Some? ==> bar.value == old(bar).value.(progress := 0)
    {
      if runnable.Some? {
        RemoveTicks();
      }
      if bar.Some? {
        bar := Some(bar.value.(progress := 0));
      }
    }

    /**
     * onProgressChanged: returns the position passed to `seekTo`, if any.
     * Only a user's move with a player present seeks, to the unclamped value.
     */
    method OnProgressChanged(progress: int, fromUser: bool, player: Option<Player>) returns (seek: Option<int>)
      ensures seek.Some? <==> fromUser && player.Some?
      ensures seek.Some? ==> seek.value == progress
    {
      seek := None;
      if fromUser && player.Some? {
        seek := Some(progress);
      }
    }

    /** onStartTrackingTouch: the current runnable stops reporting; the player is not consulted. */
    method OnStartTrackingTouch()
      requires Valid()
      modifies this
      ensures Valid() && Snapshot() == Step(old(Snapshot()), TrackingStarted)
      ensures Ticks(Snapshot()) == 0 && bar == old(bar)
    {
      RemoveTicks();
    }

    /** onStopTrackingTouch: one more post of the current runnable when a player is present and playing. */
    method OnStopTrackingTouch(player: Option<Player>)
      requires Valid()
      modifies this
      ensures Valid() && Snapshot() == Step(old(Snapshot()), TrackingStopped(player))
      ensures Ticks(Snapshot()) == old(Ticks(Snapshot()))
                + (if runnable.Some? && player.Some? && player.value.playing then 1 else 0)
      ensures bar == old(bar)
    {
      if player.Some? && player.value.playing {
        PostTick();
      }
    }

    /**
     * playMedia: `asked` says whether `play()` was called (only with a runnable
     * and a player); one post of the current runnable is added exactly when it
     * answered true.
     */
    method PlayMedia(player: Option<Player>) returns (asked: bool)
      requires Valid()
      modifies this
      ensures Valid() && Snapshot() == Step(old(Snapshot()), PlayPressed(player))
      ensures asked <==> runnable.Some? && player.Some?
      ensures Ticks(Snapshot()) == old(Ticks(Snapshot())) + (if asked && player.value.playOk then 1 else 0)
      ensures bar == old(bar)
    {
      asked := runnable.Some? && player.Some?;
      if asked && player.value.playOk {
        PostTick();
      }
    }

    /**
     * pauseMedia: `asked` says whether `pause()` was called; when it answered
     * true the current runnable stops reporting (no post of it remains),
     * otherwise nothing changes.
     */
    method PauseMedia(player: Option<Player>) returns (asked: bool)
      requires Valid()
      modifies this
      ensures Valid() && Snapshot() == Step(old(Snapshot()), PausePressed(player))
      ensures asked <==> runnable.Some? && player.Some?
      ensures asked && player.value.pauseOk ==> Ticks(Snapshot()) == 0
      ensures !(asked && player.value.pauseOk) ==> Snapshot() == old(Snapshot())
    {
      asked := runnable.Some? && player.Some?;
      if asked && player.value.pauseOk {
        RemoveTicks();
      }
    }

    /**
     * stopMedia: `stop()` is called only with a runnable, a bar and a player;
     * when it answered true the current runnable stops reporting (no post of
     * it remains) and the bar shows 0, otherwise nothing changes.
     */
    method StopMedia(player: Option<Player>) returns (asked: bool)
      requires Valid()
      modifies this
      ensures Valid() && Snapshot() == Step(old(Snapshot()), StopPressed(player))
      ensures asked <==> runnable.Some? && bar.Some? && player.Some?
      ensures asked && player.value.stopOk ==> Ticks(Snapshot()) == 0 && bar.value.progress == 0
      ensures !(asked && player.value.stopOk) ==> Snapshot() == old(Snapshot())
    {
      asked := runnable.Some? && bar.Some? && player.Some?;
      if asked && player.value.stopOk {
        RemoveTicks();
        bar := Some(bar.value.(progress := 0));
      }
    }

    /**
     * A pending post of runnable `which` fires: with a player the bar shows
     * its position, and the runnable posts itself again, so the pending
     * posts are the same as before. `which` may be a runnable that a later
     * onViewCreated replaced. The bar is required: `mSeekBar.post` would
     * dereference null without one, a case the fragment never reaches because
     * the bar is inflated before any runnable exists and is never cleared.
     */
    method Tick(which: nat, player: Option<Player>)
      requires Valid()
      requires which in pending && bar.Some?
      modifies this
      ensures Valid() && Snapshot() == Step(old(Snapshot()), TickFired(which, player))
      ensures pending == old(pending)
      ensures bar.value.progress == if player.Some? then player.value.position else old(bar).value.progress
    {
      assert pending - multiset{which} + multiset{which} == pending;
      pending := pending - multiset{which};
      if player.Some? {
        bar := Some(bar.value.(progress := player.value.position));
      }
      pending := pending + multiset{which};
    }
  }
}
