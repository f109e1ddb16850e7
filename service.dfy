/**
 * The background media service: one player slot, which may be empty, and the
 * three transport commands forwarded to the player in the slot.
 *
 * Players are external objects; the model numbers them in creation order and
 * records every call the service makes on them, in order, in `calls`.
 */
module Service {
  import opened Wrappers

  /** A call the service makes on a player. */
  datatype Op = Init(resId: int) | Play | Pause | Stop | Release

  /** A call on the player numbered `player`. */
  datatype Call = Call(player: nat, op: Op)

  /** The three commands the service offers its clients. */
  datatype Command = PlayMedia | PauseMedia | StopMedia

  /** The player call each command forwards. */
  function OpOf(c: Command): (op: Op)
    ensures op == Play <==> c == PlayMedia
    ensures op == Pause <==> c == PauseMedia
    ensures op == Stop <==> c == StopMedia
  {
    match c
    case PlayMedia => Play
    case PauseMedia => Pause
    case StopMedia => Stop
  }

  /** The calls a null-guarded forwarding of `op` to the slot makes. */
  function Forward(slot: Option<nat>, op: Op): (calls: seq<Call>)
    ensures |calls| <= 1
    ensures calls != [] <==> slot.Some?
    ensures forall c :: c in calls ==> c == Call(slot.value, op)
  {
    if slot.Some? then [Call(slot.value, op)] else []
  }

  /** The players that received a `release` call. */
  function Released(calls: seq<Call>): (r: set<nat>)
    ensures forall p :: p in r <==> Call(p, Release) in calls
    decreases |calls|
  {
    if |calls| == 0 then {}
    else
      var last := calls[|calls| - 1];
      assert calls == calls[..|calls| - 1] + [last];
      Released(calls[..|calls| - 1]) + (if last.op == Release then {last.player} else {})
  }

  /** The players released by two runs of calls are those released by either. */
  lemma ReleasedAppend(a: seq<Call>, b: seq<Call>)
    ensures Released(a + b) == Released(a) + Released(b)
  {
  }

  class MediaService {
    var player: Option<nat>      // the slot `mPlayer`
    var created: nat             // number of players created so far
    var calls: seq<Call>         // every call made on a player, in order

    /** Players are numbered below `created`. */
    predicate Valid()
      reads this
    {
      (player.Some? ==> player.value < created) &&
      forall i :: 0 <= i < |calls| ==> calls[i].player < created
    }

    /** A new service: the slot is empty. */
    constructor ()
      ensures Valid() && player == None && created == 0 && calls == []
    {
      player, created, calls := None, 0, [];
    }

    /**
     * createMediaPlayer: a fresh player is initialised and put in the slot.
     * The player that was there before is not released.
     */
    method CreateMediaPlayer(resId: int)
      requires Valid()
      modifies this
      ensures Valid()
      ensures player == Some(old(created)) && created == old(created) + 1
      ensures Released(calls) == Released(old(calls))
      ensures calls == old(calls) + [Call(old(created), Init(resId))]
    {
      player := Some(created);
      calls := calls + [Call(created, Init(resId))];
      created := created + 1;
      ReleasedAppend(old(calls), [Call(old(created), Init(resId))]);
    }

    /** getPlayer: the slot as it is, possibly empty. */
    method GetPlayer() returns (p: Option<nat>)
      requires Valid()
      ensures p == player
      ensures p.Some? ==> p.value < created
    {
      p := player;
    }

    /** playMedia: forwards `play` to the player in the slot, if any. */
    method PlayMedia()
      requires Valid()
      modifies this
      ensures Valid() && player == old(player) && created == old(created)
      ensures calls == old(calls) + Forward(player, Play)
    {
      if player.Some? {
        calls := calls + [Call(player.value, Play)];
      }
    }

    /** pauseMedia: forwards `pause` to the player in the slot, if any. */
    method PauseMedia()
      requires Valid()
      modifies this
      ensures Valid() && player == old(player) && created == old(created)
      ensures calls == old(calls) + Forward(player, Pause)
    {
      if player.Some? {
        calls := calls + [Call(player.value, Pause)];
      }
    }

    /** stopMedia: forwards `stop` to the player in the slot, if any. */
    method StopMedia()
      requires Valid()
      modifies this
      ensures Valid() && player == old(player) && created == old(created)
      ensures calls == old(calls) + Forward(player, Stop)
    {
      if player.Some? {
        calls := calls + [Call(player.value, Stop)];
      }
    }

    /**
     * onUnbind: releases the player in the slot, which must be there, and
     * refuses a later rebind. The slot keeps the released player.
     */
    method OnUnbind() returns (rebind: bool)
      requires Valid()
      requires player.Some?
      modifies this
      ensures Valid() && !rebind
      ensures player == old(player) && created == old(created)
      ensures calls == old(calls) + [Call(player.value, Release)]
      ensures player.value in Released(calls)
    {
      calls := calls + [Call(player.value, Release)];
      rebind := false;
    }

    /** onDestroy: releases the player in the slot, if any. */
    method OnDestroy()
      requires Valid()
      modifies this
      ensures Valid() && player == old(player) && created == old(created)
      ensures calls == old(calls) + Forward(player, Release)
      ensures Released(calls) == Released(old(calls)) + (if player.Some? then {player.value} else {})
    {
      if player.Some? {
        calls := calls + [Call(player.value, Release)];
      }
      ReleasedAppend(old(calls), Forward(player, Release));
    }
  }
}
