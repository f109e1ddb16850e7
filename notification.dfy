/**
 * The broadcast receiver behind the notification's transport buttons: it maps
 * an intent's action string to at most one command of the media service.
 */
module Notification {
  import opened Wrappers
  import Service

  /** The action names the notification's buttons send. */
  const ACTION_PLAY: string := "Play"
  const ACTION_PAUSE: string := "Pause"
  const ACTION_STOP: string := "Stop"

  /** A received intent; its action may be null. */
  datatype Intent = Intent(action: Option<string>)

  /**
   * The command an intent triggers, given whether a service binder could be
   * obtained: none for a null intent, a null action, a missing binder or an
   * action that is not exactly one of the three names.
   */
  function Route(intent: Option<Intent>, bound: bool): (r: Option<Service.Command>)
    ensures r.Some? ==> intent.Some? && intent.value.action.Some? && bound
    ensures r == Some(Service.PlayMedia) <==>
              bound && intent == Some(Intent(Some(ACTION_PLAY)))
    ensures r == Some(Service.PauseMedia) <==>
              bound && intent == Some(Intent(Some(ACTION_PAUSE)))
    ensures r == Some(Service.StopMedia) <==>
              bound && intent == Some(Intent(Some(ACTION_STOP)))
  {
    if intent.None? || intent.value.action.None? || !bound then None
    else
      var action := intent.value.action.value;
      if action == ACTION_PLAY then Some(Service.PlayMedia)
      else if action == ACTION_PAUSE then Some(Service.PauseMedia)
      else if action == ACTION_STOP then Some(Service.StopMedia)
      else None
  }

  /**
   * Any action other than the three names triggers nothing, whatever the
   * binder: names are compared exactly, so "play" or "PAUSE" are ignored too.
   */
  lemma OtherActionsIgnored(action: string, bound: bool)
    requires action != ACTION_PLAY && action != ACTION_PAUSE && action != ACTION_STOP
    ensures Route(Some(Intent(Some(action))), bound) == None
  {
  }

  /** The player calls a routed command leads to, through a slot that may be empty. */
  function Issued(command: Option<Service.Command>, slot: Option<nat>): (calls: seq<Service.Call>)
    ensures |calls| <= 1
    ensures calls != [] <==> command.Some? && slot.Some?
  {
    if command.Some? then Service.Forward(slot, Service.OpOf(command.value)) else []
  }

  /**
   * onReceive: `service` is the service reached through the binder, or null
   * when no binder is available. At most one command is run on it.
   */
  method OnReceive(intent: Option<Intent>, service: Service.MediaService?)
    requires service != null ==> service.Valid()
    modifies if service != null then {service} else {}
    ensures service != null ==> service.Valid() && service.player == old(service.player)
    ensures service != null ==> service.created == old(service.created)
    ensures service != null ==>
              service.calls == old(service.calls) + Issued(Route(intent, true), service.player)
  {
    var command := Route(intent, service != null);
    if command == Some(Service.PlayMedia) {
      service.PlayMedia();
    } else if command == Some(Service.PauseMedia) {
      service.PauseMedia();
    } else if command == Some(Service.StopMedia) {
      service.StopMedia();
    }
  }
}
