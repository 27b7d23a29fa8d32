/** The maintenance banner: a 503 response from the API can switch it on, and
    the page can clear it. */
module Maintenance {
  import opened Js

  const DefaultMessage := "Maintenance in progress"

  /** The refs `maintenanceActive` and `maintenanceMessage`. */
  datatype MaintenanceState = MaintenanceState(active: bool, message: JsValue)

  const Cleared := MaintenanceState(false, Null)

  /** The interceptor's rule for one response. `body` is the parsed JSON body,
      or `None` when it does not parse. */
  function OnResponse(s: MaintenanceState, status: int, body: Option<JsValue>): (s': MaintenanceState)
    ensures status != 503 ==> s' == s
    ensures status == 503 && body.None? ==> s' == MaintenanceState(true, Str(DefaultMessage))
    ensures status == 503 && body.Some? && Truthy(Field(body.value, "maintenance")) ==>
      s'.active && s'.message == Or(Field(body.value, "message"), Str(DefaultMessage))
    ensures status == 503 && body.Some? && !Truthy(Field(body.value, "maintenance")) ==> s' == s
  {
    if status != 503 then s
    else if body.None? then MaintenanceState(true, Str(DefaultMessage))
    else if Truthy(Field(body.value, "maintenance")) then
      MaintenanceState(true, Or(Field(body.value, "message"), Str(DefaultMessage)))
    else s
  }

  /** Once active, the banner stays active whatever further responses arrive,
      and its message is never empty. */
  lemma {:induction false} ActiveUntilCleared(s: MaintenanceState, responses: seq<(int, Option<JsValue>)>)
    requires s.active && Truthy(s.message)
    ensures Replay(s, responses).active && Truthy(Replay(s, responses).message)
    decreases |responses|
  {
    if responses != [] {
      ActiveUntilCleared(OnResponse(s, responses[0].0, responses[0].1), responses[1..]);
    }
  }

  /** The banner after a run of responses, in order. */
  function Replay(s: MaintenanceState, responses: seq<(int, Option<JsValue>)>): (s': MaintenanceState)
    ensures (forall i :: 0 <= i < |responses| ==> responses[i].0 != 503) ==> s' == s
    decreases |responses|
  {
    if responses == [] then s
    else Replay(OnResponse(s, responses[0].0, responses[0].1), responses[1..])
  }

  /** `clearMaintenanceBanner()`. */
  function Clear(s: MaintenanceState): (s': MaintenanceState)
    ensures !s'.active && s'.message == Null
  {
    Cleared
  }

  /** After clearing, only a 503 can show the banner again. */
  lemma ClearedStaysClearWithout503(s: MaintenanceState, responses: seq<(int, Option<JsValue>)>)
    requires forall i :: 0 <= i < |responses| ==> responses[i].0 != 503
    ensures !Replay(Clear(s), responses).active
  {
  }
}
