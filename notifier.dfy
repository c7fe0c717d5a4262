/** The alerts the watchdog raises and the push channel they go to.
    The text of each push (prefix, number formatting) is not modelled: an alert
    carries the values its description is built from. */
module Notifier {

  /** How long the connection had been up when it dropped; unknown before the
      first successful connection. */
  datatype Uptime = UnknownUptime | UpFor(ms: int)

  datatype Alert =
    | Dropped(disconnects: nat, uptime: Uptime)   // connection lost, the Nth disconnect
    | Unreachable(downMs: int)                     // still down after an outage this long
    | HeartbeatGap(gapMs: int)                     // two pings further apart than the timeout
    | ConnectionError(message: string)             // socket error while connected
    | ProbeError(message: string)                  // reachability probe failed

  /** One push request: the title (the server address) and the alert it describes. */
  datatype Push = Push(title: string, alert: Alert)

  /** The requests that one call of notify(title, alert, key) sends: none when
      the channel key is empty, otherwise exactly one. */
  function Notify(title: string, alert: Alert, key: string): (r: seq<Push>)
    ensures key == "" ==> r == []
    ensures key != "" ==> r == [Push(title, alert)]
  {
    if key == "" then [] else [Push(title, alert)]
  }

  /** The requests sent by notifying each alert in turn. */
  function NotifyAll(title: string, alerts: seq<Alert>, key: string): (r: seq<Push>)
    ensures key == "" ==> r == []
    ensures key != "" ==> |r| == |alerts|
    ensures key != "" ==> forall i :: 0 <= i < |r| ==> r[i] == Push(title, alerts[i])
  {
    if alerts == [] then [] else Notify(title, alerts[0], key) + NotifyAll(title, alerts[1..], key)
  }
}
