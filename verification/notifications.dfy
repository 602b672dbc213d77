/**
 The notification drop-down (components/Notifications.tsx): which entries it lists, its
 header count and the icon of each entry. Layout and styling are not modelled.
 */
module Notifications {
  import opened Types
  import Feed

  /** How many of the recent threats the drop-down previews. */
  const PreviewCount: nat := 4

  datatype NotificationItem =
    | SystemNote(id: string, title: string, time: string, status: string)
    | ThreatNote(id: string, title: string, time: string, severity: Severity)

  const KeysRotated: NotificationItem := SystemNote("sys-1", "Encryption Keys Rotated", "Just now", "success")
  const BackupComplete: NotificationItem := SystemNote("sys-2", "Database Backup Complete", "1 hour ago", "info")

  /** The entry one threat becomes. */
  function ThreatEntry(t: Threat): NotificationItem {
    ThreatNote(t.id, "Threat Detected: " + t.threatType, "2 mins ago", t.severity)
  }

  /** What the open drop-down renders: its entries and the count in its header. */
  datatype Panel = Panel(items: seq<NotificationItem>, headerCount: nat)

  /**
   A closed drop-down renders nothing. An open one lists the key-rotation notice, then an entry
   for each of the first four threats in order, then the backup notice, and counts them all.
   */
  function Compose(isOpen: bool, threats: seq<Threat>): (r: Option<Panel>)
    ensures r.Some? <==> isOpen
    ensures isOpen ==>
      var items := r.value.items;
      && |items| == 2 + Min(PreviewCount, |threats|)
      && r.value.headerCount == |items|
      && items[0] == KeysRotated
      && items[|items| - 1] == BackupComplete
      && (forall i :: 0 <= i < |items| - 2 ==> items[i + 1] == ThreatEntry(threats[i]))
  {
    if !isOpen then None
    else
      var shown := Feed.Take(threats, PreviewCount);
      var entries := seq(|shown|, i requires 0 <= i < |shown| => ThreatEntry(shown[i]));
      var items := [KeysRotated] + entries + [BackupComplete];
      Some(Panel(items, |items|))
  }

  datatype Icon = CheckGreen | InfoBlue | AlertRed | AlertOrange

  /** The icon of an entry: system notices by their status, threats red only when critical. */
  function IconOf(n: NotificationItem): (icon: Icon)
    ensures icon == AlertRed <==> n.ThreatNote? && n.severity == Critical
    ensures icon == AlertOrange <==> n.ThreatNote? && n.severity != Critical
    ensures icon == CheckGreen <==> n.SystemNote? && n.status == "success"
  {
    match n
    case SystemNote(_, _, _, status) => if status == "success" then CheckGreen else InfoBlue
    case ThreatNote(_, _, _, severity) => if severity == Critical then AlertRed else AlertOrange
  }

  /** A previewed threat shows the red icon exactly when it is critical. */
  lemma PreviewIconMatchesSeverity(threats: seq<Threat>, i: nat)
    requires i < Min(PreviewCount, |threats|)
    ensures (IconOf(Compose(true, threats).value.items[i + 1]) == AlertRed) <==> threats[i].severity == Critical
  {
    assert Compose(true, threats).value.items[i + 1] == ThreatEntry(threats[i]);
  }
}
