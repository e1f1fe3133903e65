/**
  * The communication view: the chat input, the unread-notification badge,
  * and the classification of tickets and notifications into badge tones and
  * icons.
  */
module Communication {
  import opened Filtering

  datatype Notification = Notification(
    id: int,
    title: string,
    message: string,
    kind: string,
    timestamp: string,
    read: bool)

  /** `notifications.filter(n => !n.read).length`, the number on the Notifications tab. */
  function UnreadCount(notifications: seq<Notification>): nat {
    |Filter(notifications, (n: Notification) => !n.read)|
  }

  /** The number of notifications already read. */
  function ReadCount(notifications: seq<Notification>): nat {
    |Filter(notifications, (n: Notification) => n.read)|
  }

  /** Unread and read notifications make up the whole list, so the badge never exceeds the total. */
  lemma UnreadPlusReadIsTotal(notifications: seq<Notification>)
    ensures UnreadCount(notifications) + ReadCount(notifications) == |notifications|
    ensures UnreadCount(notifications) <= |notifications|
  {
    FilterPartition(notifications, (n: Notification) => !n.read, (n: Notification) => n.read);
  }

  /** The badge shows zero exactly when every notification has been read. */
  lemma NoUnreadIffAllRead(notifications: seq<Notification>)
    ensures UnreadCount(notifications) == 0 <==> forall i :: 0 <= i < |notifications| ==> notifications[i].read
  {
    var unread := (n: Notification) => !n.read;
    if UnreadCount(notifications) == 0 {
      forall i | 0 <= i < |notifications|
        ensures notifications[i].read
      {
        FilterMembership(notifications, unread, notifications[i]);
      }
    }
    if forall i :: 0 <= i < |notifications| ==> notifications[i].read {
      forall x | x in notifications
        ensures !unread(x)
      {
      }
      FilterKeepsNone(notifications, unread);
    }
  }

  /** The badge shows the total exactly when none has been read. */
  lemma AllUnreadIffNoneRead(notifications: seq<Notification>)
    ensures UnreadCount(notifications) == |notifications| <==> forall i :: 0 <= i < |notifications| ==> !notifications[i].read
  {
    UnreadPlusReadIsTotal(notifications);
    var read := (n: Notification) => n.read;
    if UnreadCount(notifications) == |notifications| {
      forall i | 0 <= i < |notifications|
        ensures !notifications[i].read
      {
        FilterMembership(notifications, read, notifications[i]);
      }
    }
    if forall i :: 0 <= i < |notifications| ==> !notifications[i].read {
      FilterKeepsAll(notifications, (n: Notification) => !n.read);
    }
  }

  /** The colour a badge is drawn in; `Secondary` is the neutral default variant. */
  datatype Tone = Red | Yellow | Blue | Green | Secondary

  /** `getStatusBadge` for tickets. */
  function TicketStatusTone(status: string): (tone: Tone)
    ensures tone != Secondary <==> status == "Open" || status == "In Progress" || status == "Resolved"
  {
    if status == "Open" then Red
    else if status == "In Progress" then Blue
    else if status == "Resolved" then Green
    else Secondary
  }

  /** `getPriorityBadge`. */
  function PriorityTone(priority: string): (tone: Tone)
    ensures tone != Secondary <==> priority == "High" || priority == "Medium" || priority == "Low"
  {
    if priority == "High" then Red
    else if priority == "Medium" then Yellow
    else if priority == "Low" then Green
    else Secondary
  }

  /** Different known ticket statuses never share a badge, nor with an unknown status. */
  lemma TicketStatusTonesDistinct(s1: string, s2: string)
    requires TicketStatusTone(s1) == TicketStatusTone(s2)
    requires TicketStatusTone(s1) != Secondary
    ensures s1 == s2
  {
  }

  /** Different known priorities never share a badge. */
  lemma PriorityTonesDistinct(p1: string, p2: string)
    requires PriorityTone(p1) == PriorityTone(p2)
    requires PriorityTone(p1) != Secondary
    ensures p1 == p2
  {
  }

  datatype NotificationIcon = AlertIcon | CheckIcon | BellIcon

  /** `getNotificationIcon`: warnings get an alert, successes a check, everything else a bell. */
  function IconFor(kind: string): (icon: NotificationIcon)
    ensures icon == AlertIcon <==> kind == "warning"
    ensures icon == CheckIcon <==> kind == "success"
  {
    if kind == "warning" then AlertIcon
    else if kind == "success" then CheckIcon
    else BellIcon
  }

  /** The state of `CommunicationCenter`: the text in the chat input. */
  class CommunicationCenter {
    var newMessage: string

    constructor ()
      ensures newMessage == ""
    {
      newMessage := "";
    }

    /** Typing: the input holds exactly what was typed. */
    method OnChange(value: string)
      modifies this
      ensures newMessage == value
    {
      newMessage := value;
    }

    /** A key press: Enter clears the input, any other key leaves it. */
    method OnKeyPress(key: string)
      modifies this
      ensures key == "Enter" ==> newMessage == ""
      ensures key != "Enter" ==> newMessage == old(newMessage)
    {
      if key == "Enter" {
        newMessage := "";
      }
    }

    /** The send button clears the input, whatever it held. */
    method OnSend()
      modifies this
      ensures newMessage == ""
    {
      newMessage := "";
    }
  }
}
