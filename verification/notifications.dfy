/** The toast list shared by the whole client. The clock (`Date.now()`) is a parameter,
    and the timer that removes a toast later is reduced to the decision to start one. */
module Notifications {
  import opened Wrappers
  import opened Text
  import opened Seqs

  datatype Kind = SuccessKind | ErrorKind | WarningKind | InfoKind

  datatype Notification = Notification(id: string, kind: Kind, message: string, duration: int)

  const DefaultDuration: int := 4000

  function NotificationId(n: Notification): string { n.id }

  /** The `duration` parameter's default applies only when no value is passed. */
  function EffectiveDuration(duration: Option<int>): int {
    if duration.Some? then duration.value else DefaultDuration
  }

  class NotificationCenter {
    var notifications: seq<Notification>

    constructor ()
      ensures notifications == []
    {
      notifications := [];
    }

    /** `notify`: appends one toast with the clock reading as its id and returns that id;
        removal is scheduled exactly when the duration is positive. */
    method Notify(kind: Kind, message: string, duration: Option<int>, now: nat)
      returns (id: string, scheduled: bool)
      modifies this
      ensures id == NatToString(now)
      ensures notifications == old(notifications) + [Notification(id, kind, message, EffectiveDuration(duration))]
      ensures scheduled <==> EffectiveDuration(duration) > 0
    {
      var d := if duration.Some? then duration.value else DefaultDuration;
      id := NatToString(now);
      notifications := notifications + [Notification(id, kind, message, d)];
      scheduled := d > 0;
    }

    /** `remove`: `findIndex` then `splice(index, 1)`: the first toast with that id goes,
        the others stay in order, and an unknown id changes nothing. */
    method Remove(id: string)
      modifies this
      ensures notifications == RemoveFirst(old(notifications), NotificationId, id)
    {
      RemoveFirstIsSplice(notifications, NotificationId, id);
      var index := FirstIndex(notifications, NotificationId, id);
      if index.Some? {
        notifications := notifications[..index.value] + notifications[index.value + 1..];
      }
    }

    /** `clear`. */
    method Clear()
      modifies this
      ensures notifications == []
    {
      notifications := [];
    }

    /** `success`, `error`, `warning` and `info` are `notify` with their own kind. */
    method Success(message: string, duration: Option<int>, now: nat) returns (id: string, scheduled: bool)
      modifies this
      ensures id == NatToString(now) && (scheduled <==> EffectiveDuration(duration) > 0)
      ensures notifications == old(notifications) + [Notification(id, SuccessKind, message, EffectiveDuration(duration))]
    {
      id, scheduled := Notify(SuccessKind, message, duration, now);
    }

    method Error(message: string, duration: Option<int>, now: nat) returns (id: string, scheduled: bool)
      modifies this
      ensures id == NatToString(now) && (scheduled <==> EffectiveDuration(duration) > 0)
      ensures notifications == old(notifications) + [Notification(id, ErrorKind, message, EffectiveDuration(duration))]
    {
      id, scheduled := Notify(ErrorKind, message, duration, now);
    }

    method Warning(message: string, duration: Option<int>, now: nat) returns (id: string, scheduled: bool)
      modifies this
      ensures id == NatToString(now) && (scheduled <==> EffectiveDuration(duration) > 0)
      ensures notifications == old(notifications) + [Notification(id, WarningKind, message, EffectiveDuration(duration))]
    {
      id, scheduled := Notify(WarningKind, message, duration, now);
    }

    method Info(message: string, duration: Option<int>, now: nat) returns (id: string, scheduled: bool)
      modifies this
      ensures id == NatToString(now) && (scheduled <==> EffectiveDuration(duration) > 0)
      ensures notifications == old(notifications) + [Notification(id, InfoKind, message, EffectiveDuration(duration))]
    {
      id, scheduled := Notify(InfoKind, message, duration, now);
    }
  }

  /** After a toast is added, removing it by the id `notify` returned takes the list back
      to what it was, provided no earlier toast shares that id. */
  lemma {:induction false} NotifyThenRemove(before: seq<Notification>, n: Notification)
    requires forall i :: 0 <= i < |before| ==> before[i].id != n.id
    ensures RemoveFirst(before + [n], NotificationId, n.id) == before
  {
    if before != [] {
      assert (before + [n])[1..] == before[1..] + [n];
      NotifyThenRemove(before[1..], n);
    }
  }
}
