/** The harvest-ready notifier: at most one desktop notification per 30
    seconds, and only while the browser grants permission. The clock and the
    permission are inputs; a sent notification is the method's result. */
module Notifications {
  import opened Types

  /** Minimum gap between two notifications, in milliseconds. */
  const ThrottleMs: int := 30000

  /** A desktop notification as the browser is asked to show it. */
  datatype Notification = Notification(title: string, body: string, icon: string, tag: string)

  /** The notification announcing that `cropName` is ready to harvest. */
  function HarvestReadyNotification(cropName: string, icon: string): (n: Notification)
    ensures n.body == "Sua colheita de " + cropName + " " + icon + " está pronta!"
    ensures n.title == "Gemini Harvest" && n.tag == "harvest-ready"
  {
    Notification(
      "Gemini Harvest",
      "Sua colheita de " + cropName + " " + icon + " está pronta!",
      "https://cdn-icons-png.flaticon.com/512/888/888144.png",
      "harvest-ready")
  }

  /** A request at `now` is shown when the throttle window since the last
      notification has passed and permission is granted. */
  predicate ShouldNotify(last: int, now: int, granted: bool)
  {
    now - last >= ThrottleMs && granted
  }

  class NotificationService {
    var lastNotificationTime: int
    const throttleMs: int := ThrottleMs

    constructor ()
      ensures lastNotificationTime == 0
    {
      lastNotificationTime := 0;
    }

    /** Ask to announce a ready crop at time `now`. A notification is sent,
        and the time remembered, exactly when `ShouldNotify` holds; otherwise
        nothing is sent and nothing changes. */
    method SendHarvestReady(cropName: string, icon: string, now: int, granted: bool)
      returns (sent: Option<Notification>)
      modifies this
      ensures sent.Some? <==> ShouldNotify(old(lastNotificationTime), now, granted)
      ensures sent.Some? ==> sent.value == HarvestReadyNotification(cropName, icon) && lastNotificationTime == now
      ensures sent.None? ==> lastNotificationTime == old(lastNotificationTime)
    {
      if now - lastNotificationTime < throttleMs {
        return None;
      }
      if granted {
        lastNotificationTime := now;
        return Some(HarvestReadyNotification(cropName, icon));
      }
      return None;
    }
  }

  /** One call of the notifier: the clock reading and the permission at that moment. */
  datatype Request = Request(now: int, granted: bool)

  /** The times at which notifications are sent for a run of requests, starting
      from last-notification time `last`. */
  function SentTimes(last: int, requests: seq<Request>): seq<int>
    decreases |requests|
  {
    if requests == [] then []
    else
      var r := requests[0];
      if ShouldNotify(last, r.now, r.granted) then [r.now] + SentTimes(r.now, requests[1..])
      else SentTimes(last, requests[1..])
  }

  /** Every time in `sent` is at least `ThrottleMs` after `last` and after
      each earlier time in `sent`. */
  predicate SpacedAfter(last: int, sent: seq<int>)
  {
    && (forall i :: 0 <= i < |sent| ==> sent[i] >= last + ThrottleMs)
    && (forall i, j :: 0 <= i < j < |sent| ==> sent[j] - sent[i] >= ThrottleMs)
  }

  /** Every notification of a run comes at least `ThrottleMs` after the
      previous one (and after `last`), so any two are at least that far apart,
      whatever order the clock readings come in. */
  lemma {:induction false} SentTimesSpaced(last: int, requests: seq<Request>)
    ensures SpacedAfter(last, SentTimes(last, requests))
    decreases |requests|
  {
    if requests != [] {
      var r := requests[0];
      if ShouldNotify(last, r.now, r.granted) {
        SentTimesSpaced(r.now, requests[1..]);
        var rest := SentTimes(r.now, requests[1..]);
        var sent := [r.now] + rest;
        assert SentTimes(last, requests) == sent;
        forall i | 0 <= i < |sent| ensures sent[i] >= last + ThrottleMs {
          if i > 0 {
            assert sent[i] == rest[i - 1];
          }
        }
        forall i, j | 0 <= i < j < |sent| ensures sent[j] - sent[i] >= ThrottleMs {
          assert sent[j] == rest[j - 1];
          if i > 0 {
            assert sent[i] == rest[i - 1];
          }
        }
      } else {
        SentTimesSpaced(last, requests[1..]);
        assert SentTimes(last, requests) == SentTimes(last, requests[1..]);
      }
    }
  }

  /** Without permission nothing is ever sent. */
  lemma {:induction false} NothingSentWithoutPermission(last: int, requests: seq<Request>)
    requires forall k :: 0 <= k < |requests| ==> !requests[k].granted
    ensures SentTimes(last, requests) == []
    decreases |requests|
  {
    if requests != [] {
      NothingSentWithoutPermission(last, requests[1..]);
    }
  }

  /** One notifier serving a run of requests in order: the times at which it
      sends are exactly `SentTimes(0, requests)`, so any two are at least
      `ThrottleMs` apart. */
  method ServeRequests(requests: seq<Request>, cropName: string, icon: string) returns (sent: seq<int>)
    ensures sent == SentTimes(0, requests)
    ensures SpacedAfter(0, sent)
  {
    var service := new NotificationService();
    sent := [];
    var i := 0;
    while i < |requests|
      invariant 0 <= i <= |requests|
      invariant sent + SentTimes(service.lastNotificationTime, requests[i..]) == SentTimes(0, requests)
    {
      var r := requests[i];
      assert requests[i..][0] == r && requests[i..][1..] == requests[i + 1..];
      var n := service.SendHarvestReady(cropName, icon, r.now, r.granted);
      if n.Some? {
        assert sent + ([r.now] + SentTimes(r.now, requests[i + 1..]))
            == (sent + [r.now]) + SentTimes(r.now, requests[i + 1..]);
        sent := sent + [r.now];
      }
      i := i + 1;
    }
    assert sent + SentTimes(service.lastNotificationTime, []) == sent;
    SentTimesSpaced(0, requests);
  }
}
