/**
 * The Android notification manager as abstract state: the notifications on
 * screen by id, the channel ids created so far, and the order in which
 * notifications were posted and removed.
 */
module Notifications {
  import opened Options

  /** `setProgress(max, progress, indeterminate)`. */
  datatype ProgressBar = ProgressBar(max: int, progress: int, indeterminate: bool)

  /** What tapping the notification opens. */
  datatype Target =
    | LaunchApp                // the package's launch intent
    | OpenUri(uri: string)     // an `ACTION_VIEW` intent on a URI

  /** The parts of a `NotificationCompat.Builder` result the services set from their inputs. */
  datatype Notification = Notification(
    channel: string,
    title: string,
    text: string,
    bar: Option<ProgressBar>,
    onlyAlertOnce: bool,
    ongoing: bool,
    autoCancel: bool,
    target: Target,
    actions: seq<string>)

  datatype Event = Posted(id: int, n: Notification) | Cancelled(id: int)

  class NotificationManager {
    var posted: map<int, Notification>
    var channels: set<string>
    var history: seq<Event>

    constructor ()
      ensures posted == map[] && channels == {} && history == []
    {
      posted, channels, history := map[], {}, [];
    }

    /** `notify(id, n)`: shows `n`, replacing whatever was shown under `id`. */
    method Notify(id: int, n: Notification)
      modifies this
      ensures posted == old(posted)[id := n]
      ensures channels == old(channels)
      ensures history == old(history) + [Posted(id, n)]
    {
      posted := posted[id := n];
      history := history + [Posted(id, n)];
    }

    /** `cancel(id)`: removes the notification shown under `id`, if any. */
    method Cancel(id: int)
      modifies this
      ensures posted == old(posted) - {id}
      ensures channels == old(channels)
      ensures history == old(history) + [Cancelled(id)]
    {
      posted := posted - {id};
      history := history + [Cancelled(id)];
    }

    /** `createNotificationChannel(channel)`: registers the channel id. */
    method CreateNotificationChannel(channelId: string)
      modifies this
      ensures channels == old(channels) + {channelId}
      ensures posted == old(posted) && history == old(history)
    {
      channels := channels + {channelId};
    }
  }
}
