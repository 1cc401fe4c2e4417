/**
 * The save-progress foreground service: what its progress notification
 * shows for a (done, total, title) triple, and the four-action state
 * machine over one progress notification (id 3001) and one completion
 * notification (id 3002). The OS calls (`startForeground`,
 * `stopForeground`, `cancel`, `notify`, `createNotificationChannel`,
 * `stopSelf`) are updates of abstract state.
 */
module SaveProgress {
  import opened Options
  import opened Text
  import opened Notifications

  const ActionStart := "com.sholo.imageconverter.SAVE_PROGRESS_START"
  const ActionUpdate := "com.sholo.imageconverter.SAVE_PROGRESS_UPDATE"
  const ActionComplete := "com.sholo.imageconverter.SAVE_PROGRESS_COMPLETE"
  const ActionCancel := "com.sholo.imageconverter.SAVE_PROGRESS_CANCEL"

  const ExtraDone := "done"
  const ExtraTotal := "total"
  const ExtraTitle := "title"
  const ExtraBody := "body"

  const ChannelProgress := "save_progress_v2"
  const ChannelComplete := "save_complete"

  const ProgressId := 3001
  const CompleteId := 3002

  /** `Service.START_NOT_STICKY`. */
  const StartNotSticky := 2

  const DefaultProgressTitle := "Saving"
  const IndeterminateBody := "Working"
  const DefaultCompletedTitle := "Completed"
  const DefaultCompletedBody := "Tap to see results"
  const ResultsLink := "imageconverter://open?route=results"

  // ---------------------------------------------------------------------
  // Intents
  // ---------------------------------------------------------------------

  datatype Extra = IntExtra(i: int) | StringExtra(s: string)

  datatype Intent = Intent(action: Option<string>, extras: map<string, Extra>)

  /** `getIntExtra(name, default)`: the default unless an `Int` extra of that name is present. */
  function GetIntExtra(intent: Intent, name: string, default: int): (r: int)
    ensures name !in intent.extras ==> r == default
    ensures name in intent.extras && intent.extras[name].IntExtra? ==> r == intent.extras[name].i
    ensures name in intent.extras && intent.extras[name].StringExtra? ==> r == default
  {
    if name in intent.extras && intent.extras[name].IntExtra? then intent.extras[name].i else default
  }

  /** `getStringExtra(name)`: null unless a `String` extra of that name is present. */
  function GetStringExtra(intent: Intent, name: string): (r: Option<string>)
    ensures r.Some? <==> name in intent.extras && intent.extras[name].StringExtra?
    ensures r.Some? ==> intent.extras[name] == StringExtra(r.value)
  {
    if name in intent.extras && intent.extras[name].StringExtra? then Some(intent.extras[name].s) else None
  }

  datatype Action = Start | Update | Complete | Cancel | Ignored

  /** The branch of `when (intent?.action)` an intent takes. */
  function ActionOf(intent: Option<Intent>): (a: Action)
    ensures a == Ignored <==>
              intent.None? || intent.value.action.None? ||
              intent.value.action.value !in {ActionStart, ActionUpdate, ActionComplete, ActionCancel}
    ensures a == Start <==> intent.Some? && intent.value.action == Some(ActionStart)
    ensures a == Update <==> intent.Some? && intent.value.action == Some(ActionUpdate)
    ensures a == Complete <==> intent.Some? && intent.value.action == Some(ActionComplete)
    ensures a == Cancel <==> intent.Some? && intent.value.action == Some(ActionCancel)
  {
    if intent.None? || intent.value.action.None? then Ignored
    else
      var action := intent.value.action.value;
      if action == ActionStart then Start
      else if action == ActionUpdate then Update
      else if action == ActionComplete then Complete
      else if action == ActionCancel then Cancel
      else Ignored
  }

  // ---------------------------------------------------------------------
  // What the progress notification shows
  // ---------------------------------------------------------------------

  /** `if (x < 0) 0 else x`. */
  function NonNegative(x: int): nat
  {
    if x < 0 then 0 else x
  }

  /** The counter text `"<shown>/<total>"`. */
  function CounterText(shown: nat, total: nat): string
  {
    DecimalString(shown) + "/" + DecimalString(total)
  }

  /** The first position of `c` in `s`, if any. */
  function IndexOf(s: string, c: char): (r: Option<nat>)
    ensures r.Some? ==> r.value < |s| && s[r.value] == c && c !in s[..r.value]
    ensures r.None? ==> c !in s
  {
    if s == [] then None
    else if s[0] == c then Some(0)
    else match IndexOf(s[1..], c)
      case None => None
      case Some(k) =>
        assert s[..k + 1] == [s[0]] + s[1..][..k];
        Some(k + 1)
  }

  /** Reads a counter text back into its two numbers. */
  function ParseCounter(s: string): Option<(nat, nat)>
  {
    match IndexOf(s, '/')
    case None => None
    case Some(k) =>
      var left, right := s[..k], s[k + 1..];
      if left != [] && right != [] && AllDigits(left) && AllDigits(right) then
        Some((DigitsValue(left), DigitsValue(right)))
      else
        None
  }

  /** The counter text determines the two numbers it was made from. */
  lemma CounterRoundTrip(shown: nat, total: nat)
    ensures ParseCounter(CounterText(shown, total)) == Some((shown, total))
  {
    var a, b := DecimalString(shown), DecimalString(total);
    var s := CounterText(shown, total);
    assert '/' !in a;
    assert s[|a|] == '/';
    assert s[..|a|] == a && s[|a| + 1..] == b;
    var k := IndexOf(s, '/');
    assert k.Some?;
    assert k.value == |a|;
    DecimalStringValue(shown);
    DecimalStringValue(total);
  }

  datatype ProgressView = ProgressView(title: string, body: string, bar: ProgressBar)

  /**
   * What the progress notification shows for `(done, total, title)`.
   * Negative counts are taken as 0; with a positive total the bar and the
   * counter text show `done` clamped into `[0, total]`, otherwise the bar is
   * indeterminate and the text says `Working`. A missing or blank title
   * shows as `Saving`.
   */
  function ProgressViewFor(done: int, total: int, title: Option<string>): (v: ProgressView)
    ensures 0 <= v.bar.progress <= v.bar.max
    ensures v.bar.indeterminate <==> total <= 0
    ensures total <= 0 ==> v.bar == ProgressBar(0, 0, true) && v.body == IndeterminateBody
    ensures total > 0 ==> v.bar.max == total
    ensures total > 0 && 0 <= done <= total ==> v.bar.progress == done
    ensures total > 0 && done < 0 ==> v.bar.progress == 0
    ensures total > 0 && done > total ==> v.bar.progress == total
    ensures total > 0 ==> v.body == CounterText(v.bar.progress, v.bar.max)
    ensures total > 0 ==> ParseCounter(v.body) == Some((v.bar.progress, v.bar.max))
    ensures !IsBlank(v.title)
    ensures title.Some? && !IsBlank(title.value) ==> v.title == title.value
    ensures title.None? || IsBlank(title.value) ==> v.title == DefaultProgressTitle
  {
    var safeTotal := NonNegative(total);
    var safeDone := NonNegative(done);
    NotBlankAt(DefaultProgressTitle, 0);
    var shownTitle := NonBlankOr(title, DefaultProgressTitle);
    var shown := if safeDone > safeTotal then safeTotal else safeDone;
    if safeTotal > 0 then
      CounterRoundTrip(shown, safeTotal);
      ProgressView(shownTitle, CounterText(shown, safeTotal), ProgressBar(safeTotal, shown, false))
    else
      ProgressView(shownTitle, IndeterminateBody, ProgressBar(0, 0, true))
  }

  /** done=5, total=10 shows `5/10`; done=12, total=10 shows `10/10`; total=0 is indeterminate. */
  lemma ProgressExamples()
    ensures ProgressViewFor(5, 10, None).body == "5/10"
    ensures ProgressViewFor(12, 10, None).body == "10/10"
    ensures ProgressViewFor(3, 0, None).bar == ProgressBar(0, 0, true)
  {
    assert DecimalString(10) == "10";
  }

  /** The ongoing progress notification; only a START alerts, an UPDATE replaces it silently. */
  function ProgressNotification(v: ProgressView, alert: bool): (n: Notification)
    ensures n.channel == ChannelProgress && n.target == LaunchApp && n.actions == []
    ensures n.title == v.title && n.text == v.body && n.bar == Some(v.bar)
    ensures n.ongoing && !n.autoCancel
    ensures n.onlyAlertOnce <==> !alert
  {
    Notification(ChannelProgress, v.title, v.body, Some(v.bar), !alert, true, false, LaunchApp, [])
  }

  /**
   * The completion notification: it opens the results screen, and a missing
   * or blank title or body shows as `Completed` / `Tap to see results`.
   */
  function CompletedNotification(title: Option<string>, body: Option<string>): (n: Notification)
    ensures n.channel == ChannelComplete && n.target == OpenUri(ResultsLink)
    ensures n.autoCancel && !n.ongoing && n.bar.None?
    ensures !IsBlank(n.title) && !IsBlank(n.text)
    ensures title.Some? && !IsBlank(title.value) ==> n.title == title.value
    ensures title.None? || IsBlank(title.value) ==> n.title == DefaultCompletedTitle
    ensures body.Some? && !IsBlank(body.value) ==> n.text == body.value
    ensures body.None? || IsBlank(body.value) ==> n.text == DefaultCompletedBody
  {
    NotBlankAt(DefaultCompletedTitle, 0);
    NotBlankAt(DefaultCompletedBody, 0);
    Notification(ChannelComplete, NonBlankOr(title, DefaultCompletedTitle),
                 NonBlankOr(body, DefaultCompletedBody), None, false, false, true,
                 OpenUri(ResultsLink), [])
  }

  // ---------------------------------------------------------------------
  // The service as a state machine
  // ---------------------------------------------------------------------

  /**
   * The state the service's commands act on: the notifications shown, the
   * channels created, the post/cancel history, the id of the notification
   * the service is in the foreground with, and whether it is still running.
   */
  datatype ServiceState = ServiceState(
    posted: map<int, Notification>,
    channels: set<string>,
    history: seq<Event>,
    foreground: Option<int>,
    running: bool)

  /** `ensureChannel`: creates the channel only when it is missing. */
  function WithChannel(s: ServiceState, channelId: string): (r: ServiceState)
    ensures r.channels == s.channels + {channelId}
    ensures r.(channels := s.channels) == s
  {
    if channelId in s.channels then s else s.(channels := s.channels + {channelId})
  }

  function Posting(s: ServiceState, id: int, n: Notification): ServiceState
  {
    s.(posted := s.posted[id := n], history := s.history + [Posted(id, n)])
  }

  function Cancelling(s: ServiceState, id: int): ServiceState
  {
    s.(posted := s.posted - {id}, history := s.history + [Cancelled(id)])
  }

  /** `startForeground(id, n)`: shows `n` under `id` and puts the service in the foreground. */
  function InForeground(s: ServiceState, id: int, n: Notification): ServiceState
  {
    Posting(s, id, n).(foreground := Some(id))
  }

  /** `stopForeground(STOP_FOREGROUND_REMOVE)`: leaves the foreground, removing its notification. */
  function OutOfForeground(s: ServiceState): ServiceState
  {
    match s.foreground
    case None => s
    case Some(id) => Cancelling(s, id).(foreground := None)
  }

  /** `showProgress`. */
  function ShowingProgress(s: ServiceState, done: int, total: int, title: Option<string>, alert: bool): ServiceState
  {
    var v := ProgressViewFor(done, total, title);
    InForeground(WithChannel(s, ChannelProgress), ProgressId, ProgressNotification(v, alert))
  }

  /** `stopProgressForeground`. */
  function StoppingProgress(s: ServiceState): ServiceState
  {
    Cancelling(OutOfForeground(s), ProgressId)
  }

  /** `showCompleted`. */
  function ShowingCompleted(s: ServiceState, title: Option<string>, body: Option<string>): ServiceState
  {
    Posting(WithChannel(s, ChannelComplete), CompleteId, CompletedNotification(title, body))
  }

  /** The state after `onStartCommand(intent)`. */
  function Command(s: ServiceState, intent: Option<Intent>): (r: ServiceState)
    ensures r.running <==> s.running && ActionOf(intent) != Complete && ActionOf(intent) != Cancel
    ensures ActionOf(intent) == Start || ActionOf(intent) == Update ==> r.foreground == Some(ProgressId)
    ensures ActionOf(intent) == Complete || ActionOf(intent) == Cancel ==> r.foreground.None?
    ensures ActionOf(intent) != Ignored ==> ProgressId in r.posted <==> ActionOf(intent) !in {Complete, Cancel}
    ensures |r.history| >= |s.history| && r.history[..|s.history|] == s.history
  {
    match ActionOf(intent)
    case Start | Update =>
      var i := intent.value;
      ShowingProgress(s, GetIntExtra(i, ExtraDone, 0), GetIntExtra(i, ExtraTotal, 0),
                      GetStringExtra(i, ExtraTitle), ActionOf(intent) == Start)
    case Complete =>
      var i := intent.value;
      ShowingCompleted(StoppingProgress(s), GetStringExtra(i, ExtraTitle), GetStringExtra(i, ExtraBody))
        .(running := false)
    case Cancel =>
      StoppingProgress(s).(running := false)
    case Ignored =>
      s
  }

  /** The state after a sequence of commands. */
  function Run(s: ServiceState, intents: seq<Option<Intent>>): ServiceState
  {
    if intents == [] then s else Command(Run(s, intents[..|intents| - 1]), intents[|intents| - 1])
  }

  /** `ensureChannel` is idempotent. */
  lemma WithChannelIdempotent(s: ServiceState, channelId: string)
    ensures WithChannel(WithChannel(s, channelId), channelId) == WithChannel(s, channelId)
  {
  }

  /**
   * START and UPDATE both (re)write the single progress slot 3001 and put the
   * service in the foreground with it; nothing else is shown or removed.
   * Only START alerts. The bar never runs past its maximum.
   */
  lemma ProgressCommand(s: ServiceState, intent: Option<Intent>)
    requires ActionOf(intent) == Start || ActionOf(intent) == Update
    ensures var r := Command(s, intent);
      && r.posted.Keys == s.posted.Keys + {ProgressId}
      && (forall id :: id in s.posted && id != ProgressId ==> r.posted[id] == s.posted[id])
      && r.posted[ProgressId].onlyAlertOnce == (ActionOf(intent) == Update)
      && r.posted[ProgressId].ongoing
      && r.posted[ProgressId].bar.Some?
      && 0 <= r.posted[ProgressId].bar.value.progress <= r.posted[ProgressId].bar.value.max
      && r.foreground == Some(ProgressId)
      && r.channels == s.channels + {ChannelProgress}
      && r.running == s.running
      && r.history == s.history + [Posted(ProgressId, r.posted[ProgressId])]
  {
  }

  /**
   * COMPLETE removes the progress notification, then posts the completion
   * notification 3002, and stops the service.
   */
  lemma CompleteCommand(s: ServiceState, intent: Option<Intent>)
    requires ActionOf(intent) == Complete
    ensures var r := Command(s, intent);
      && ProgressId !in r.posted
      && CompleteId in r.posted
      && r.posted[CompleteId] == CompletedNotification(GetStringExtra(intent.value, ExtraTitle),
                                                       GetStringExtra(intent.value, ExtraBody))
      && r.foreground.None?
      && !r.running
      && r.channels == s.channels + {ChannelComplete}
      && |r.history| >= |s.history| + 2
      && r.history[..|s.history|] == s.history
      && r.history[|r.history| - 2..] == [Cancelled(ProgressId), Posted(CompleteId, r.posted[CompleteId])]
      && (forall j :: |s.history| <= j < |r.history| - 1 ==> r.history[j].Cancelled?)
      && (s.foreground.None? || s.foreground == Some(ProgressId) ==>
            && r.posted.Keys == s.posted.Keys - {ProgressId} + {CompleteId}
            && (forall id :: id in s.posted && id != ProgressId && id != CompleteId ==> r.posted[id] == s.posted[id]))
  {
  }

  /** CANCEL removes the progress notification, posts nothing, and stops the service. */
  lemma CancelCommand(s: ServiceState, intent: Option<Intent>)
    requires ActionOf(intent) == Cancel
    ensures var r := Command(s, intent);
      && ProgressId !in r.posted
      && r.foreground.None?
      && !r.running
      && r.channels == s.channels
      && r.history[..|s.history|] == s.history
      && (forall j :: |s.history| <= j < |r.history| ==> r.history[j].Cancelled?)
      && (s.foreground.None? || s.foreground == Some(ProgressId) ==> r.posted == s.posted - {ProgressId})
  {
  }

  /** A null intent, a null action or an unknown action changes nothing. */
  lemma IgnoredCommand(s: ServiceState, intent: Option<Intent>)
    requires ActionOf(intent) == Ignored
    ensures Command(s, intent) == s
  {
  }

  /**
   * The service is in the foreground only with the progress notification,
   * and only while that notification is shown.
   */
  ghost predicate ForegroundShown(s: ServiceState)
  {
    s.foreground.Some? ==> s.foreground.value == ProgressId && ProgressId in s.posted
  }

  /** In the history, every completion notification comes right after the progress one was removed. */
  ghost predicate CancelBeforeComplete(h: seq<Event>)
  {
    forall j :: 0 <= j < |h| && h[j].Posted? && h[j].id == CompleteId ==> 0 < j && h[j - 1] == Cancelled(ProgressId)
  }

  ghost predicate Inv(s: ServiceState)
  {
    ForegroundShown(s) && CancelBeforeComplete(s.history)
  }

  /** A service that starts over a manager with no history, out of the foreground, satisfies the invariant. */
  lemma FreshInv(s: ServiceState)
    requires s.history == [] && s.foreground.None?
    ensures Inv(s)
  {
  }

  /** Every command keeps the invariant. */
  lemma CommandKeepsInv(s: ServiceState, intent: Option<Intent>)
    requires Inv(s)
    ensures Inv(Command(s, intent))
  {
    var r := Command(s, intent);
    var a := ActionOf(intent);
    if a == Start || a == Update {
      ProgressCommand(s, intent);
    } else if a == Complete {
      CompleteCommand(s, intent);
      var n := |r.history|;
      forall j | 0 <= j < n && r.history[j].Posted? && r.history[j].id == CompleteId
        ensures 0 < j && r.history[j - 1] == Cancelled(ProgressId)
      {
        if j < |s.history| {
          assert r.history[j] == s.history[j];
          assert r.history[j - 1] == s.history[j - 1];
        } else {
          assert r.history[n - 2..][0] == Cancelled(ProgressId);
        }
      }
    } else if a == Cancel {
      CancelCommand(s, intent);
      forall j | 0 <= j < |r.history| && r.history[j].Posted? && r.history[j].id == CompleteId
        ensures 0 < j && r.history[j - 1] == Cancelled(ProgressId)
      {
        assert r.history[j] == s.history[j];
        assert r.history[j - 1] == s.history[j - 1];
      }
    }
  }

  /** Any sequence of commands keeps the invariant. */
  lemma {:induction false} RunKeepsInv(s: ServiceState, intents: seq<Option<Intent>>)
    requires Inv(s)
    ensures Inv(Run(s, intents))
  {
    if intents != [] {
      RunKeepsInv(s, intents[..|intents| - 1]);
      CommandKeepsInv(Run(s, intents[..|intents| - 1]), intents[|intents| - 1]);
    }
  }

  // ---------------------------------------------------------------------
  // The service object
  // ---------------------------------------------------------------------

  class SaveForegroundService {
    const nm: NotificationManager
    var foreground: Option<int>
    var running: bool

    /** The service as the OS creates it to deliver a command. */
    constructor (nm: NotificationManager)
      ensures this.nm == nm && foreground.None? && running
    {
      this.nm := nm;
      foreground := None;
      running := true;
    }

    ghost function State(): ServiceState
      reads this, nm
    {
      ServiceState(nm.posted, nm.channels, nm.history, foreground, running)
    }

    method EnsureChannel(channelId: string)
      modifies nm
      ensures State() == WithChannel(old(State()), channelId)
    {
      if channelId !in nm.channels {
        nm.CreateNotificationChannel(channelId);
      }
    }

    method StartForeground(id: int, n: Notification)
      modifies this, nm
      ensures State() == InForeground(old(State()), id, n)
    {
      nm.Notify(id, n);
      foreground := Some(id);
    }

    method StopForeground()
      modifies this, nm
      ensures State() == OutOfForeground(old(State()))
    {
      if foreground.Some? {
        nm.Cancel(foreground.value);
        foreground := None;
      }
    }

    method StopSelf()
      modifies this
      ensures State() == old(State()).(running := false)
    {
      running := false;
    }

    method ShowProgress(done: int, total: int, title: Option<string>, alert: bool)
      modifies this, nm
      ensures State() == ShowingProgress(old(State()), done, total, title, alert)
    {
      EnsureChannel(ChannelProgress);
      var view := ProgressViewFor(done, total, title);
      StartForeground(ProgressId, ProgressNotification(view, alert));
    }

    method StopProgressForeground()
      modifies this, nm
      ensures State() == StoppingProgress(old(State()))
    {
      StopForeground();
      nm.Cancel(ProgressId);
    }

    method ShowCompleted(title: Option<string>, body: Option<string>)
      modifies nm
      ensures State() == ShowingCompleted(old(State()), title, body)
    {
      EnsureChannel(ChannelComplete);
      nm.Notify(CompleteId, CompletedNotification(title, body));
    }

    /** Dispatches on the intent's action; every call answers `START_NOT_STICKY`. */
    method OnStartCommand(intent: Option<Intent>) returns (r: int)
      modifies this, nm
      ensures r == StartNotSticky
      ensures State() == Command(old(State()), intent)
    {
      r := StartNotSticky;
      var action := ActionOf(intent);
      match action
      case Start =>
        var i := intent.value;
        ShowProgress(GetIntExtra(i, ExtraDone, 0), GetIntExtra(i, ExtraTotal, 0), GetStringExtra(i, ExtraTitle), true);
      case Update =>
        var i := intent.value;
        ShowProgress(GetIntExtra(i, ExtraDone, 0), GetIntExtra(i, ExtraTotal, 0), GetStringExtra(i, ExtraTitle), false);
      case Complete =>
        var i := intent.value;
        var title := GetStringExtra(i, ExtraTitle);
        var body := GetStringExtra(i, ExtraBody);
        StopProgressForeground();
        ShowCompleted(title, body);
        StopSelf();
      case Cancel =>
        StopProgressForeground();
        StopSelf();
      case Ignored =>
    }
  }
}
