# Image converter: push-message handler and save-progress service

This project models two Android services of the image converter app.

**`IconMessagingService`** receives Firebase push messages. Each message does two things:
- It switches the app's launcher icon. The message's `icon` value picks one of four icon keys: `default`, `jan`, `feb` or `mar`. The value is matched case-insensitively and with surrounding whitespace ignored. A missing, blank, `auto` or unknown value falls back to the current month's key. The service then enables that key's activity alias and disables the other three aliases.
- It may show an "update available" notification (id 2001). This happens when the message's `update` value is `1`, `true` or `yes`.

**`SaveForegroundService`** shows the progress of a multi-image save as an ongoing foreground notification (id 3001). It is driven by four intent actions:
- START and UPDATE show or refresh the progress notification;
- COMPLETE removes it, posts a "completed" notification (id 3002) that opens the results screen, and stops the service;
- CANCEL removes it and stops the service.

The model has five modules:
- **`Options`**: the `Option` datatype and map lookup.
- **`Text`**: Kotlin's `trim()`, `lowercase()`, `isBlank()` and the `takeIf { it.isNotBlank() } ?: default` idiom, plus the decimal rendering of a number.
- **`Notifications`**: the notification manager, as a class. It holds the notifications shown (by id), the channels created, and the history of post and cancel events.
- **`IconMessaging`**: icon-key resolution, the alias switch (a package-manager class whose setting map is updated in place, one component at a time), and the update prompt.
- **`SaveProgress`**: the progress view, the service's state machine as functions on a `ServiceState` value, and the `SaveForegroundService` class. Each method of the class is proved to move its state exactly as its specification function does. The proved properties (a single progress slot; COMPLETE cancels before it posts; the foreground invariant) are lemmas about those functions.

Inputs the services get from the platform are parameters:
- The current month (`Calendar.MONTH + 1`) is a parameter `month` in 1..12.
- The app's package name is a parameter.
- A push payload is a `map<string, string>`.
- An intent is an optional action plus a map of typed extras.

## Model

| member | source | states |
|---|---|---|
| Options.Get | android/app/src/main/kotlin/com/sholo/imageconverter/IconMessagingService.kt:22 | `data[key]` is null exactly when the key is absent, and otherwise gives the stored value |
| Text.IsWhitespace | android/app/src/main/kotlin/com/sholo/imageconverter/IconMessagingService.kt:80 | the JVM whitespace set of `Char.isWhitespace()`: space, tab, line breaks, no-break and ideographic spaces are whitespace; no ASCII letter or digit is |
| Text.TrimStartShape | android/app/src/main/kotlin/com/sholo/imageconverter/IconMessagingService.kt:80 | the start of `trim()` drops only a whitespace prefix and stops at a non-whitespace character |
| Text.TrimEndShape | android/app/src/main/kotlin/com/sholo/imageconverter/IconMessagingService.kt:80 | the end of `trim()` drops only a whitespace suffix and stops at a non-whitespace character |
| Text.TrimShape | android/app/src/main/kotlin/com/sholo/imageconverter/IconMessagingService.kt:80-81 | a trimmed value has no whitespace at either end, and it is empty exactly when the value was blank |
| Text.LowerChar | android/app/src/main/kotlin/com/sholo/imageconverter/IconMessagingService.kt:80 | `lowercase()` maps each ASCII capital `A`..`Z` to the matching `a`..`z` and keeps every other character |
| Text.LowerKeepsWhitespace | android/app/src/main/kotlin/com/sholo/imageconverter/IconMessagingService.kt:80 | lowercasing neither creates nor removes whitespace |
| Text.TrimIgnoresPadding | android/app/src/main/kotlin/com/sholo/imageconverter/IconMessagingService.kt:80 | extra whitespace around a value does not change its trimmed form |
| Text.LowerTrimCommute | android/app/src/main/kotlin/com/sholo/imageconverter/IconMessagingService.kt:80 | trimming then lowercasing gives the same as lowercasing then trimming |
| Text.TrimLowerInsensitive | android/app/src/main/kotlin/com/sholo/imageconverter/IconMessagingService.kt:31 | the normal form `trim().lowercase()` ignores whitespace padding and letter case |
| Text.LowerFixed | android/app/src/main/kotlin/com/sholo/imageconverter/IconMessagingService.kt:80 | a value with no upper-case letter is its own lowercase |
| Text.TrimFixed | android/app/src/main/kotlin/com/sholo/imageconverter/IconMessagingService.kt:80 | a value with non-whitespace ends is its own trim |
| Text.NonBlankOr | android/app/src/main/kotlin/com/sholo/imageconverter/IconMessagingService.kt:34-41 | `takeIf { it.isNotBlank() } ?: default` gives the value when present and not blank, else the default; the result is never blank if the default is not |
| Text.DecimalString | android/app/src/main/kotlin/com/example/image_converter/SaveForegroundService.kt:66 | the decimal rendering of a count is a non-empty digit string with no leading zero |
| Text.DecimalStringValue | android/app/src/main/kotlin/com/example/image_converter/SaveForegroundService.kt:66 | reading the decimal rendering back gives the number |
| IconMessaging.MonthKey | android/app/src/main/kotlin/com/sholo/imageconverter/IconMessagingService.kt:93-101 | months 1 to 3 have the keys `jan`, `feb`, `mar`; every other month has `default` |
| IconMessaging.MatchIconName | android/app/src/main/kotlin/com/sholo/imageconverter/IconMessagingService.kt:81-90 | a normalised value always selects one of the four icon keys |
| IconMessaging.ResolveIconKey | android/app/src/main/kotlin/com/sholo/imageconverter/IconMessagingService.kt:77-91 | any payload value, or none, selects one of the four icon keys |
| IconMessaging.MatchUnknownName | android/app/src/main/kotlin/com/sholo/imageconverter/IconMessagingService.kt:89 | a value that is not a recognised name (so also empty and `auto`) selects the month's key |
| IconMessaging.MatchKeyName | android/app/src/main/kotlin/com/sholo/imageconverter/IconMessagingService.kt:84-88 | each icon key is recognised and selects itself |
| IconMessaging.MatchFullAndShortNames | android/app/src/main/kotlin/com/sholo/imageconverter/IconMessagingService.kt:85-87 | the full and short month names select the same key, in any month |
| IconMessaging.ResolveFallback | android/app/src/main/kotlin/com/sholo/imageconverter/IconMessagingService.kt:77-91 | an absent, blank or unrecognised value selects the current month's key |
| IconMessaging.KeyIsNormal | android/app/src/main/kotlin/com/sholo/imageconverter/IconMessagingService.kt:80 | the four keys are already trimmed and lowercase |
| IconMessaging.ResolveIdempotent | android/app/src/main/kotlin/com/sholo/imageconverter/IconMessagingService.kt:77-91 | sending a resolved key back as the payload value selects the same key |
| IconMessaging.ResolveIgnoresCaseAndPadding | android/app/src/main/kotlin/com/sholo/imageconverter/IconMessagingService.kt:80 | letter case and whitespace padding of the payload value never change the selected key |
| IconMessaging.ResolvePaddedFullName | android/app/src/main/kotlin/com/sholo/imageconverter/IconMessagingService.kt:80-85 | `" January "` selects `jan` |
| IconMessaging.ResolveUpperShortName | android/app/src/main/kotlin/com/sholo/imageconverter/IconMessagingService.kt:80-85 | `"JAN"` selects `jan` |
| IconMessaging.LookupAlias | android/app/src/main/kotlin/com/sholo/imageconverter/IconMessagingService.kt:111 | `aliases[key]` finds an entry of the table for that key, or reports that none exists |
| IconMessaging.DesiredAlias | android/app/src/main/kotlin/com/sholo/imageconverter/IconMessagingService.kt:105-111 | the alias to enable is always one of the four aliases: the key's own, or the default alias for a key without one |
| IconMessaging.ApplyAliasesAt | android/app/src/main/kotlin/com/sholo/imageconverter/IconMessagingService.kt:114-125 | after the loop each visited component is enabled exactly when it is the desired alias; unvisited components keep their setting |
| IconMessaging.ExactlyOneAliasEnabled | android/app/src/main/kotlin/com/sholo/imageconverter/IconMessagingService.kt:103-125 | after the switch exactly one launcher alias is enabled, the desired one, whatever the previous settings; other components are untouched |
| IconMessaging.PackageManager.SetComponentEnabledSetting | android/app/src/main/kotlin/com/sholo/imageconverter/IconMessagingService.kt:120-124 | sets one component's enabled state and changes no other |
| IconMessaging.SetLauncherIcon | android/app/src/main/kotlin/com/sholo/imageconverter/IconMessagingService.kt:103-128 | the loop over the alias table leaves the settings the switch specifies |
| IconMessaging.UpdatePromptFor | android/app/src/main/kotlin/com/sholo/imageconverter/IconMessagingService.kt:30-41 | a prompt is shown exactly when `update`, trimmed and lowercased, is `1`, `true` or `yes`; title, body and link are the payload's when not blank, else the defaults (the store page for the link), and never blank |
| IconMessaging.DefaultsNotBlank | android/app/src/main/kotlin/com/sholo/imageconverter/IconMessagingService.kt:34-41 | the default title, body and store link are not blank |
| IconMessaging.UpdateFlagPaddedUpper | android/app/src/main/kotlin/com/sholo/imageconverter/IconMessagingService.kt:30-32 | `" TRUE "` asks for the prompt |
| IconMessaging.UpdateFlagNo | android/app/src/main/kotlin/com/sholo/imageconverter/IconMessagingService.kt:32 | `"no"` does not ask for the prompt |
| IconMessaging.UpdateNotification | android/app/src/main/kotlin/com/sholo/imageconverter/IconMessagingService.kt:63-72 | the update notification is on `updates`, shows the prompt's title and body, opens its link on tap and from the single `Update now` action, and auto-cancels |
| IconMessaging.MaybeShowUpdateNotification | android/app/src/main/kotlin/com/sholo/imageconverter/IconMessagingService.kt:29-75 | with no prompt nothing is posted; otherwise the `updates` channel exists and notification 2001 opens the link |
| IconMessaging.OnMessageReceived | android/app/src/main/kotlin/com/sholo/imageconverter/IconMessagingService.kt:19-27 | a message switches the launcher to the icon its `icon` value selects, then maybe shows the update prompt |
| Notifications.NotificationManager.Notify | android/app/src/main/kotlin/com/sholo/imageconverter/IconMessagingService.kt:74 | `notify(id, n)` shows `n` under `id`, replacing what was there, and records the post |
| Notifications.NotificationManager.Cancel | android/app/src/main/kotlin/com/example/image_converter/SaveForegroundService.kt:108 | `cancel(id)` removes the notification with that id, if any, and records the cancel |
| Notifications.NotificationManager.CreateNotificationChannel | android/app/src/main/kotlin/com/sholo/imageconverter/IconMessagingService.kt:59 | creating a channel makes it exist; creating an existing one changes nothing |
| SaveProgress.GetIntExtra | android/app/src/main/kotlin/com/example/image_converter/SaveForegroundService.kt:21-22 | `getIntExtra(name, default)` gives the `Int` extra of that name, or the default when it is absent or not an `Int` |
| SaveProgress.GetStringExtra | android/app/src/main/kotlin/com/example/image_converter/SaveForegroundService.kt:27-28 | `getStringExtra(name)` is non-null exactly when a `String` extra of that name is present, and then gives it |
| SaveProgress.ActionOf | android/app/src/main/kotlin/com/example/image_converter/SaveForegroundService.kt:19-37 | each of the four action strings selects its own branch, and a null intent, a null action or any other action is ignored |
| SaveProgress.CounterRoundTrip | android/app/src/main/kotlin/com/example/image_converter/SaveForegroundService.kt:66 | the counter text `"<done>/<total>"` parses back into the two numbers |
| SaveProgress.ProgressViewFor | android/app/src/main/kotlin/com/example/image_converter/SaveForegroundService.kt:62-96 | covers the bar, the exact counter text and the title (see the list after this table) |
| SaveProgress.ProgressExamples | android/app/src/main/kotlin/com/example/image_converter/SaveForegroundService.kt:66 | done 5 of 10 shows `5/10`; done 12 of 10 shows `10/10`; total 0 is indeterminate |
| SaveProgress.ProgressNotification | android/app/src/main/kotlin/com/example/image_converter/SaveForegroundService.kt:77-96 | the progress notification is on `save_progress_v2`, shows the view's title, text and bar, launches the app, is ongoing and not auto-cancelled, and alerts only when asked to |
| SaveProgress.CompletedNotification | android/app/src/main/kotlin/com/example/image_converter/SaveForegroundService.kt:111-136 | the completion notification is on `save_complete`, opens the results link, auto-cancels and is not ongoing; title and body are the extras when not blank, else `Completed` / `Tap to see results` |
| SaveProgress.WithChannel | android/app/src/main/kotlin/com/example/image_converter/SaveForegroundService.kt:42-56 | `ensureChannel` makes the channel exist and changes nothing else |
| SaveProgress.WithChannelIdempotent | android/app/src/main/kotlin/com/example/image_converter/SaveForegroundService.kt:45-46 | ensuring a channel twice is the same as once |
| SaveProgress.Command | android/app/src/main/kotlin/com/example/image_converter/SaveForegroundService.kt:18-40 | COMPLETE and CANCEL stop the service and leave the foreground; START and UPDATE put it in the foreground with 3001 showing; COMPLETE and CANCEL leave 3001 absent; the history only grows |
| SaveProgress.ProgressCommand | android/app/src/main/kotlin/com/example/image_converter/SaveForegroundService.kt:20-25 | START and UPDATE change only slot 3001, which holds an ongoing notification with an in-range bar; only START alerts; the service is in the foreground with 3001 |
| SaveProgress.CompleteCommand | android/app/src/main/kotlin/com/example/image_converter/SaveForegroundService.kt:26-32 | COMPLETE leaves 3001 absent and 3002 showing the completion notification; when the service was in the foreground only with 3001 (or not at all), every other notification keeps its content; the service is out of the foreground and stopped; the history ends with the cancel of 3001 right before the post of 3002 |
| SaveProgress.CancelCommand | android/app/src/main/kotlin/com/example/image_converter/SaveForegroundService.kt:33-36 | CANCEL removes 3001, posts nothing and stops the service |
| SaveProgress.IgnoredCommand | android/app/src/main/kotlin/com/example/image_converter/SaveForegroundService.kt:19-37 | an ignored intent changes nothing |
| SaveProgress.FreshInv | android/app/src/main/kotlin/com/example/image_converter/SaveForegroundService.kt:15-18 | a service that starts out of the foreground over an empty history satisfies the invariant |
| SaveProgress.CommandKeepsInv | android/app/src/main/kotlin/com/example/image_converter/SaveForegroundService.kt:18-40 | every command keeps the invariant (see the list after this table) |
| SaveProgress.RunKeepsInv | android/app/src/main/kotlin/com/example/image_converter/SaveForegroundService.kt:18-40 | any sequence of commands keeps that invariant |
| SaveProgress.SaveForegroundService.EnsureChannel | android/app/src/main/kotlin/com/example/image_converter/SaveForegroundService.kt:42-56 | creates the channel only when missing, as `WithChannel` specifies |
| SaveProgress.SaveForegroundService.StartForeground | android/app/src/main/kotlin/com/example/image_converter/SaveForegroundService.kt:98 | posts the notification and puts the service in the foreground with its id |
| SaveProgress.SaveForegroundService.StopForeground | android/app/src/main/kotlin/com/example/image_converter/SaveForegroundService.kt:101-107 | leaves the foreground, removing its notification; no-op when not in the foreground |
| SaveProgress.SaveForegroundService.StopSelf | android/app/src/main/kotlin/com/example/image_converter/SaveForegroundService.kt:31 | marks the service stopped and changes nothing else |
| SaveProgress.SaveForegroundService.ShowProgress | android/app/src/main/kotlin/com/example/image_converter/SaveForegroundService.kt:58-99 | ensures the progress channel and starts the foreground with the progress notification for the clamped counts |
| SaveProgress.SaveForegroundService.StopProgressForeground | android/app/src/main/kotlin/com/example/image_converter/SaveForegroundService.kt:101-109 | leaves the foreground, then cancels 3001 |
| SaveProgress.SaveForegroundService.ShowCompleted | android/app/src/main/kotlin/com/example/image_converter/SaveForegroundService.kt:111-136 | ensures the completion channel and posts 3002 |
| SaveProgress.SaveForegroundService.OnStartCommand | android/app/src/main/kotlin/com/example/image_converter/SaveForegroundService.kt:18-40 | every call answers `START_NOT_STICKY` (2) and moves the state exactly as `Command` specifies |

What `SaveProgress.ProgressViewFor` states:
- The bar never runs past its maximum.
- It is indeterminate exactly when the total is not positive, and then the text says `Working`.
- Otherwise the bar shows `done` clamped into `[0, total]`, and the text is exactly `"<shown>/<total>"`, written in decimal without leading zeros, which parses back to the bar's two numbers.
- A missing or blank title shows as `Saving`.

The invariant kept by `SaveProgress.CommandKeepsInv` has two parts:
- The service is in the foreground only with notification 3001, and only while 3001 is shown.
- In the history, every post of 3002 comes right after a cancel of 3001.

## Left out

- The calendar is not read. The month is a parameter in 1..12, standing for `Calendar.MONTH + 1`.
- `Text.LowerChar`: only ASCII `A`-`Z` are lowercased, where Kotlin's `lowercase()` maps the whole Unicode range. The values compared after lowercasing (icon names and update flags) are ASCII. A non-ASCII character whose lowercase is ASCII (the Kelvin sign, which lowercases to `k`) is not covered.
- The `try { … } catch (_: Throwable) {}` around the alias switch is not modelled. The package manager is modelled as never throwing, so a switch that stops halfway is not covered.
- These are left out because they change no observable decision:
  - Android SDK version branches. The model follows the branch for the newest SDK: channels exist, and `STOP_FOREGROUND_REMOVE` is used.
  - Notification styling: icons, large icon bitmaps, priority, importance, and the progress channel's sound, vibration, lights and badge settings.
  - The foreground-service behaviour flag.
  - `PendingIntent` flags and request codes.
  - Intent flags.
- The progress notification's tap target is modelled as "launch the app". Whether it goes through `getLaunchIntentForPackage` or falls back to `MainActivity` is not distinguished.
- `super.onMessageReceived` (the Flutter plugin's own forwarding of the message) is outside the app's code and is not part of this model.
- `onBind` always returns null and is not modelled.
- Kotlin's 32-bit `Int` is not modelled for `done` and `total`. The service only compares and renders them, so no wrap-around can occur.
- `ensureChannel` / `createNotificationChannel` keep only the set of channel ids. Channel names and importance are not kept.
- The OS recreating the service, and concurrent delivery of commands, are not modelled. Commands are applied one at a time to one service instance.
- The Flutter side is not part of this model: `MainActivity`, the method channel that sends the save intents, and the Dart UI.
