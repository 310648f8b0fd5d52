# Emergency alert: watch trigger, phone dispatcher, location follow-up

A Dafny model of the alert-trigger protocol of an Android Wear emergency-alert
app. It covers four parts:

- the watch's trigger screen (`AlertTriggerActivity`);
- the phone's alert service (`WearAlertService`);
- the phone's one-shot fine-location service (`FineLocationSMSIntentService`);
- the preference record synced from phone to watch (`PreferencesData`,
  `WearDataListenerService`).

The trigger screen confirms by button or by a 3500 ms countdown. It then
sends the alert message to every connected node. The phone service reacts to
that message. It posts a notification, sends the configured SMS, sends the
last known location and registers for a fresh fix. It sends that fix as a
follow-up SMS.

Each Android class whose fields change is a Dafny `class`, and its methods
are the Android callbacks. The platform's answers (best provider, last known
fix, connected nodes, per-node send status, the data events) are method
parameters. The two sides are encoded differently:

- **Phone services.** The fields of `WearAlertService` and
  `FineLocationSMSIntentService` are their Java fields, plus the state the
  platform keeps for them (wake lock held, registered location request,
  shown notifications, handler queue). Every call they make into the platform
  is appended to a ghost log `calls` (SMS sends, wake-lock acquire/release,
  location requests, notification cancel/post, listener and client calls).
  `Common.SmsSent` projects that log onto the SMS messages, so ordering and
  counts can be stated.
- **Watch components.** `AlertTriggerActivity` keeps no call log. Its fields
  are the state its calls leave behind: view inflated, listener attached,
  countdown running and its total time, client connected, activity finished
  and the confirmation screen shown. Only the alert messages it sends are
  logged, in the ghost sequence `sent`. `WearDataListenerService` has the
  preferences store as its one field; its editor writes are modelled as the
  new value of that store, not logged. SMS bodies are values,
not formatted strings:

- `Text(message)` is the configured message;
- `LastLocation(fix)` is the "last location" template applied to a fix;
- `CurrentLocation(fix)` is the "current location" template applied to a fix.

Points where the code behaves differently from how the system is usually
described. The model follows the code in each case:

- **No debounce.** `onMessageReceived` posts a trigger to the handler at once
  for every message on `/start/sendEmergencyAlert`. There is no delay and
  nothing is cancelled. N matching messages give N full alerts
  (`WearAlert.ScenarioNoDebounce`).
- **Wake lock with no provider.** `FineLocationSMSIntentService` acquires the
  wake lock before it looks up a provider. With no provider, the lock stays
  held with no request pending until its 10-minute timeout. Each further start
  acquires it again (`FineLocation.ScenarioNoProvider`).
- **Wake-lock timeout.** The timeout releases only the lock. A pending single
  update stays registered.
- **Resume restarts the countdown.** `onResume` restarts the countdown and
  reattaches the listener in either mode, once the view exists and the client
  is connected.
- **A trigger queued before `onDestroy` still runs.** The alert handler runs
  on the main looper, and `onDestroy` does not clear its queue. A trigger
  posted before `onDestroy` still sends the SMS. With location on and a
  provider, it registers updates again after `onDestroy` removed them, and
  the fix that follows is still sent (`WearAlert.ScenarioTriggerAfterDestroy`).
- **Location requests stay live.** The phone service registers continuous
  updates (5 min, 10 m). They stay registered until the first fix, a disabled
  provider or `onDestroy`. `onProviderDisabled` removes the updates but keeps
  the pending number.

## Model

| member | source | states |
|---|---|---|
| `PreferencesData.GetUri` | data/src/main/java/com/danvelazco/android/wear/emergencyalert/data/PreferencesData.java:27-32 | the record's URI has the wear scheme, the node id as authority and `/preferencesdata` as path |
| `PreferencesData.GetUseButtonConfirmation` | data/src/main/java/com/danvelazco/android/wear/emergencyalert/data/PreferencesData.java:35-37 | the flag read from a data map is the boolean stored under `use_button_confirmation`; a missing field or a field of another type reads as false |
| `PreferencesData.ToDataMap` | data/src/main/java/com/danvelazco/android/wear/emergencyalert/data/PreferencesData.java:39-43 | the request is at `/preferencesdata`, holds exactly one field (`use_button_confirmation`) and reading the flag back gives the value packed (round trip) |
| `WearDataListener.NoWriteLeavesPreferences` | wear/src/main/java/com/danvelazco/android/wear/emergencyalert/service/WearDataListenerService.java:44-57 | a batch with no changed event at `/preferencesdata` (other paths, deletions) leaves the preferences unchanged |
| `WearDataListener.LastMatchingEventWins` | wear/src/main/java/com/danvelazco/android/wear/emergencyalert/service/WearDataListenerService.java:44-57 | the stored flag equals the value of the last changed event at `/preferencesdata`, and the store is otherwise as before (last write wins) |
| `WearDataListener.OnlyFlagWritten` | wear/src/main/java/com/danvelazco/android/wear/emergencyalert/service/WearDataListenerService.java:50-54 | handling any batch changes no key except `_pref_use_confirmation_btn` |
| `WearDataListener.WearDataListenerService.constructor` | wear/src/main/java/com/danvelazco/android/wear/emergencyalert/service/WearDataListenerService.java:31-35 | the listener starts with the watch's stored preferences |
| `WearDataListener.WearDataListenerService.OnDataChanged` | wear/src/main/java/com/danvelazco/android/wear/emergencyalert/service/WearDataListenerService.java:42-58 | the loop over the event buffer leaves the preferences equal to applying the events in buffer order |
| `WearDataListener.PublishedFlagReachesTrigger` | wear/src/main/java/com/danvelazco/android/wear/emergencyalert/service/WearDataListenerService.java:46-54 | a changed event carrying `ToDataMap(b)` at `GetUri(node)` makes the trigger screen's mode read back exactly `b`, adds only the flag key and keeps every other key |
| `AlertTrigger.ReadConfirmationMode` | wear/src/main/java/com/danvelazco/android/wear/emergencyalert/AlertTriggerActivity.java:73 | button mode is off when the preference was never written; a stored boolean is used as is |
| `AlertTrigger.ResultScreen` | wear/src/main/java/com/danvelazco/android/wear/emergencyalert/AlertTriggerActivity.java:277-283 | the terminal screen is the success animation with "Success" exactly when the fan-out succeeded, else the failure animation with "Failure" |
| `AlertTrigger.GetNodes` | wear/src/main/java/com/danvelazco/android/wear/emergencyalert/AlertTriggerActivity.java:224-231 | the loop collects exactly the distinct ids of the connected nodes |
| `AlertTrigger.DoInBackground` | wear/src/main/java/com/danvelazco/android/wear/emergencyalert/AlertTriggerActivity.java:257-271 | each distinct node is messaged exactly once; the result is true iff at least one send succeeded, so no nodes means false; failures are not retried |
| `AlertTrigger.AlertTriggerActivity.constructor` | wear/src/main/java/com/danvelazco/android/wear/emergencyalert/AlertTriggerActivity.java:68-105 | onCreate reads the mode (default automatic); no view, listener, countdown or connection yet, nothing sent |
| `AlertTrigger.AlertTriggerActivity.OnLayoutInflated` | wear/src/main/java/com/danvelazco/android/wear/emergencyalert/AlertTriggerActivity.java:76-96 | the listener is attached; automatic mode sets a 3500 ms countdown and starts it; button mode starts no countdown |
| `AlertTrigger.AlertTriggerActivity.OnConnected` | wear/src/main/java/com/danvelazco/android/wear/emergencyalert/AlertTriggerActivity.java:151-153 | the client is connected; the callback itself does nothing |
| `AlertTrigger.AlertTriggerActivity.OnResume` | wear/src/main/java/com/danvelazco/android/wear/emergencyalert/AlertTriggerActivity.java:124-131 | with the view present and the client connected, the countdown is restarted and the listener reattached, in either mode; otherwise nothing changes |
| `AlertTrigger.AlertTriggerActivity.OnStop` | wear/src/main/java/com/danvelazco/android/wear/emergencyalert/AlertTriggerActivity.java:137-145 | the client ends disconnected and the listener detached once the view exists |
| `AlertTrigger.AlertTriggerActivity.OnConnectionLost` | wear/src/main/java/com/danvelazco/android/wear/emergencyalert/AlertTriggerActivity.java:158-185 | suspension or failure of the connection detaches the listener and finishes with the failure animation and the "error occurred" label, sending nothing |
| `AlertTrigger.AlertTriggerActivity.OnPostExecute` | wear/src/main/java/com/danvelazco/android/wear/emergencyalert/AlertTriggerActivity.java:277-284 | the activity finishes with the result screen for the task's result |
| `AlertTrigger.AlertTriggerActivity.SendAlert` | wear/src/main/java/com/danvelazco/android/wear/emergencyalert/AlertTriggerActivity.java:213-217 | when not connected nothing is sent and nothing changes; when connected every distinct node is messaged once and the screen is Success iff some send succeeded |
| `AlertTrigger.AlertTriggerActivity.OnTimerFinished` | wear/src/main/java/com/danvelazco/android/wear/emergencyalert/AlertTriggerActivity.java:191-193 | the countdown's expiry stops the countdown and sends the alert whatever the mode; the listener, the mode and the countdown's total time are kept |
| `AlertTrigger.AlertTriggerActivity.OnTimerSelected` | wear/src/main/java/com/danvelazco/android/wear/emergencyalert/AlertTriggerActivity.java:199-211 | a tap sends in button mode; in automatic mode it detaches the listener and finishes with "alert cancelled", sending nothing; in both modes the countdown's state and total time are kept |
| `FineLocation.FineLocationSMSIntentService.constructor` | mobile/src/main/java/com/danvelazco/android/wear/emergencyalert/service/FineLocationSMSIntentService.java:64-71 | a new service has no pending number, no request and a wake lock that is not held |
| `FineLocation.FineLocationSMSIntentService.OnStartCommand` | mobile/src/main/java/com/danvelazco/android/wear/emergencyalert/service/FineLocationSMSIntentService.java:93-125 | an empty number changes nothing; with nothing pending the lock is acquired for 600000 ms before the provider lookup, and only a provider gives a pending number and exactly one single-update request; with a number pending it is replaced in place with no new lock or request; the invariant "pending iff a request is outstanding" is kept |
| `FineLocation.FineLocationSMSIntentService.OnLocationChanged` | mobile/src/main/java/com/danvelazco/android/wear/emergencyalert/service/FineLocationSMSIntentService.java:131-161 | a null location changes nothing; a fix removes updates; with a number pending exactly one SMS goes to the latest pending number, then the number is cleared, the lock released if held and the service stopped, so a second fix sends nothing |
| `FineLocation.FineLocationSMSIntentService.OnWakeLockTimeout` | mobile/src/main/java/com/danvelazco/android/wear/emergencyalert/service/FineLocationSMSIntentService.java:101 | the timed acquire ends with the lock not held; nothing else changes |
| `FineLocation.FineLocationSMSIntentService.OnDestroy` | mobile/src/main/java/com/danvelazco/android/wear/emergencyalert/service/FineLocationSMSIntentService.java:77-87 | updates are always removed and the wake lock ends not held, released only if it was held |
| `WearAlert.ReadAlertPreferences` | mobile/src/main/java/com/danvelazco/android/wear/emergencyalert/service/WearAlertService.java:172-178 | absent preferences give no number, the default emergency message, location on and notification on; stored values are used as is |
| `WearAlert.AlertSms` | mobile/src/main/java/com/danvelazco/android/wear/emergencyalert/service/WearAlertService.java:180-197 | one alert sends the configured message to the configured number first; a second SMS to the same number only if location is on and a last known fix exists; with location off exactly one SMS |
| `WearAlert.LocationSms` | mobile/src/main/java/com/danvelazco/android/wear/emergencyalert/service/WearAlertService.java:187-208 | the location branch sends the last known fix when present and no other SMS |
| `WearAlert.AlertOrder` | mobile/src/main/java/com/danvelazco/android/wear/emergencyalert/service/WearAlertService.java:181-208 | with the notification on, the cancel-and-post comes before any SMS; the notification is posted at most once; the update request, if made, is the last call and happens only with location on and a provider |
| `WearAlert.WearAlertService.constructor` | mobile/src/main/java/com/danvelazco/android/wear/emergencyalert/service/WearAlertService.java:67-84 | the service starts connecting with nothing queued, pending, requested or shown |
| `WearAlert.WearAlertService.OnConnected` | mobile/src/main/java/com/danvelazco/android/wear/emergencyalert/service/WearAlertService.java:143-145 | connecting registers the service as message listener |
| `WearAlert.WearAlertService.OnMessageReceived` | mobile/src/main/java/com/danvelazco/android/wear/emergencyalert/service/WearAlertService.java:158-162 | only the path `/start/sendEmergencyAlert` posts a trigger, one per message at once (no debounce); any other path changes nothing |
| `WearAlert.WearAlertService.HandleMessage` | mobile/src/main/java/com/danvelazco/android/wear/emergencyalert/service/WearAlertService.java:247-255 | the handler takes the oldest posted message and runs one full triggerAlert for it, also after onDestroy, since onDestroy does not clear the queue |
| `WearAlert.WearAlertService.TriggerAlert` | mobile/src/main/java/com/danvelazco/android/wear/emergencyalert/service/WearAlertService.java:171-211 | an empty number or message changes nothing; otherwise the calls are the notification (if on), the primary SMS, then the location branch (if on); the pending number becomes the SMS number only when location is on and a provider exists; this holds also for a service already destroyed |
| `WearAlert.WearAlertService.SendLocation` | mobile/src/main/java/com/danvelazco/android/wear/emergencyalert/service/WearAlertService.java:187-209 | the last known network fix is queried and sent if present; the best fine provider is looked up; only a provider sets the pending number and registers 5 min / 10 m updates, even after onDestroy |
| `WearAlert.WearAlertService.RaiseAlert` | mobile/src/main/java/com/danvelazco/android/wear/emergencyalert/service/WearAlertService.java:181-208 | for configured preferences, the calls are exactly the notification (if on), the primary SMS and the location branch (if on), and the shown notification, pending number and request follow them |
| `WearAlert.WearAlertService.ShowNotification` | mobile/src/main/java/com/danvelazco/android/wear/emergencyalert/service/WearAlertService.java:218-239 | the alert notification 0x6001 is cancelled, then posted again, so it is shown once however often this runs |
| `WearAlert.WearAlertService.RemoveNotification` | mobile/src/main/java/com/danvelazco/android/wear/emergencyalert/service/WearAlertService.java:241-245 | the alert notification 0x6001 is cancelled |
| `WearAlert.WearAlertService.OnLocationChanged` | mobile/src/main/java/com/danvelazco/android/wear/emergencyalert/service/WearAlertService.java:109-123 | updates are always removed; with a fix and a pending number exactly one SMS goes to that number and the number is cleared; otherwise no SMS and the number stays |
| `WearAlert.WearAlertService.OnProviderDisabled` | mobile/src/main/java/com/danvelazco/android/wear/emergencyalert/service/WearAlertService.java:136-140 | updates are removed; the pending number stays |
| `WearAlert.WearAlertService.OnDestroy` | mobile/src/main/java/com/danvelazco/android/wear/emergencyalert/service/WearAlertService.java:87-96 | updates are removed; the listener is unregistered and the client disconnected only if connected |

## Left out

- FineLocation.FineLocationSMSIntentService.OnStartCommand: the wake lock is a held flag. Android's reference counting of wake locks is not modelled, so repeated acquires show up only as repeated `AcquireWakeLock` calls in the log.
- FineLocation.FineLocationSMSIntentService.OnLocationChanged: its single release ends with `wakeLockHeld` false. After two acquires (a start with no provider, then a start with one), Android's reference-counted lock would still be held after this one release, until a 10-minute timeout frees it. The model does not show that.
- FineLocation.FineLocationSMSIntentService.OnDestroy: as for `OnLocationChanged`, the single release ends with `wakeLockHeld` false. After more than one acquire, Android's reference-counted lock may still be held.
- FineLocation.FineLocationSMSIntentService.OnStartCommand: the intent is always present. A null intent on a platform restart is not modelled. What the platform does with the returned value 1 (`START_FLAG_REDELIVERY`) is not modelled either.
- The `!= null` guards on the location and notification managers are taken as always true. These are system services that are always present.
- Threading is not modelled. The Handler queue is explicit; `HandleMessage` is the looper delivering the next message. `MessageAlertTask` runs to completion inside `SendAlert`, so no callback can interleave with the send task. `onPreExecute` only changes view visibility.
- Timers are explicit events: `OnTimerFinished` (countdown expiry) and `OnWakeLockTimeout`. Time itself is not modelled.
- GoogleApiClient connect/disconnect timing is left out: connection is the `OnConnected` event. `WearAlertService.onConnectionSuspended` and `onConnectionFailed` have empty bodies and are not modelled. `FineLocationSMSIntentService.onStatusChanged`, `onProviderEnabled`, `onProviderDisabled`, `onBind`, and `WearAlertService.onAccessibilityEvent`, `onInterrupt` do nothing and are not modelled.
- `AlertTriggerActivity.onStart` only asks the client to connect; the outcome arrives as `OnConnected` or `OnConnectionLost`.
- Message formatting (`Double.toString`, `String.format`, `DateUtils` timestamps, string resources) is replaced by the structured bodies `LastLocation` and `CurrentLocation`. The default emergency message is a constructor parameter standing for the string resource.
- The notification's icon, title, text, auto-cancel and local-only flags, and its tap target (the preferences screen), are not modelled; only its id is.
- Views, toasts, logging and the `ConfirmationActivity` intent are reduced to the terminal `Confirmation` (animation and label).
- Reading a preference stored with the wrong type is modelled as reading the default. Android would throw `ClassCastException`.
- SMSUtil.java is not part of this model beyond `SendSms` calls. AlertPreferencesActivity.java is not part of this model beyond its preference key names. In the revision modelled, nothing calls `PreferencesData.toDataMap`, and nothing in the modelled code starts `FineLocationSMSIntentService`.
- The node API and message API are inputs: the list of connected node ids and a per-node send status `delivered(id)`. The message payload is null and is not modelled.
