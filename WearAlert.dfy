/** The phone-side alert service: it listens for the watch's alert message
    and, per message, posts the notification, sends the configured SMS, the
    last known location and registers for a fresh fix. */
module WearAlert {
  import opened Common

  const ALERT_NOTIFICATION_ID: int := 0x6001
  const MSG_TRIGGER_ALERT: int := 0x5001
  const SEND_EMERGENCY_ALERT_SMS_PATH: string := "/start/sendEmergencyAlert"

  /** The preference keys the settings screen writes. */
  const PREF_KEY_SMS_NUMBER: string := "_contact_phone_number"
  const PREF_KEY_SMS_MESSAGE: string := "_sms_emergency_message"
  const PREF_KEY_SMS_MESSAGE_LOCATION: string := "_sms_send_location"
  const PREF_KEY_SHOW_NOTIFICATION: string := "_show_notification"

  /** LocationManager.NETWORK_PROVIDER. */
  const NETWORK_PROVIDER: string := "network"

  /** The continuous updates requested for the follow-up fix. */
  const UPDATE_INTERVAL_MS: int := 300000
  const UPDATE_MIN_DISTANCE_M: int := 10
  const UpdateCriteria: Criteria := Criteria(ACCURACY_FINE, NO_REQUIREMENT)

  /** The preferences triggerAlert reads. */
  datatype AlertPreferences = AlertPreferences(
    smsNumber: Option<string>,
    smsMessage: Option<string>,
    sendLocation: bool,
    showNotification: bool)

  /** Reads the four preferences with triggerAlert's defaults: no number, the
      default emergency message, location and notification on. */
  function ReadAlertPreferences(p: Preferences, defaultMessage: string): (a: AlertPreferences)
    ensures PREF_KEY_SMS_NUMBER !in p ==> a.smsNumber == None
    ensures PREF_KEY_SMS_MESSAGE !in p ==> a.smsMessage == Some(defaultMessage)
    ensures PREF_KEY_SMS_MESSAGE_LOCATION !in p ==> a.sendLocation
    ensures PREF_KEY_SHOW_NOTIFICATION !in p ==> a.showNotification
    ensures PREF_KEY_SMS_NUMBER in p && p[PREF_KEY_SMS_NUMBER].StringPref? ==>
              a.smsNumber == Some(p[PREF_KEY_SMS_NUMBER].s)
    ensures PREF_KEY_SMS_MESSAGE in p && p[PREF_KEY_SMS_MESSAGE].StringPref? ==>
              a.smsMessage == Some(p[PREF_KEY_SMS_MESSAGE].s)
    ensures PREF_KEY_SMS_MESSAGE_LOCATION in p && p[PREF_KEY_SMS_MESSAGE_LOCATION].BoolPref? ==>
              a.sendLocation == p[PREF_KEY_SMS_MESSAGE_LOCATION].b
    ensures PREF_KEY_SHOW_NOTIFICATION in p && p[PREF_KEY_SHOW_NOTIFICATION].BoolPref? ==>
              a.showNotification == p[PREF_KEY_SHOW_NOTIFICATION].b
  {
    AlertPreferences(
      GetString(p, PREF_KEY_SMS_NUMBER, None),
      GetString(p, PREF_KEY_SMS_MESSAGE, Some(defaultMessage)),
      GetBoolean(p, PREF_KEY_SMS_MESSAGE_LOCATION, true),
      GetBoolean(p, PREF_KEY_SHOW_NOTIFICATION, true))
  }

  /** triggerAlert goes ahead only with a non-empty number and message. */
  predicate Configured(a: AlertPreferences)
  {
    !IsEmpty(a.smsNumber) && !IsEmpty(a.smsMessage)
  }

  /** The calls of showNotification: cancel the previous alert notification,
      then post the new one under the same id. */
  function NotificationCalls(): (c: seq<Call>)
  {
    [CancelNotification(ALERT_NOTIFICATION_ID), Notify(ALERT_NOTIFICATION_ID)]
  }

  /** The location part of triggerAlert: the last known network fix, sent
      when present, then continuous updates from the best fine provider. */
  function LocationCalls(number: string, lastKnown: Option<Location>, bestProvider: Option<string>): (c: seq<Call>)
  {
    [GetLastKnownLocation(NETWORK_PROVIDER)]
    + (if lastKnown.Some? then [SendSms(Sms(number, LastLocation(lastKnown.value)))] else [])
    + [GetBestProvider(UpdateCriteria, true)]
    + (if bestProvider.Some? then [RequestLocationUpdates(bestProvider.value, UPDATE_INTERVAL_MS, UPDATE_MIN_DISTANCE_M)] else [])
  }

  /** The calls one configured triggerAlert makes, in order. */
  function AlertCalls(a: AlertPreferences, lastKnown: Option<Location>, bestProvider: Option<string>): (c: seq<Call>)
    requires Configured(a)
  {
    (if a.showNotification then NotificationCalls() else [])
    + [SendSms(Sms(a.smsNumber.value, Text(a.smsMessage.value)))]
    + (if a.sendLocation then LocationCalls(a.smsNumber.value, lastKnown, bestProvider) else [])
  }

  /** The SMS of one alert: the configured message to the configured number,
      then, only with location on and a last known fix, that fix to the same
      number. With location off exactly one SMS is sent. */
  lemma AlertSms(a: AlertPreferences, lastKnown: Option<Location>, bestProvider: Option<string>)
    requires Configured(a)
    ensures SmsSent(AlertCalls(a, lastKnown, bestProvider)) ==
              [Sms(a.smsNumber.value, Text(a.smsMessage.value))]
              + (if a.sendLocation && lastKnown.Some? then [Sms(a.smsNumber.value, LastLocation(lastKnown.value))] else [])
  {
    var n := a.smsNumber.value;
    var first := if a.showNotification then NotificationCalls() else [];
    var primary := [SendSms(Sms(n, Text(a.smsMessage.value)))];
    var rest := if a.sendLocation then LocationCalls(n, lastKnown, bestProvider) else [];
    assert AlertCalls(a, lastKnown, bestProvider) == first + primary + rest;
    SmsSentNone(first);
    SmsSentOne(primary[0]);
    SmsSentAppend(first, primary);
    SmsSentAppend(first + primary, rest);
    if a.sendLocation {
      LocationSms(n, lastKnown, bestProvider);
    }
  }

  /** The location part sends the last known fix, when there is one, and
      nothing else. */
  lemma LocationSms(number: string, lastKnown: Option<Location>, bestProvider: Option<string>)
    ensures SmsSent(LocationCalls(number, lastKnown, bestProvider)) ==
              if lastKnown.Some? then [Sms(number, LastLocation(lastKnown.value))] else []
  {
    var q := [GetLastKnownLocation(NETWORK_PROVIDER)];
    var l := if lastKnown.Some? then [SendSms(Sms(number, LastLocation(lastKnown.value)))] else [];
    var g := [GetBestProvider(UpdateCriteria, true)];
    var u := if bestProvider.Some? then [RequestLocationUpdates(bestProvider.value, UPDATE_INTERVAL_MS, UPDATE_MIN_DISTANCE_M)] else [];
    assert LocationCalls(number, lastKnown, bestProvider) == q + l + g + u;
    SmsSentAppend(q, l);
    SmsSentAppend(q + l, g);
    SmsSentAppend(q + l + g, u);
    SmsSentNone(q);
    SmsSentNone(g);
    SmsSentNone(u);
    if lastKnown.Some? {
      SmsSentOne(l[0]);
    } else {
      assert l == [];
    }
  }

  /** Ordering within one alert: the notification (when enabled) is posted
      before any SMS, and the request for updates (when made) is the last
      call. */
  lemma AlertOrder(a: AlertPreferences, lastKnown: Option<Location>, bestProvider: Option<string>)
    requires Configured(a)
    ensures var c := AlertCalls(a, lastKnown, bestProvider);
            && (a.showNotification ==>
                  c[0] == CancelNotification(ALERT_NOTIFICATION_ID) && c[1] == Notify(ALERT_NOTIFICATION_ID) &&
                  forall i :: 0 <= i < |c| && c[i].SendSms? ==> 2 <= i)
            && (forall i :: 0 <= i < |c| && c[i].Notify? ==> a.showNotification && i == 1)
            && (forall i :: 0 <= i < |c| && c[i].RequestLocationUpdates? ==>
                  a.sendLocation && bestProvider.Some? && i == |c| - 1)
  {
  }

  /** WearAlertService. prefs is the phone's preference store, written by
      the settings screen; handlerQueue holds the messages posted to
      mMessageHandler and not yet handled; pendingNumber is
      mTempSmsNumberToSendLocationTo; activeRequest the provider whose updates
      this service is registered for; notifications the ids currently shown;
      calls the platform calls in order. */
  class WearAlertService {
    const defaultEmergencyMessage: string
    var prefs: Preferences
    var handlerQueue: seq<int>
    var pendingNumber: Option<string>
    var activeRequest: Option<string>
    var notifications: set<int>
    var connected: bool
    var destroyed: bool
    ghost var calls: seq<Call>

    /** Only alert messages are ever posted to the handler, and updates are
        registered only while a number waits for the fix, also after
        onDestroy, when a trigger still queued can register them again. */
    ghost predicate Valid()
      reads this
    {
      && (forall i :: 0 <= i < |handlerQueue| ==> handlerQueue[i] == MSG_TRIGGER_ALERT)
      && (activeRequest.Some? ==> pendingNumber.Some?)
    }

    /** onCreate: read the store and start connecting to the Wear API. The
        default emergency message is the string resource. */
    constructor (stored: Preferences, defaultMessage: string)
      ensures Valid() && !destroyed && !connected
      ensures prefs == stored && defaultEmergencyMessage == defaultMessage
      ensures handlerQueue == [] && pendingNumber == None && activeRequest == None && notifications == {}
      ensures calls == [Connect]
    {
      defaultEmergencyMessage := defaultMessage;
      prefs := stored;
      handlerQueue, pendingNumber, activeRequest, notifications := [], None, None, {};
      connected, destroyed := false, false;
      calls := [Connect];
    }

    /** onConnected: register as the message listener. */
    method OnConnected()
      requires Valid() && !destroyed
      modifies this`connected, this`calls
      ensures Valid() && connected && calls == old(calls) + [AddMessageListener]
    {
      connected := true;
      calls := calls + [AddMessageListener];
    }

    /** onMessageReceived: a message on the alert path posts one trigger to
        the handler at once, with no delay and no coalescing; any other path
        does nothing. */
    method OnMessageReceived(path: string)
      requires Valid() && !destroyed
      modifies this`handlerQueue
      ensures Valid()
      ensures handlerQueue == if path == SEND_EMERGENCY_ALERT_SMS_PATH then old(handlerQueue) + [MSG_TRIGGER_ALERT]
                              else old(handlerQueue)
    {
      if path == SEND_EMERGENCY_ALERT_SMS_PATH {
        handlerQueue := handlerQueue + [MSG_TRIGGER_ALERT];
      }
    }

    /** What one triggerAlert does to the service, read from the preferences
        at the time it runs. */
    twostate predicate AlertTriggered(lastKnown: Option<Location>, bestProvider: Option<string>)
      reads this
    {
      var a := ReadAlertPreferences(old(prefs), defaultEmergencyMessage);
      && prefs == old(prefs) && connected == old(connected) && destroyed == old(destroyed)
      && (!Configured(a) ==>
            && calls == old(calls) && notifications == old(notifications)
            && pendingNumber == old(pendingNumber) && activeRequest == old(activeRequest))
      && (Configured(a) ==>
            && calls == old(calls) + AlertCalls(a, lastKnown, bestProvider)
            && SmsSent(calls) == SmsSent(old(calls)) + SmsSent(AlertCalls(a, lastKnown, bestProvider))
            && notifications == (if a.showNotification then old(notifications) + {ALERT_NOTIFICATION_ID} else old(notifications))
            && pendingNumber == (if a.sendLocation && bestProvider.Some? then a.smsNumber else old(pendingNumber))
            && activeRequest == (if a.sendLocation && bestProvider.Some? then bestProvider else old(activeRequest)))
    }

    /** The handler runs the next posted message. lastKnown is the network
        provider's last known fix, bestProvider the location manager's answer
        for UpdateCriteria among enabled providers. The handler runs on the
        main looper and onDestroy does not clear it, so a message posted
        before onDestroy is still handled after it. */
    method HandleMessage(lastKnown: Option<Location>, bestProvider: Option<string>)
      requires Valid() && handlerQueue != []
      modifies this
      ensures Valid() && handlerQueue == old(handlerQueue)[1..]
      ensures AlertTriggered(lastKnown, bestProvider)
    {
      var what := handlerQueue[0];
      handlerQueue := handlerQueue[1..];
      if what == MSG_TRIGGER_ALERT {
        TriggerAlert(lastKnown, bestProvider);
      }
    }

    /** triggerAlert: with an empty number or message nothing happens;
        otherwise notification, primary SMS, last known location SMS and the
        request for updates, in that order. */
    method TriggerAlert(lastKnown: Option<Location>, bestProvider: Option<string>)
      requires Valid()
      modifies this
      ensures Valid() && handlerQueue == old(handlerQueue)
      ensures AlertTriggered(lastKnown, bestProvider)
    {
      var a := ReadAlertPreferences(prefs, defaultEmergencyMessage);
      if !IsEmpty(a.smsNumber) && !IsEmpty(a.smsMessage) {
        RaiseAlert(a, lastKnown, bestProvider);
        SmsSentAppend(old(calls), AlertCalls(a, lastKnown, bestProvider));
      }
    }

    /** The configured body of triggerAlert for the preferences a. */
    method RaiseAlert(a: AlertPreferences, lastKnown: Option<Location>, bestProvider: Option<string>)
      requires Valid() && Configured(a)
      modifies this`notifications, this`calls, this`pendingNumber, this`activeRequest
      ensures Valid()
      ensures calls == old(calls) + AlertCalls(a, lastKnown, bestProvider)
      ensures notifications == (if a.showNotification then old(notifications) + {ALERT_NOTIFICATION_ID} else old(notifications))
      ensures pendingNumber == (if a.sendLocation && bestProvider.Some? then a.smsNumber else old(pendingNumber))
      ensures activeRequest == (if a.sendLocation && bestProvider.Some? then bestProvider else old(activeRequest))
    {
      if a.showNotification {
        ShowNotification();
      }
      calls := calls + [SendSms(Sms(a.smsNumber.value, Text(a.smsMessage.value)))];
      if a.sendLocation {
        SendLocation(a.smsNumber.value, lastKnown, bestProvider);
      }
    }

    /** The sendLocation branch of triggerAlert: send the last known network
        fix to number when there is one, then register for updates from the
        best fine provider, which makes number the pending one. */
    method SendLocation(number: string, lastKnown: Option<Location>, bestProvider: Option<string>)
      requires Valid()
      modifies this`calls, this`pendingNumber, this`activeRequest
      ensures Valid()
      ensures calls == old(calls) + LocationCalls(number, lastKnown, bestProvider)
      ensures pendingNumber == (if bestProvider.Some? then Some(number) else old(pendingNumber))
      ensures activeRequest == (if bestProvider.Some? then bestProvider else old(activeRequest))
    {
      calls := calls + [GetLastKnownLocation(NETWORK_PROVIDER)];
      if lastKnown.Some? {
        calls := calls + [SendSms(Sms(number, LastLocation(lastKnown.value)))];
      }
      calls := calls + [GetBestProvider(UpdateCriteria, true)];
      if bestProvider.Some? {
        pendingNumber := Some(number);
        activeRequest := bestProvider;
        calls := calls + [RequestLocationUpdates(bestProvider.value, UPDATE_INTERVAL_MS, UPDATE_MIN_DISTANCE_M)];
      }
    }

    /** showNotification: cancel, then post under ALERT_NOTIFICATION_ID, so
        at most one alert notification is shown however often it runs. */
    method ShowNotification()
      modifies this`notifications, this`calls
      ensures notifications == old(notifications) + {ALERT_NOTIFICATION_ID}
      ensures calls == old(calls) + NotificationCalls()
    {
      RemoveNotification();
      notifications := notifications + {ALERT_NOTIFICATION_ID};
      calls := calls + [Notify(ALERT_NOTIFICATION_ID)];
    }

    /** removeNotification: cancel the alert notification. */
    method RemoveNotification()
      modifies this`notifications, this`calls
      ensures notifications == old(notifications) - {ALERT_NOTIFICATION_ID}
      ensures calls == old(calls) + [CancelNotification(ALERT_NOTIFICATION_ID)]
    {
      notifications := notifications - {ALERT_NOTIFICATION_ID};
      calls := calls + [CancelNotification(ALERT_NOTIFICATION_ID)];
    }

    /** onLocationChanged: always remove the updates; with a fix and a
        pending number send one SMS to that number and clear it. */
    method OnLocationChanged(location: Option<Location>)
      requires Valid()
      modifies this`pendingNumber, this`activeRequest, this`calls
      ensures Valid() && activeRequest == None
      ensures location.Some? && old(pendingNumber).Some? ==>
                && calls == old(calls) + [RemoveUpdates, SendSms(Sms(old(pendingNumber).value, CurrentLocation(location.value)))]
                && SmsSent(calls) == SmsSent(old(calls)) + [Sms(old(pendingNumber).value, CurrentLocation(location.value))]
                && pendingNumber == None
      ensures !(location.Some? && old(pendingNumber).Some?) ==>
                && calls == old(calls) + [RemoveUpdates] && SmsSent(calls) == SmsSent(old(calls))
                && pendingNumber == old(pendingNumber)
    {
      activeRequest := None;
      calls := calls + [RemoveUpdates];
      if location.Some? && pendingNumber.Some? {
        var sms := Sms(pendingNumber.value, CurrentLocation(location.value));
        calls := calls + [SendSms(sms)];
        pendingNumber := None;
        assert calls == old(calls) + [RemoveUpdates] + [SendSms(sms)] + [];
        SmsSentSingle(old(calls), [RemoveUpdates], sms, []);
      } else {
        SmsSentNoSms(old(calls), [RemoveUpdates]);
      }
    }

    /** onProviderDisabled: remove the updates; the pending number stays. */
    method OnProviderDisabled(provider: string)
      requires Valid()
      modifies this`activeRequest, this`calls
      ensures Valid() && activeRequest == None && calls == old(calls) + [RemoveUpdates]
    {
      activeRequest := None;
      calls := calls + [RemoveUpdates];
    }

    /** onDestroy: remove the updates; if connected, unregister the listener
        and disconnect. */
    method OnDestroy()
      requires Valid() && !destroyed
      modifies this
      ensures Valid() && destroyed && activeRequest == None && !connected
      ensures calls == old(calls) + [RemoveUpdates] + (if old(connected) then [RemoveMessageListener, Disconnect] else [])
      ensures prefs == old(prefs) && handlerQueue == old(handlerQueue) && pendingNumber == old(pendingNumber)
      ensures notifications == old(notifications)
    {
      activeRequest := None;
      calls := calls + [RemoveUpdates];
      if connected {
        calls := calls + [RemoveMessageListener, Disconnect];
        connected := false;
      }
      destroyed := true;
    }
  }

  /** With all four preferences stored, triggerAlert uses the stored values. */
  lemma AllPreferencesStored(number: string, message: string, sendLocation: bool, showNotification: bool, defaultMessage: string)
    ensures ReadAlertPreferences(map[PREF_KEY_SMS_NUMBER := StringPref(number), PREF_KEY_SMS_MESSAGE := StringPref(message),
                                     PREF_KEY_SMS_MESSAGE_LOCATION := BoolPref(sendLocation),
                                     PREF_KEY_SHOW_NOTIFICATION := BoolPref(showNotification)], defaultMessage) ==
              AlertPreferences(Some(number), Some(message), sendLocation, showNotification)
  {
  }

  /** Location and notification off: one SMS, no notification, no request. */
  method ScenarioSmsOnly()
  {
    var prefs := map[PREF_KEY_SMS_NUMBER := StringPref("+15551234567"), PREF_KEY_SMS_MESSAGE := StringPref("HELP"),
                     PREF_KEY_SMS_MESSAGE_LOCATION := BoolPref(false), PREF_KEY_SHOW_NOTIFICATION := BoolPref(false)];
    var s := new WearAlertService(prefs, "Emergency");
    s.OnConnected();
    s.OnMessageReceived(SEND_EMERGENCY_ALERT_SMS_PATH);
    assert s.calls == [Connect, AddMessageListener];
    SmsSentNone(s.calls);
    AllPreferencesStored("+15551234567", "HELP", false, false, "Emergency");
    AlertSms(AlertPreferences(Some("+15551234567"), Some("HELP"), false, false), None, Some("gps"));
    s.HandleMessage(None, Some("gps"));
    assert SmsSent(s.calls) == [Sms("+15551234567", Text("HELP"))];
    assert s.notifications == {} && s.activeRequest == None;
  }

  /** No number stored: nothing is sent or shown. */
  method ScenarioNoNumber(fix: Location)
  {
    var s := new WearAlertService(map[], "Emergency");
    s.OnMessageReceived(SEND_EMERGENCY_ALERT_SMS_PATH);
    s.HandleMessage(Some(fix), Some("gps"));
    assert s.calls == [Connect] && s.notifications == {} && s.pendingNumber == None;
  }

  /** With only a number stored, triggerAlert uses every other default. */
  lemma NumberOnlyPreferences(number: string, defaultMessage: string)
    ensures ReadAlertPreferences(map[PREF_KEY_SMS_NUMBER := StringPref(number)], defaultMessage) ==
              AlertPreferences(Some(number), Some(defaultMessage), true, true)
  {
  }

  /** Two alert messages queue two triggers, and handling the first leaves
      the second queued: there is no debounce, and the second trigger runs a
      full alert of its own when handled. */
  method ScenarioNoDebounce(fix: Location)
  {
    var prefs := map[PREF_KEY_SMS_NUMBER := StringPref("+15551234567")];
    var s := new WearAlertService(prefs, "Emergency");
    s.OnMessageReceived(SEND_EMERGENCY_ALERT_SMS_PATH);
    s.OnMessageReceived("/other");
    s.OnMessageReceived(SEND_EMERGENCY_ALERT_SMS_PATH);
    assert s.handlerQueue == [MSG_TRIGGER_ALERT, MSG_TRIGGER_ALERT];
    assert s.calls == [Connect];
    SmsSentOne(Connect);
    NumberOnlyPreferences("+15551234567", "Emergency");
    AlertSms(AlertPreferences(Some("+15551234567"), Some("Emergency"), true, true), Some(fix), None);
    s.HandleMessage(Some(fix), None);
    assert SmsSent(s.calls) == [Sms("+15551234567", Text("Emergency")), Sms("+15551234567", LastLocation(fix))];
    assert s.handlerQueue == [MSG_TRIGGER_ALERT];
  }

  /** A trigger still queued when the service is destroyed runs after
      onDestroy: the SMS goes out and the updates are registered again while
      the service is destroyed; the fix that follows is still sent. */
  method ScenarioTriggerAfterDestroy(fix: Location)
  {
    var prefs := map[PREF_KEY_SMS_NUMBER := StringPref("+15551234567")];
    var s := new WearAlertService(prefs, "Emergency");
    s.OnMessageReceived(SEND_EMERGENCY_ALERT_SMS_PATH);
    s.OnDestroy();
    assert s.calls == [Connect, RemoveUpdates];
    SmsSentNone(s.calls);
    NumberOnlyPreferences("+15551234567", "Emergency");
    AlertSms(AlertPreferences(Some("+15551234567"), Some("Emergency"), true, true), None, Some("gps"));
    s.HandleMessage(None, Some("gps"));
    assert SmsSent(s.calls) == [Sms("+15551234567", Text("Emergency"))];
    assert s.destroyed && s.activeRequest == Some("gps") && s.pendingNumber == Some("+15551234567");
    s.OnLocationChanged(Some(fix));
    assert SmsSent(s.calls) == [Sms("+15551234567", Text("Emergency")), Sms("+15551234567", CurrentLocation(fix))];
  }
}
