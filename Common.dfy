/** Values shared by the phone and the watch: optional values, the
    preferences store, locations, SMS bodies and the trace of platform
    calls made by the phone-side services. */
module Common {

  datatype Option<+T> = None | Some(value: T)

  /** TextUtils.isEmpty: a null or zero-length string. */
  predicate IsEmpty(s: Option<string>)
  {
    s.None? || |s.value| == 0
  }

  /** A value kept in SharedPreferences. */
  datatype PrefValue = BoolPref(b: bool) | StringPref(s: string)

  /** The SharedPreferences store: key to stored value. */
  type Preferences = map<string, PrefValue>

  /** SharedPreferences.getBoolean(key, default). */
  function GetBoolean(p: Preferences, key: string, default: bool): (r: bool)
    ensures key !in p ==> r == default
    ensures key in p && p[key].BoolPref? ==> r == p[key].b
  {
    if key in p && p[key].BoolPref? then p[key].b else default
  }

  /** SharedPreferences.getString(key, default); a null default is None. */
  function GetString(p: Preferences, key: string, default: Option<string>): (r: Option<string>)
    ensures key !in p ==> r == default
    ensures key in p && p[key].StringPref? ==> r == Some(p[key].s)
  {
    if key in p && p[key].StringPref? then Some(p[key].s) else default
  }

  /** A location fix; coordinates are kept exact, the time is in milliseconds. */
  datatype Location = Location(latitude: real, longitude: real, timeMs: int)

  /** The body of an SMS. The two location bodies stand for the formatted
      "last location" and "current location" string templates. */
  datatype SmsBody =
    | Text(s: string)
    | LastLocation(fix: Location)
    | CurrentLocation(fix: Location)

  datatype Sms = Sms(number: string, body: SmsBody)

  /** android.location.Criteria: accuracy and power requirement. */
  datatype Criteria = Criteria(accuracy: int, power: int)

  const NO_REQUIREMENT: int := 0
  const ACCURACY_FINE: int := 1
  const POWER_HIGH: int := 3

  /** A call a phone-side service makes into the platform, in the order made. */
  datatype Call =
    | AcquireWakeLock(timeoutMs: int)
    | ReleaseWakeLock
    | GetBestProvider(criteria: Criteria, enabledOnly: bool)
    | GetLastKnownLocation(provider: string)
    | RequestSingleUpdate(provider: string)
    | RequestLocationUpdates(provider: string, minTimeMs: int, minDistanceM: int)
    | RemoveUpdates
    | SendSms(sms: Sms)
    | CancelNotification(id: int)
    | Notify(id: int)
    | StopSelf
    | Connect
    | AddMessageListener
    | RemoveMessageListener
    | Disconnect

  /** The SMS messages handed to SmsManager, in the order handed over. */
  function SmsSent(calls: seq<Call>): (sms: seq<Sms>)
  {
    if calls == [] then []
    else SmsSent(calls[..|calls| - 1]) + (if calls[|calls| - 1].SendSms? then [calls[|calls| - 1].sms] else [])
  }

  lemma {:induction false} SmsSentAppend(a: seq<Call>, b: seq<Call>)
    ensures SmsSent(a + b) == SmsSent(a) + SmsSent(b)
    decreases |b|
  {
    if b == [] {
      assert a + b == a;
    } else {
      var b' := b[..|b| - 1];
      assert (a + b)[..|a + b| - 1] == a + b';
      assert (a + b)[|a + b| - 1] == b[|b| - 1];
      SmsSentAppend(a, b');
    }
  }

  lemma SmsSentOne(c: Call)
    ensures SmsSent([c]) == if c.SendSms? then [c.sms] else []
  {
  }

  /** A call that is not an SMS adds nothing to the SMS log. */
  lemma SmsSentNoSms(a: seq<Call>, b: seq<Call>)
    requires forall i :: 0 <= i < |b| ==> !b[i].SendSms?
    ensures SmsSent(a + b) == SmsSent(a)
  {
    SmsSentAppend(a, b);
    SmsSentNone(b);
  }

  /** Calls around exactly one SMS add exactly that SMS to the log. */
  lemma SmsSentSingle(a: seq<Call>, pre: seq<Call>, sms: Sms, post: seq<Call>)
    requires forall i :: 0 <= i < |pre| ==> !pre[i].SendSms?
    requires forall i :: 0 <= i < |post| ==> !post[i].SendSms?
    ensures SmsSent(a + pre + [SendSms(sms)] + post) == SmsSent(a) + [sms]
  {
    SmsSentAppend(a + pre + [SendSms(sms)], post);
    SmsSentNone(post);
    SmsSentAppend(a + pre, [SendSms(sms)]);
    SmsSentOne(SendSms(sms));
    SmsSentNoSms(a, pre);
  }

  lemma {:induction false} SmsSentNone(b: seq<Call>)
    requires forall i :: 0 <= i < |b| ==> !b[i].SendSms?
    ensures SmsSent(b) == []
    decreases |b|
  {
    if b != [] {
      SmsSentNone(b[..|b| - 1]);
    }
  }
}
