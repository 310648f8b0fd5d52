/** The phone-side service that waits for one fresh, accurate fix and sends
    it by SMS to the most recently requested number. */
module FineLocation {
  import opened Common

  const WAKELOCK_TIMEOUT_MS: int := 600000

  /** The value onStartCommand returns (Service.START_FLAG_REDELIVERY). */
  const START_FLAG_REDELIVERY: int := 1

  /** The criteria the best provider is chosen by: fine accuracy, high power. */
  const FixCriteria: Criteria := Criteria(ACCURACY_FINE, POWER_HIGH)

  /** FineLocationSMSIntentService. pendingNumber is
      mTempSmsNumberToSendLocationTo; wakeLockHeld says whether the service
      has acquired mWakeLock and not yet released it, as one flag: the wake
      lock's reference count is not kept, so after two acquires one release
      ends with the flag false although Android's isHeld() would still be
      true; activeRequest is the provider of the single update registered with the
      location manager, if any; calls logs the platform calls in order. */
  class FineLocationSMSIntentService {
    var pendingNumber: Option<string>
    var wakeLockHeld: bool
    var activeRequest: Option<string>
    var stopRequested: bool
    var destroyed: bool
    ghost var calls: seq<Call>

    /** While the service lives, a number is pending exactly when a single
        update is outstanding: at most one acquisition is ever in flight. */
    ghost predicate Valid()
      reads this
    {
      !destroyed ==> (activeRequest.Some? <==> pendingNumber.Some?)
    }

    /** onCreate: the wake lock is created, not held. */
    constructor ()
      ensures Valid() && !destroyed && !stopRequested
      ensures pendingNumber == None && !wakeLockHeld && activeRequest == None && calls == []
    {
      pendingNumber, wakeLockHeld, activeRequest := None, false, None;
      stopRequested, destroyed := false, false;
      calls := [];
    }

    /** onStartCommand with the intent's _key_phone_number extra. bestProvider is what
        the location manager answers for FixCriteria among enabled providers. */
    method OnStartCommand(smsNumber: Option<string>, bestProvider: Option<string>) returns (r: int)
      requires Valid() && !destroyed
      modifies this
      ensures Valid() && !destroyed && stopRequested == old(stopRequested)
      ensures r == START_FLAG_REDELIVERY
      // An empty or missing number changes nothing.
      ensures IsEmpty(smsNumber) ==>
                && pendingNumber == old(pendingNumber) && wakeLockHeld == old(wakeLockHeld)
                && activeRequest == old(activeRequest) && calls == old(calls)
      // Nothing pending: acquire the lock for 10 minutes, then look up the
      // provider; only a provider gives a pending number and one request.
      ensures !IsEmpty(smsNumber) && old(pendingNumber).None? ==>
                && wakeLockHeld
                && calls == old(calls) + [AcquireWakeLock(WAKELOCK_TIMEOUT_MS), GetBestProvider(FixCriteria, true)]
                                       + (if bestProvider.Some? then [RequestSingleUpdate(bestProvider.value)] else [])
                && activeRequest == bestProvider
                && pendingNumber == (if bestProvider.Some? then smsNumber else None)
      // A number already pending: replace it, no new lock, no new request.
      ensures !IsEmpty(smsNumber) && old(pendingNumber).Some? ==>
                && pendingNumber == smsNumber && wakeLockHeld == old(wakeLockHeld)
                && activeRequest == old(activeRequest) && calls == old(calls)
    {
      if !IsEmpty(smsNumber) {
        if pendingNumber.None? {
          wakeLockHeld := true;
          calls := calls + [AcquireWakeLock(WAKELOCK_TIMEOUT_MS)];
          calls := calls + [GetBestProvider(FixCriteria, true)];
          if bestProvider.Some? {
            pendingNumber := smsNumber;
            activeRequest := bestProvider;
            calls := calls + [RequestSingleUpdate(bestProvider.value)];
          }
        } else {
          pendingNumber := smsNumber;
        }
      }
      r := START_FLAG_REDELIVERY;
    }

    /** onLocationChanged. A fix removes the updates; with a number pending it
        sends one SMS to that number, clears it, releases the lock if held and
        stops the service. A null location does nothing. */
    method OnLocationChanged(location: Option<Location>)
      requires Valid() && !destroyed
      modifies this
      ensures Valid() && !destroyed
      ensures location.None? ==>
                && pendingNumber == old(pendingNumber) && wakeLockHeld == old(wakeLockHeld)
                && activeRequest == old(activeRequest) && calls == old(calls) && stopRequested == old(stopRequested)
      ensures location.Some? && old(pendingNumber).None? ==>
                && calls == old(calls) + [RemoveUpdates] && SmsSent(calls) == SmsSent(old(calls))
                && pendingNumber == None && activeRequest == None
                && wakeLockHeld == old(wakeLockHeld) && stopRequested == old(stopRequested)
      ensures location.Some? && old(pendingNumber).Some? ==>
                && calls == old(calls) + [RemoveUpdates, SendSms(Sms(old(pendingNumber).value, CurrentLocation(location.value)))]
                                       + (if old(wakeLockHeld) then [ReleaseWakeLock] else []) + [StopSelf]
                && SmsSent(calls) == SmsSent(old(calls)) + [Sms(old(pendingNumber).value, CurrentLocation(location.value))]
                && pendingNumber == None && activeRequest == None && !wakeLockHeld && stopRequested
    {
      if location.Some? {
        activeRequest := None;
        calls := calls + [RemoveUpdates];
        if pendingNumber.Some? {
          var sms := Sms(pendingNumber.value, CurrentLocation(location.value));
          calls := calls + [SendSms(sms)];
          pendingNumber := None;
          if wakeLockHeld {
            wakeLockHeld := false;
            calls := calls + [ReleaseWakeLock];
          }
          stopRequested := true;
          calls := calls + [StopSelf];
          ghost var post := if old(wakeLockHeld) then [ReleaseWakeLock, StopSelf] else [StopSelf];
          assert calls == old(calls) + [RemoveUpdates] + [SendSms(sms)] + post;
          SmsSentSingle(old(calls), [RemoveUpdates], sms, post);
        } else {
          SmsSentNoSms(old(calls), [RemoveUpdates]);
        }
      }
    }

    /** The wake lock's 10 minute timeout elapses: the platform releases it.
        A pending request, if any, stays registered. */
    method OnWakeLockTimeout()
      requires Valid()
      modifies this`wakeLockHeld
      ensures Valid() && !wakeLockHeld
    {
      wakeLockHeld := false;
    }

    /** onDestroy: remove the updates and release the lock if held. */
    method OnDestroy()
      requires Valid() && !destroyed
      modifies this
      ensures Valid() && destroyed && !wakeLockHeld && activeRequest == None
      ensures calls == old(calls) + [RemoveUpdates] + (if old(wakeLockHeld) then [ReleaseWakeLock] else [])
      ensures pendingNumber == old(pendingNumber) && stopRequested == old(stopRequested)
    {
      activeRequest := None;
      calls := calls + [RemoveUpdates];
      if wakeLockHeld {
        wakeLockHeld := false;
        calls := calls + [ReleaseWakeLock];
      }
      destroyed := true;
    }
  }

  /** Two starts coalesce into one request; the fix goes to the second
      number only, and a second fix sends nothing. */
  method ScenarioCoalescing(fix: Location)
  {
    var s := new FineLocationSMSIntentService();
    var r := s.OnStartCommand(Some("+15551234567"), Some("gps"));
    r := s.OnStartCommand(Some("+15557654321"), Some("gps"));
    assert s.calls == [AcquireWakeLock(600000), GetBestProvider(FixCriteria, true), RequestSingleUpdate("gps")];
    SmsSentNone(s.calls);
    s.OnLocationChanged(Some(fix));
    assert SmsSent(s.calls) == [Sms("+15557654321", CurrentLocation(fix))];
    assert !s.wakeLockHeld && s.stopRequested;
    s.OnLocationChanged(Some(fix));
    assert SmsSent(s.calls) == [Sms("+15557654321", CurrentLocation(fix))];
  }

  /** With no provider the lock is taken and no request is made; the next
      start takes it again. */
  method ScenarioNoProvider()
  {
    var s := new FineLocationSMSIntentService();
    var r := s.OnStartCommand(Some("+15551234567"), None);
    assert s.wakeLockHeld && s.pendingNumber == None && s.activeRequest == None;
    r := s.OnStartCommand(Some("+15551234567"), None);
    assert s.calls == [AcquireWakeLock(600000), GetBestProvider(FixCriteria, true),
                       AcquireWakeLock(600000), GetBestProvider(FixCriteria, true)];
    s.OnWakeLockTimeout();
    assert !s.wakeLockHeld;
  }
}
