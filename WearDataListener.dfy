/** The watch-side listener that copies the synced confirmation-button flag
    into the watch's preferences. */
module WearDataListener {
  import opened Common
  import PreferencesData
  import AlertTrigger

  /** DataEvent.TYPE_CHANGED and DataEvent.TYPE_DELETED. */
  datatype EventType = TypeChanged | TypeDeleted

  datatype DataItem = DataItem(uri: PreferencesData.Uri, data: PreferencesData.DataMap)

  datatype DataEvent = DataEvent(kind: EventType, item: DataItem)

  /** The events the listener acts on: changes of the preferences record. */
  predicate Writes(e: DataEvent)
  {
    e.item.uri.path == PreferencesData.URI_PATH && e.kind == TypeChanged
  }

  /** The preferences after handling one event. */
  function ApplyEvent(p: Preferences, e: DataEvent): (q: Preferences)
  {
    if Writes(e) then
      p[AlertTrigger.PREF_KEY_USE_CONFIRMATION_BTN := BoolPref(PreferencesData.GetUseButtonConfirmation(e.item.data))]
    else p
  }

  /** The preferences after handling the events in buffer order. */
  function ApplyEvents(p: Preferences, events: seq<DataEvent>): (q: Preferences)
    decreases |events|
  {
    if events == [] then p
    else ApplyEvent(ApplyEvents(p, events[..|events| - 1]), events[|events| - 1])
  }

  /** A batch without a changed event at the record's path changes nothing. */
  lemma {:induction false} NoWriteLeavesPreferences(p: Preferences, events: seq<DataEvent>)
    requires forall i :: 0 <= i < |events| ==> !Writes(events[i])
    ensures ApplyEvents(p, events) == p
    decreases |events|
  {
    if events != [] {
      var init := events[..|events| - 1];
      assert forall i :: 0 <= i < |init| ==> init[i] == events[i];
      NoWriteLeavesPreferences(p, init);
    }
  }

  /** Last write wins: when events[i] is the last changed event at the
      record's path, the flag afterwards is the value it carries and every
      other key is as before. */
  lemma {:induction false} LastMatchingEventWins(p: Preferences, events: seq<DataEvent>, i: nat)
    requires i < |events| && Writes(events[i])
    requires forall j :: i < j < |events| ==> !Writes(events[j])
    ensures ApplyEvents(p, events) ==
              p[AlertTrigger.PREF_KEY_USE_CONFIRMATION_BTN := BoolPref(PreferencesData.GetUseButtonConfirmation(events[i].item.data))]
    decreases |events|
  {
    var n := |events| - 1;
    var init := events[..n];
    if i < n {
      assert init[i] == events[i];
      assert forall j :: i < j < |init| ==> init[j] == events[j];
      LastMatchingEventWins(p, init, i);
      assert !Writes(events[n]);
    } else {
      OnlyFlagWritten(p, init);
    }
  }

  /** Handling events changes no key but the flag. */
  lemma {:induction false} OnlyFlagWritten(p: Preferences, events: seq<DataEvent>)
    ensures forall k :: k != AlertTrigger.PREF_KEY_USE_CONFIRMATION_BTN ==> (k in ApplyEvents(p, events) <==> k in p)
    ensures forall k :: k != AlertTrigger.PREF_KEY_USE_CONFIRMATION_BTN && k in p ==> ApplyEvents(p, events)[k] == p[k]
    decreases |events|
  {
    if events != [] {
      OnlyFlagWritten(p, events[..|events| - 1]);
    }
  }

  /** The watch's WearDataListenerService with its preferences store. */
  class WearDataListenerService {
    var prefs: Preferences

    constructor (stored: Preferences)
      ensures prefs == stored
    {
      prefs := stored;
    }

    /** onDataChanged: one editor write per changed event at the record's path. */
    method OnDataChanged(events: seq<DataEvent>)
      modifies this
      ensures prefs == ApplyEvents(old(prefs), events)
    {
      var i := 0;
      while i < |events|
        invariant 0 <= i <= |events|
        invariant prefs == ApplyEvents(old(prefs), events[..i])
      {
        var event := events[i];
        if event.item.uri.path == PreferencesData.URI_PATH {
          if event.kind == TypeChanged {
            var dataMap := event.item.data;
            prefs := prefs[AlertTrigger.PREF_KEY_USE_CONFIRMATION_BTN := BoolPref(PreferencesData.GetUseButtonConfirmation(dataMap))];
          }
        }
        assert events[..i + 1][..i] == events[..i];
        i := i + 1;
      }
      assert events[..i] == events;
    }
  }

  /** The record the phone packs with ToDataMap for node nodeId, delivered as a
      changed event, sets exactly the flag the trigger screen reads. */
  lemma PublishedFlagReachesTrigger(p: Preferences, nodeId: string, useButton: bool)
    ensures var e := DataEvent(TypeChanged, DataItem(PreferencesData.GetUri(nodeId), PreferencesData.ToDataMap(useButton).dataMap));
            var q := ApplyEvents(p, [e]);
            AlertTrigger.ReadConfirmationMode(q) == useButton &&
            q.Keys == p.Keys + {AlertTrigger.PREF_KEY_USE_CONFIRMATION_BTN} &&
            forall k :: k in p && k != AlertTrigger.PREF_KEY_USE_CONFIRMATION_BTN ==> q[k] == p[k]
  {
  }
}
