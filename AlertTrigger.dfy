/** The watch-side trigger screen: confirmation by button or by a timed
    countdown, then a fan-out of the alert message to every connected node. */
module AlertTrigger {
  import opened Common

  const CONFIRMATION_DELAY_MS: int := 3500
  const SEND_EMERGENCY_ALERT_SMS_PATH: string := "/start/sendEmergencyAlert"
  const PREF_KEY_USE_CONFIRMATION_BTN: string := "_pref_use_confirmation_btn"

  /** ConfirmationActivity's SUCCESS_ANIMATION and FAILURE_ANIMATION. */
  datatype Animation = SuccessAnimation | FailureAnimation

  /** The message of the terminal screen: a literal, or one of the two
      string resources lbl_error_occurred and lbl_alert_cancelled. */
  datatype Label = Literal(s: string) | ErrorOccurred | AlertCancelled

  /** The ConfirmationActivity started when the screen finishes. */
  datatype Confirmation = Confirmation(animation: Animation, message: Label)

  /** The confirmation mode: true means an explicit button press is needed;
      a preference that was never written means automatic confirmation. */
  function ReadConfirmationMode(p: Preferences): (useButton: bool)
    ensures PREF_KEY_USE_CONFIRMATION_BTN !in p ==> !useButton
    ensures PREF_KEY_USE_CONFIRMATION_BTN in p && p[PREF_KEY_USE_CONFIRMATION_BTN].BoolPref? ==>
              useButton == p[PREF_KEY_USE_CONFIRMATION_BTN].b
  {
    GetBoolean(p, PREF_KEY_USE_CONFIRMATION_BTN, false)
  }

  /** The screen shown after the send task: success exactly when the
      fan-out reported a delivered message. */
  function ResultScreen(success: bool): (c: Confirmation)
    ensures c.animation == SuccessAnimation <==> success
    ensures c.message == Literal("Success") <==> success
    ensures c.message == Literal("Failure") <==> !success
  {
    if success then Confirmation(SuccessAnimation, Literal("Success"))
    else Confirmation(FailureAnimation, Literal("Failure"))
  }

  /** getNodes: the distinct ids of the connected nodes. */
  method GetNodes(nodes: seq<string>) returns (results: set<string>)
    ensures forall id :: id in results <==> id in nodes
  {
    results := {};
    var i := 0;
    while i < |nodes|
      invariant 0 <= i <= |nodes|
      invariant forall id :: id in results <==> id in nodes[..i]
    {
      results := results + {nodes[i]};
      i := i + 1;
    }
    assert nodes[..i] == nodes;
  }

  /** MessageAlertTask.doInBackground: one message per distinct node, in the
      set's iteration order; the result is true when any send succeeded.
      delivered(id) is the status the transport reports for node id and
      messaged lists the nodes in the order they were messaged. */
  method DoInBackground(nodes: seq<string>, delivered: string -> bool) returns (messageSent: bool, ghost messaged: seq<string>)
    ensures forall id :: multiset(messaged)[id] == (if id in nodes then 1 else 0)
    ensures messageSent <==> exists id :: id in nodes && delivered(id)
    ensures nodes == [] ==> !messageSent
  {
    messageSent := false;
    messaged := [];
    var ids := GetNodes(nodes);
    var remaining := ids;
    ghost var visited: set<string> := {};
    while remaining != {}
      invariant visited !! remaining && visited + remaining == ids
      invariant forall id :: multiset(messaged)[id] == (if id in visited then 1 else 0)
      invariant messageSent <==> exists id :: id in visited && delivered(id)
      decreases |remaining|
    {
      var node :| node in remaining;
      if delivered(node) {
        messageSent := true;
      }
      messaged := messaged + [node];
      visited := visited + {node};
      remaining := remaining - {node};
    }
  }

  /** AlertTriggerActivity. Fields: the mode read in onCreate, whether the
      layout (and so the confirm view) exists, whether the view's listener is
      set, whether its countdown is running and with which total time, whether
      the API client is connected, and whether the activity finished with
      which confirmation screen. sent is the ghost log of the nodes an alert
      message was sent to at SEND_EMERGENCY_ALERT_SMS_PATH. */
  class AlertTriggerActivity {
    var useConfirmationButton: bool
    var inflated: bool
    var listenerAttached: bool
    var countdownRunning: bool
    var totalTimeMs: Option<int>
    var connected: bool
    var finished: bool
    var screen: Option<Confirmation>
    ghost var sent: seq<string>

    /** onCreate: read the mode; the layout and the connection come later. */
    constructor (p: Preferences)
      ensures useConfirmationButton == ReadConfirmationMode(p)
      ensures !inflated && !listenerAttached && !countdownRunning && totalTimeMs == None
      ensures !connected && !finished && screen == None && sent == []
    {
      useConfirmationButton := ReadConfirmationMode(p);
      inflated, listenerAttached, countdownRunning, totalTimeMs := false, false, false, None;
      connected, finished, screen := false, false, None;
      sent := [];
    }

    /** onLayoutInflated: attach the listener; in automatic mode start the
        3500 ms countdown, in button mode start none. */
    method OnLayoutInflated()
      modifies this
      ensures inflated && listenerAttached
      ensures !useConfirmationButton ==> totalTimeMs == Some(CONFIRMATION_DELAY_MS) && countdownRunning
      ensures useConfirmationButton ==> totalTimeMs == old(totalTimeMs) && countdownRunning == old(countdownRunning)
      ensures useConfirmationButton == old(useConfirmationButton) && connected == old(connected)
      ensures finished == old(finished) && screen == old(screen) && sent == old(sent)
    {
      inflated := true;
      listenerAttached := true;
      if !useConfirmationButton {
        totalTimeMs := Some(CONFIRMATION_DELAY_MS);
        countdownRunning := true;
      }
    }

    /** The API client reports a connection (the onConnected body is empty). */
    method OnConnected()
      modifies this`connected
      ensures connected
    {
      connected := true;
    }

    /** onResume: once the view exists and the client is connected, restart
        the countdown and reattach the listener, whatever the mode. */
    method OnResume()
      modifies this`countdownRunning, this`listenerAttached
      ensures inflated && connected ==> countdownRunning && listenerAttached
      ensures !(inflated && connected) ==>
                countdownRunning == old(countdownRunning) && listenerAttached == old(listenerAttached)
    {
      if inflated && connected {
        countdownRunning := true;
        listenerAttached := true;
      }
    }

    /** onStop: disconnect and detach the listener. */
    method OnStop()
      modifies this`connected, this`listenerAttached
      ensures !connected
      ensures listenerAttached == (old(listenerAttached) && !inflated)
    {
      if connected {
        connected := false;
      }
      if inflated {
        listenerAttached := false;
      }
    }

    /** onConnectionSuspended and onConnectionFailed: detach the listener and
        finish with the "error occurred" failure screen. */
    method OnConnectionLost()
      modifies this
      ensures !connected && finished
      ensures screen == Some(Confirmation(FailureAnimation, ErrorOccurred))
      ensures listenerAttached == (old(listenerAttached) && !inflated)
      ensures sent == old(sent) && inflated == old(inflated) && useConfirmationButton == old(useConfirmationButton)
      ensures countdownRunning == old(countdownRunning) && totalTimeMs == old(totalTimeMs)
    {
      connected := false;
      if inflated {
        listenerAttached := false;
      }
      finished := true;
      screen := Some(Confirmation(FailureAnimation, ErrorOccurred));
    }

    /** MessageAlertTask.onPostExecute: finish with the result screen. */
    method OnPostExecute(success: bool)
      modifies this`finished, this`screen
      ensures finished && screen == Some(ResultScreen(success))
    {
      finished := true;
      screen := Some(ResultScreen(success));
    }

    /** sendAlert: only while connected, run the send task to completion.
        nodes are the ids the node API reports, delivered the per-node
        send status. */
    method SendAlert(nodes: seq<string>, delivered: string -> bool)
      modifies this
      ensures !old(connected) ==> finished == old(finished) && screen == old(screen) && sent == old(sent)
      ensures old(connected) ==>
                && finished
                && screen == Some(ResultScreen(exists id :: id in nodes && delivered(id)))
                && |old(sent)| <= |sent| && sent[..|old(sent)|] == old(sent)
                && forall id :: multiset(sent[|old(sent)|..])[id] == (if id in nodes then 1 else 0)
      ensures connected == old(connected) && inflated == old(inflated) && listenerAttached == old(listenerAttached)
      ensures countdownRunning == old(countdownRunning) && totalTimeMs == old(totalTimeMs)
      ensures useConfirmationButton == old(useConfirmationButton)
    {
      if connected {
        var success, messaged := DoInBackground(nodes, delivered);
        sent := sent + messaged;
        assert sent[|old(sent)|..] == messaged;
        OnPostExecute(success);
      }
    }

    /** onTimerFinished: the countdown expired; send, whatever the mode. */
    method OnTimerFinished(nodes: seq<string>, delivered: string -> bool)
      requires inflated && listenerAttached && countdownRunning
      modifies this
      ensures !countdownRunning
      ensures !old(connected) ==> finished == old(finished) && screen == old(screen) && sent == old(sent)
      ensures old(connected) ==>
                && finished
                && screen == Some(ResultScreen(exists id :: id in nodes && delivered(id)))
                && |old(sent)| <= |sent| && sent[..|old(sent)|] == old(sent)
                && forall id :: multiset(sent[|old(sent)|..])[id] == (if id in nodes then 1 else 0)
      ensures connected == old(connected) && listenerAttached && inflated
      ensures useConfirmationButton == old(useConfirmationButton) && totalTimeMs == old(totalTimeMs)
    {
      countdownRunning := false;
      SendAlert(nodes, delivered);
    }

    /** onTimerSelected: a tap sends in button mode; in automatic mode it
        cancels: detach the listener and finish with "alert cancelled". */
    method OnTimerSelected(nodes: seq<string>, delivered: string -> bool)
      requires inflated && listenerAttached
      modifies this
      ensures useConfirmationButton ==>
                && listenerAttached
                && (!old(connected) ==> finished == old(finished) && screen == old(screen) && sent == old(sent))
                && (old(connected) ==>
                      && finished
                      && screen == Some(ResultScreen(exists id :: id in nodes && delivered(id)))
                      && |old(sent)| <= |sent| && sent[..|old(sent)|] == old(sent)
                      && forall id :: multiset(sent[|old(sent)|..])[id] == (if id in nodes then 1 else 0))
      ensures !useConfirmationButton ==>
                && !listenerAttached && finished && sent == old(sent)
                && screen == Some(Confirmation(FailureAnimation, AlertCancelled))
      ensures connected == old(connected) && inflated && useConfirmationButton == old(useConfirmationButton)
      ensures countdownRunning == old(countdownRunning) && totalTimeMs == old(totalTimeMs)
    {
      if useConfirmationButton {
        SendAlert(nodes, delivered);
      } else {
        listenerAttached := false;
        finished := true;
        screen := Some(Confirmation(FailureAnimation, AlertCancelled));
      }
    }
  }

  /** Automatic confirmation with no tap: the countdown expires and each
      distinct reachable node gets the alert message exactly once. */
  method ScenarioAutoConfirm()
  {
    var a := new AlertTriggerActivity(map[]);
    a.OnLayoutInflated();
    assert a.countdownRunning && a.totalTimeMs == Some(3500);
    a.OnConnected();
    a.OnTimerFinished(["phone", "tablet", "phone"], id => id == "tablet");
    assert "tablet" in ["phone", "tablet", "phone"];
    assert a.screen == Some(Confirmation(SuccessAnimation, Literal("Success")));
    assert multiset(a.sent)["phone"] == 1 && multiset(a.sent)["tablet"] == 1;
  }

  /** A tap during the countdown cancels and sends nothing. */
  method ScenarioTapCancels()
  {
    var a := new AlertTriggerActivity(map[PREF_KEY_USE_CONFIRMATION_BTN := BoolPref(false)]);
    a.OnLayoutInflated();
    a.OnConnected();
    a.OnTimerSelected(["phone"], id => true);
    assert a.sent == [] && a.screen == Some(Confirmation(FailureAnimation, AlertCancelled));
  }
}
