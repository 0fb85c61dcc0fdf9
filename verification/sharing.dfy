/** The live-location sharing session (`startSharingLocation`,
    `stopSharingLocation` and the position callback). Its state is the
    `isSharing` flag, the stored subscription handle and the last known
    position. The position service's answers are inputs: the handle a
    subscription returns, and each reported position together with the
    messaging service's answers to the share it triggers. */
module Sharing {
  import opened Platform
  import opened Notices
  import LiveLocation

  /** The subscription the session asks for: high accuracy, an update at
      most every 10 seconds or every 20 metres. */
  const WatchConfig: WatchOptions := WatchOptions(High, 10000, 20)

  datatype Session = Session(isSharing: bool, watcher: Option<Watcher>, location: Option<LiveLocation.Coords>)

  /** The session when the app has just started. */
  const Idle: Session := Session(false, None, None)

  /** The session's own invariant: while sharing, a handle is stored. (The
      converse does not hold: stopping keeps the handle.) */
  ghost predicate Valid(s: Session)
  {
    s.isSharing ==> s.watcher.Some?
  }

  /** Start sharing. `handle` is what the position service returns for the
      subscription. A start while sharing does nothing at all. */
  function Start(s: Session, handle: Watcher): (r: Step<Session>)
    ensures r.state.isSharing && r.state.location == s.location
    ensures Valid(s) ==> Valid(r.state)
    ensures s.isSharing ==> r == Step(s, [])
    ensures !s.isSharing ==> r.state.watcher == Some(handle)
    ensures !s.isSharing ==> Count(r.effects, IsWatch) == 1 && r.effects[0] == WatchPosition(WatchConfig)
    ensures !s.isSharing ==> Notifications(r.effects) == [SharingStarted] && |r.effects| == 2
  {
    if s.isSharing then Step(s, [])
    else
      var calls := [WatchPosition(WatchConfig), Notify(SharingStarted)];
      assert calls[1..] == [Notify(SharingStarted)] && calls[1..][1..] == [];
      assert Count(calls[1..], IsWatch) == 0 && Notifications(calls[1..]) == [SharingStarted];
      Step(s.(isSharing := true, watcher := Some(handle)), calls)
  }

  /** Stop sharing: always ends not sharing and always notifies; removes the
      stored subscription if there is one, but keeps the handle. */
  function Stop(s: Session): (r: Step<Session>)
    ensures !r.state.isSharing
    ensures r.state.watcher == s.watcher && r.state.location == s.location
    ensures Notifications(r.effects) == [SharingStopped]
    ensures Count(r.effects, IsRemove) == (if s.watcher.Some? then 1 else 0)
    ensures |r.effects| == Count(r.effects, IsRemove) + 1
    ensures s.watcher.Some? ==> RemoveWatch(s.watcher.value) in r.effects
    ensures Valid(r.state)
  {
    var removal := if s.watcher.Some? then [RemoveWatch(s.watcher.value)] else [];
    NotificationsAppend(removal, [Notify(SharingStopped)]);
    CountAppend(removal, [Notify(SharingStopped)], IsRemove);
    assert [Notify(SharingStopped)][1..] == [];
    Step(s.(isSharing := false), removal + [Notify(SharingStopped)])
  }

  /** One report from the position service: the new position, and the
      messaging service's answers to the share it triggers. */
  datatype Update = Update(coords: LiveLocation.Coords, smsAvailable: bool, replies: seq<string>)

  /** The position callback: records the position, then shares it once. */
  function OnPosition(s: Session, recipients: seq<string>, u: Update): (r: Step<Session>)
    requires |u.replies| == |recipients|
    ensures r.state == s.(location := Some(u.coords))
    ensures r.effects == LiveLocation.DispatchEffects(LiveLocation.Share(u.smsAvailable, u.coords, recipients, u.replies))
    ensures Notifications(r.effects) == [LiveLocation.Share(u.smsAvailable, u.coords, recipients, u.replies).notice]
    ensures Count(r.effects, IsWatch) == 0 && Count(r.effects, IsRemove) == 0
  {
    var d := LiveLocation.Share(u.smsAvailable, u.coords, recipients, u.replies);
    LiveLocation.ExactlyOneNotification(u.smsAvailable, u.coords, recipients, u.replies);
    NoSubscriptionCallsInShare(d);
    Step(s.(location := Some(u.coords)), LiveLocation.DispatchEffects(d))
  }

  lemma {:induction false} NoSubscriptionCallsInSends(sends: seq<Sms>)
    ensures Count(LiveLocation.SmsEffects(sends), IsWatch) == 0
    ensures Count(LiveLocation.SmsEffects(sends), IsRemove) == 0
    decreases |sends|
  {
    if |sends| > 0 {
      NoSubscriptionCallsInSends(sends[1..]);
      CountAppend([SendSms(sends[0])], LiveLocation.SmsEffects(sends[1..]), IsWatch);
      CountAppend([SendSms(sends[0])], LiveLocation.SmsEffects(sends[1..]), IsRemove);
    }
  }

  lemma NoSubscriptionCallsInShare(d: LiveLocation.Dispatch)
    ensures Count(LiveLocation.DispatchEffects(d), IsWatch) == 0
    ensures Count(LiveLocation.DispatchEffects(d), IsRemove) == 0
  {
    var head := [CheckSmsAvailable] + LiveLocation.SmsEffects(d.sends);
    NoSubscriptionCallsInSends(d.sends);
    CountAppend([CheckSmsAvailable], LiveLocation.SmsEffects(d.sends), IsWatch);
    CountAppend([CheckSmsAvailable], LiveLocation.SmsEffects(d.sends), IsRemove);
    CountAppend(head, [Notify(d.notice)], IsWatch);
    CountAppend(head, [Notify(d.notice)], IsRemove);
    assert [CheckSmsAvailable][1..] == [];
    assert [Notify(d.notice)][1..] == [];
  }

  /** What drives the session: the two buttons and the position reports. */
  datatype Command = StartPressed(handle: Watcher) | StopPressed | Position(update: Update)

  /** Every position report carries one answer per recipient. */
  predicate WellFormed(cmds: seq<Command>, recipients: seq<string>)
  {
    forall i :: 0 <= i < |cmds| && cmds[i].Position? ==> |cmds[i].update.replies| == |recipients|
  }

  /** The session after a series of commands, handled one after the other. */
  function Run(s: Session, recipients: seq<string>, cmds: seq<Command>): Step<Session>
    requires WellFormed(cmds, recipients)
    decreases |cmds|
  {
    if |cmds| == 0 then Step(s, [])
    else
      var first := match cmds[0]
        case StartPressed(h) => Start(s, h)
        case StopPressed => Stop(s)
        case Position(u) => OnPosition(s, recipients, u);
      var rest := Run(first.state, recipients, cmds[1..]);
      Step(rest.state, first.effects + rest.effects)
  }

  /** The session's invariant holds after any series of commands. */
  lemma {:induction false} RunKeepsValid(s: Session, recipients: seq<string>, cmds: seq<Command>)
    requires Valid(s) && WellFormed(cmds, recipients)
    ensures Valid(Run(s, recipients, cmds).state)
    decreases |cmds|
  {
    if |cmds| > 0 {
      var first := match cmds[0]
        case StartPressed(h) => Start(s, h)
        case StopPressed => Stop(s)
        case Position(u) => OnPosition(s, recipients, u);
      assert Valid(first.state);
      RunKeepsValid(first.state, recipients, cmds[1..]);
    }
  }

  /** Only start presses. */
  predicate AllStarts(cmds: seq<Command>)
  {
    forall i :: 0 <= i < |cmds| ==> cmds[i].StartPressed?
  }

  /** While sharing, further start presses change nothing and call nothing. */
  lemma {:induction false} StartsWhileSharingDoNothing(s: Session, recipients: seq<string>, cmds: seq<Command>)
    requires s.isSharing && AllStarts(cmds)
    ensures WellFormed(cmds, recipients)
    ensures Run(s, recipients, cmds) == Step(s, [])
    decreases |cmds|
  {
    if |cmds| > 0 {
      StartsWhileSharingDoNothing(s, recipients, cmds[1..]);
    }
  }

  /** Pressing start any number of times without a stop subscribes exactly
      once, keeps the first handle, and notifies once. */
  lemma RepeatedStartSubscribesOnce(s: Session, recipients: seq<string>, cmds: seq<Command>)
    requires !s.isSharing && |cmds| > 0 && AllStarts(cmds)
    ensures WellFormed(cmds, recipients)
    ensures Run(s, recipients, cmds).state.watcher == Some(cmds[0].handle)
    ensures Count(Run(s, recipients, cmds).effects, IsWatch) == 1
    ensures Notifications(Run(s, recipients, cmds).effects) == [SharingStarted]
  {
    var first := Start(s, cmds[0].handle);
    StartsWhileSharingDoNothing(first.state, recipients, cmds[1..]);
    assert first.effects + [] == first.effects;
  }

  /** Only position reports. */
  predicate AllPositions(cmds: seq<Command>)
  {
    forall i :: 0 <= i < |cmds| ==> cmds[i].Position?
  }

  /** Position reports never touch the subscription, and each yields exactly
      one notification. */
  lemma {:induction false} OneNotificationPerUpdate(s: Session, recipients: seq<string>, cmds: seq<Command>)
    requires AllPositions(cmds) && WellFormed(cmds, recipients)
    ensures |Notifications(Run(s, recipients, cmds).effects)| == |cmds|
    ensures Run(s, recipients, cmds).state.isSharing == s.isSharing
    ensures Run(s, recipients, cmds).state.watcher == s.watcher
    ensures Count(Run(s, recipients, cmds).effects, IsWatch) == 0
    ensures Count(Run(s, recipients, cmds).effects, IsRemove) == 0
    decreases |cmds|
  {
    if |cmds| > 0 {
      var first := OnPosition(s, recipients, cmds[0].update);
      OneNotificationPerUpdate(first.state, recipients, cmds[1..]);
      var rest := Run(first.state, recipients, cmds[1..]);
      NotificationsAppend(first.effects, rest.effects);
      CountAppend(first.effects, rest.effects, IsWatch);
      CountAppend(first.effects, rest.effects, IsRemove);
    }
  }

  /** Stopping does not forget the handle: a second stop, with sharing
      already off, asks the position service to remove the same
      subscription again, and notifies again. */
  lemma SecondStopRemovesStaleHandle(handle: Watcher)
    ensures var stopped := Stop(Start(Idle, handle).state).state;
            !stopped.isSharing
            && Stop(stopped).effects == [RemoveWatch(handle), Notify(SharingStopped)]
  {
  }

  /** Which of the two sharing buttons the screen offers. They belong to the
      map screen, so none is offered while the camera view is shown. */
  datatype Control = StartSharingButton | StopSharingButton

  function Controls(s: Session, cameraVisible: bool): set<Control>
  {
    if cameraVisible then {}
    else if s.isSharing then {StopSharingButton} else {StartSharingButton}
  }

  /** While the map screen is shown, exactly one sharing button is offered,
      and pressing it always changes whether the session is sharing: through
      the screen, a start never meets a running session and a stop never
      meets a stopped one. While the camera view is shown, neither is
      offered. */
  lemma OfferedButtonToggles(s: Session, cameraVisible: bool, handle: Watcher)
    ensures cameraVisible ==> Controls(s, cameraVisible) == {}
    ensures !cameraVisible ==> |Controls(s, cameraVisible)| == 1
    ensures StartSharingButton in Controls(s, cameraVisible) ==> Start(s, handle).state.isSharing != s.isSharing
    ensures StopSharingButton in Controls(s, cameraVisible) ==> Stop(s).state.isSharing != s.isSharing
  {
  }
}
