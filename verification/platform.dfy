/** The device services the app drives (position, text messages, local
    notifications, camera), seen from the app's side: the calls the app
    makes on them are recorded as `Effect`s, and every answer they give is
    passed in as an argument. The media-library calls of the gallery save
    are logged separately, as `Gallery.Call`s; here only the hand-off of a
    finished recording to that save routine appears, as `SaveVideo`. */
module Platform {

  /** A value that may be absent (the app's `null`). */
  datatype Option<+T> = None | Some(value: T)

  /** Accuracy levels the position service accepts for a subscription. */
  datatype Accuracy = Lowest | Low | Balanced | High | Highest | BestForNavigation

  /** Configuration of a position subscription: the service reports a new
      position at most every `timeIntervalMs` milliseconds or after
      `distanceIntervalM` metres of movement. */
  datatype WatchOptions = WatchOptions(accuracy: Accuracy, timeIntervalMs: nat, distanceIntervalM: nat)

  /** The handle the position service returns for a subscription. */
  datatype Watcher = Watcher(id: nat)

  /** One text message handed to the messaging service. */
  datatype Sms = Sms(recipient: string, message: string)

  /** A call the app makes on a device service, or (`SaveVideo`) the
      hand-off of a recording to the app's own gallery save. */
  datatype Effect =
    | CheckSmsAvailable
    | Notify(body: string)
    | SendSms(sms: Sms)
    | WatchPosition(options: WatchOptions)
    | RemoveWatch(watcher: Watcher)
    | RequestCameraPermission
    | RecordVideo
    | StopVideo
    | SaveVideo(uri: string)

  /** A state together with the calls made while reaching it, in order. */
  datatype Step<S> = Step(state: S, effects: seq<Effect>)

  /** The bodies of the notifications among `es`, in order. */
  function Notifications(es: seq<Effect>): seq<string>
  {
    if |es| == 0 then []
    else (if es[0].Notify? then [es[0].body] else []) + Notifications(es[1..])
  }

  /** How many of `es` satisfy `p`. */
  function Count(es: seq<Effect>, p: Effect -> bool): nat
  {
    if |es| == 0 then 0
    else (if p(es[0]) then 1 else 0) + Count(es[1..], p)
  }

  lemma {:induction false} NotificationsAppend(a: seq<Effect>, b: seq<Effect>)
    ensures Notifications(a + b) == Notifications(a) + Notifications(b)
  {
    if |a| == 0 {
      assert a + b == b;
    } else {
      assert (a + b)[1..] == a[1..] + b;
      NotificationsAppend(a[1..], b);
    }
  }

  lemma {:induction false} CountAppend(a: seq<Effect>, b: seq<Effect>, p: Effect -> bool)
    ensures Count(a + b, p) == Count(a, p) + Count(b, p)
  {
    if |a| == 0 {
      assert a + b == b;
    } else {
      assert (a + b)[1..] == a[1..] + b;
      CountAppend(a[1..], b, p);
    }
  }

  predicate IsWatch(e: Effect) { e.WatchPosition? }
  predicate IsRemove(e: Effect) { e.RemoveWatch? }
  predicate IsRecord(e: Effect) { e.RecordVideo? }
  predicate IsSave(e: Effect) { e.SaveVideo? }
}
