/** One location share (`sendLiveLocation`): the current position is texted
    to every recipient in turn and the outcome is summarised in exactly one
    notification. The messaging service's answers are inputs: whether it is
    available at all, and the result string of each send attempt. */
module LiveLocation {
  import opened Platform
  import opened Notices

  /** The result string of a delivered message; any other result is a failure. */
  const SentResult: string := "sent"

  /** A position, with latitude and longitude as the runtime renders them
      into text. */
  datatype Coords = Coords(latitude: string, longitude: string)

  /** What one share did: the messages it sent, in order, the recipients
      whose message was not delivered, in order, and its one notification. */
  datatype Dispatch = Dispatch(sends: seq<Sms>, failed: seq<string>, notice: string)

  /** The text message: both coordinates and a map link built from them. */
  function MessageBody(c: Coords): string
  {
    "My live location is:\nLatitude: " + c.latitude + ", Longitude: " + c.longitude
    + "\nhttps://www.google.com/maps?q=" + c.latitude + "," + c.longitude
  }

  /** The positions of the attempts whose result was not "sent", in
      increasing order: the reference for which recipients failed. */
  function FailedIndices(replies: seq<string>): (idx: seq<nat>)
    ensures forall k :: 0 <= k < |idx| ==> idx[k] < |replies|
    ensures forall k, l :: 0 <= k < l < |idx| ==> idx[k] < idx[l]
    ensures forall i :: 0 <= i < |replies| ==> (replies[i] != SentResult <==> i in idx)
    decreases |replies|
  {
    if |replies| == 0 then []
    else
      var init := FailedIndices(replies[..|replies| - 1]);
      assert forall i :: 0 <= i < |replies| - 1 ==> replies[..|replies| - 1][i] == replies[i];
      if replies[|replies| - 1] != SentResult then init + [|replies| - 1] else init
  }

  /** The recipients at the given positions, in the given order. */
  function Pick(recipients: seq<string>, idx: seq<nat>): seq<string>
    requires forall k :: 0 <= k < |idx| ==> idx[k] < |recipients|
  {
    seq(|idx|, k requires 0 <= k < |idx| => recipients[idx[k]])
  }

  /** The summary notification for a share over an available transport. */
  function DispatchNotice(failed: seq<string>): (n: string)
    ensures n == LocationSent <==> failed == []
    ensures failed != [] ==> n == FailurePrefix + Join(failed, Separator)
  {
    if |failed| > 0 then
      var n := FailurePrefix + Join(failed, Separator);
      assert n[0] != LocationSent[0];
      n
    else LocationSent
  }

  /** The share, as a whole. `replies[i]` is the result the messaging
      service gives for the attempt to `recipients[i]`. The failed list is
      the recipients at the failed positions, in order. */
  function Share(available: bool, coords: Coords, recipients: seq<string>, replies: seq<string>): (d: Dispatch)
    requires |replies| == |recipients|
    ensures !available ==> d.sends == [] && d.failed == [] && d.notice == SmsUnavailable
    ensures available ==> |d.sends| == |recipients|
    ensures available ==> forall i :: 0 <= i < |recipients| ==> d.sends[i] == Sms(recipients[i], MessageBody(coords))
    ensures available ==> |d.failed| == |FailedIndices(replies)|
    ensures available ==> forall k :: 0 <= k < |d.failed| ==> d.failed[k] == recipients[FailedIndices(replies)[k]]
    ensures available ==> (d.notice == LocationSent <==> forall i :: 0 <= i < |replies| ==> replies[i] == SentResult)
    ensures available && d.failed != [] ==> d.notice == FailurePrefix + Join(d.failed, Separator)
  {
    if available then
      var idx := FailedIndices(replies);
      var failed := Pick(recipients, idx);
      assert failed == [] <==> idx == [];
      assert idx != [] ==> replies[idx[0]] != SentResult;
      Dispatch(seq(|recipients|, i requires 0 <= i < |recipients| => Sms(recipients[i], MessageBody(coords))),
               failed, DispatchNotice(failed))
    else
      Dispatch([], [], SmsUnavailable)
  }

  /** Every recipient whose result is not "sent" is listed as failed, and no
      one else is. */
  lemma FailedAreTheUndelivered(coords: Coords, recipients: seq<string>, replies: seq<string>)
    requires |replies| == |recipients|
    ensures var d := Share(true, coords, recipients, replies);
            && (forall i :: 0 <= i < |recipients| && replies[i] != SentResult ==> recipients[i] in d.failed)
            && (forall r :: r in d.failed ==>
                  exists i :: 0 <= i < |recipients| && replies[i] != SentResult && recipients[i] == r)
  {
  }

  /** One message call per message, in order. */
  function SmsEffects(sends: seq<Sms>): seq<Effect>
  {
    if |sends| == 0 then [] else [SendSms(sends[0])] + SmsEffects(sends[1..])
  }

  /** The calls a share makes: the availability query, its messages in
      order, then its notification. */
  function DispatchEffects(d: Dispatch): seq<Effect>
  {
    [CheckSmsAvailable] + SmsEffects(d.sends) + [Notify(d.notice)]
  }

  /** The share as the app runs it: one awaited send per recipient, in list
      order, collecting the failures as it goes; a failure does not stop the
      loop. */
  method SendLiveLocation(available: bool, coords: Coords, recipients: seq<string>, replies: seq<string>)
    returns (d: Dispatch)
    requires |replies| == |recipients|
    ensures d == Share(available, coords, recipients, replies)
  {
    var body := MessageBody(coords);
    if available {
      var sends: seq<Sms> := [];
      var failed: seq<string> := [];
      for i := 0 to |recipients|
        invariant |sends| == i
        invariant forall j :: 0 <= j < i ==> sends[j] == Sms(recipients[j], body)
        invariant failed == Pick(recipients, FailedIndices(replies[..i]))
      {
        sends := sends + [Sms(recipients[i], body)];
        ghost var before := FailedIndices(replies[..i]);
        assert replies[..i + 1][..i] == replies[..i];
        if replies[i] != SentResult {
          assert FailedIndices(replies[..i + 1]) == before + [i];
          failed := failed + [recipients[i]];
        } else {
          assert FailedIndices(replies[..i + 1]) == before;
        }
      }
      assert replies[..|recipients|] == replies;
      d := Dispatch(sends, failed, DispatchNotice(failed));
    } else {
      d := Dispatch([], [], SmsUnavailable);
    }
  }

  lemma {:induction false} NoNotificationAmongSends(sends: seq<Sms>)
    ensures Notifications(SmsEffects(sends)) == []
    decreases |sends|
  {
    if |sends| > 0 {
      NoNotificationAmongSends(sends[1..]);
      NotificationsAppend([SendSms(sends[0])], SmsEffects(sends[1..]));
    }
  }

  /** Every share, on either path, first asks whether messaging is
      available, and emits exactly one notification, after all of its
      messages, and never one per recipient. */
  lemma ExactlyOneNotification(available: bool, coords: Coords, recipients: seq<string>, replies: seq<string>)
    requires |replies| == |recipients|
    ensures Notifications(DispatchEffects(Share(available, coords, recipients, replies)))
            == [Share(available, coords, recipients, replies).notice]
    ensures var es := DispatchEffects(Share(available, coords, recipients, replies));
            es[0] == CheckSmsAvailable && es[|es| - 1] == Notify(Share(available, coords, recipients, replies).notice)
  {
    var d := Share(available, coords, recipients, replies);
    NotificationsAppend([CheckSmsAvailable], SmsEffects(d.sends));
    NotificationsAppend([CheckSmsAvailable] + SmsEffects(d.sends), [Notify(d.notice)]);
    NoNotificationAmongSends(d.sends);
    assert [CheckSmsAvailable][1..] == [];
    assert [Notify(d.notice)][1..] == [];
  }

  /** The failure notice lists the failed recipients in the order they were
      tried: with B and C failing out of A, B, C it reads "B, C". */
  lemma FailuresListedInOrder(coords: Coords)
    ensures Share(true, coords, ["A", "B", "C"], ["sent", "cancelled", "unknown"]).notice
            == "Failed to send location to: B, C"
  {
    var replies := ["sent", "cancelled", "unknown"];
    assert replies[..2][..1] == ["sent"];
    assert replies[..2] == ["sent", "cancelled"];
    assert replies[..3] == replies;
    assert FailedIndices(["sent"]) == [];
    assert FailedIndices(replies[..2]) == [1];
    assert FailedIndices(replies) == [1, 2];
    assert Pick(["A", "B", "C"], [1, 2]) == ["B", "C"];
    assert Join(["B", "C"], Separator) == "B, C";
  }
}
