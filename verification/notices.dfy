/** The texts the app shows in its local notifications, and the list join
    used to build the delivery-failure notice. */
module Notices {

  const SmsUnavailable: string := "SMS is not available on this device."
  const LocationSent: string := "Live location has been sent!"
  const FailurePrefix: string := "Failed to send location to: "
  const Separator: string := ", "
  const SharingStarted: string := "Live location sharing started."
  const SharingStopped: string := "Live location sharing stopped."

  /** The parts written one after the other with `sep` between neighbours
      (the empty list gives the empty text). */
  function Join(parts: seq<string>, sep: string): string
    decreases |parts|
  {
    if |parts| == 0 then ""
    else if |parts| == 1 then parts[0]
    else parts[0] + sep + Join(parts[1..], sep)
  }

  /** Splitting the list anywhere inside it splits the joined text at one
      separator: the text is the parts in order with exactly one separator
      between each pair of neighbours. */
  lemma {:induction false} JoinSplit(parts: seq<string>, k: nat, sep: string)
    requires 0 < k < |parts|
    ensures Join(parts, sep) == Join(parts[..k], sep) + sep + Join(parts[k..], sep)
    decreases k
  {
    if k > 1 {
      JoinSplit(parts[1..], k - 1, sep);
      assert parts[1..][..k - 1] == parts[..k][1..];
      assert parts[1..][k - 1..] == parts[k..];
    } else {
      assert parts[..1] == [parts[0]];
    }
  }
}
