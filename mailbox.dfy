/** The part of a mailbox a receive loop that stops at a shutdown message
    gets to handle. */
module Mailbox {

  /** The index of the first message `stop` picks out, or the whole length
      when there is none: the loop handles exactly the messages before it. */
  function UntilFirst<M>(msgs: seq<M>, stop: M -> bool): (n: nat)
    ensures n <= |msgs|
    ensures forall j :: 0 <= j < n ==> !stop(msgs[j])
    ensures n < |msgs| ==> stop(msgs[n])
    decreases |msgs|
  {
    if msgs == [] || stop(msgs[0]) then 0 else 1 + UntilFirst(msgs[1..], stop)
  }
}
