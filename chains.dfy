/**
 * FormattingChannels in series: each one's destination channel is the next
 * filter, and the last one hands its message to an ordinary channel. Given
 * the formatters of the filters in the order a message meets them, this
 * module says what the final channel receives.
 */
module Chains {
  import opened Messages
  import opened Formatters
  import opened FormattingChannels

  /** The message the channel at the end of the chain receives for `msg`. */
  function ThroughChain(formatters: seq<Formatter?>, msg: Message): (r: Message)
    ensures SameEnvelope(r, msg)
    ensures (forall i :: 0 <= i < |formatters| ==> formatters[i] == null) ==> r == msg
    decreases |formatters|
  {
    if formatters == [] then msg else ThroughChain(formatters[1..], Forwarded(formatters[0], msg))
  }

  /** Putting two chains one behind the other is the chain of all their filters. */
  lemma {:induction false} ChainConcat(front: seq<Formatter?>, back: seq<Formatter?>, msg: Message)
    ensures ThroughChain(front + back, msg) == ThroughChain(back, ThroughChain(front, msg))
    decreases |front|
  {
    if front == [] {
      assert front + back == back;
    } else {
      assert (front + back)[1..] == front[1..] + back;
      ChainConcat(front[1..], back, Forwarded(front[0], msg));
    }
  }

  /**
   * When the last filter has a formatter, the text that arrives is that
   * formatter's rendering of what the filters before it passed on.
   */
  lemma LastFormatterDecidesText(formatters: seq<Formatter?>, msg: Message)
    requires |formatters| > 0 && formatters[|formatters| - 1] != null
    ensures ThroughChain(formatters, msg).text
         == formatters[|formatters| - 1].render(ThroughChain(formatters[..|formatters| - 1], msg))
  {
    var n := |formatters|;
    assert formatters == formatters[..n - 1] + [formatters[n - 1]];
    ChainConcat(formatters[..n - 1], [formatters[n - 1]], msg);
  }
}
