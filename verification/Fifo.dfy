/** What a send pipeline promises its user, with nothing of how it works: a bounded first-in
    first-out channel of bytes.  Both network models are proved to be one. */
module Fifo {
  import opened Types

  /** `accepted` is every byte the channel took, `wire` every byte it has put on the network. */
  datatype Channel = Channel(capacity: nat, accepted: seq<byte>, wire: seq<byte>)

  /** Nothing is lost, duplicated or reordered, and no more than `capacity` bytes are pending. */
  ghost predicate Sound(c: Channel) {
    && c.wire <= c.accepted
    && |c.accepted| - |c.wire| <= c.capacity
  }

  /** The channel takes some bytes behind those it has, or transmits some of the oldest pending
      ones, or does nothing. */
  ghost predicate Next(c: Channel, d: Channel) {
    && d.capacity == c.capacity
    && Sound(d)
    && c.accepted <= d.accepted
    && c.wire <= d.wire
    && (c.accepted == d.accepted || c.wire == d.wire)
  }

  /** Every state of a run, not only the last one, follows from the one before. */
  ghost predicate IsRun(run: seq<Channel>) {
    && run != []
    && Sound(run[0])
    && forall i :: 0 < i < |run| ==> Next(run[i - 1], run[i])
  }

  /** Over a whole run: what has been accepted or transmitted is never taken back, and what is on
      the wire at one moment has been accepted by every later moment, in the same order. */
  lemma {:induction false} RunsOnlyGrow(run: seq<Channel>, i: nat, j: nat)
    requires IsRun(run) && i <= j < |run|
    ensures Sound(run[j])
    ensures run[i].accepted <= run[j].accepted && run[i].wire <= run[j].wire <= run[j].accepted
    decreases j
  {
    if i < j {
      RunsOnlyGrow(run, i, j - 1);
      assert Next(run[j - 1], run[j]);
    } else if 0 < j {
      assert Next(run[j - 1], run[j]);
    }
  }

  /** A run continued at the front. */
  lemma RunFrom(c: Channel, run: seq<Channel>)
    requires Sound(c) && IsRun(run) && Next(c, run[0])
    ensures IsRun([c] + run)
  {
    var longer := [c] + run;
    forall i | 0 < i < |longer| ensures Next(longer[i - 1], longer[i]) {
      if 1 < i {
        assert longer[i - 1] == run[i - 2] && longer[i] == run[i - 1];
      }
    }
  }
}
