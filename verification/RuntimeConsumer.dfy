/**
  The urgency probe of the consumer (runtime_consumer.py, `UrgentInboxProbe`): it reads only records
  appended after the running delivery, each at most once.
 */
module RuntimeConsumer {
  import opened Common
  import opened InboxQueue

  /** A direct operator message other than the running delivery. */
  predicate Urgent(r: Record, current: string) {
    r.delivery != current && PriorityOf(r).DirectUser?
  }

  /** Record `j` is the newest urgent one from `k` on. */
  ghost predicate Newest(log: seq<Line>, k: nat, current: string, j: nat) {
    k <= j < |log| && Urgent(log[j], current) && forall i :: j < i < |log| ==> !Urgent(log[i], current)
  }

  /** It is a direct message, not the running delivery, and behind it there is no other. */
  lemma NewestMeans(log: seq<Line>, k: nat, current: string, j: nat)
    requires Newest(log, k, current, j)
    ensures PriorityOf(log[j]).DirectUser? && log[j].delivery != current
    ensures forall i :: j < i < |log| && PriorityOf(log[i]).DirectUser? ==> log[i].delivery == current
  {
    hide PriorityOf;
  }

  /** Among direct messages alone, the chosen one is the newest. */
  lemma NewestIsChosen(log: seq<Line>, found: seq<nat>, c: nat)
    requires found != [] && Positions(found, |log|) && Chosen(log, found, c)
    requires forall x :: 0 <= x < |found| ==> PriorityOf(log[found[x]]).DirectUser?
    ensures c == found[|found| - 1]
  {
    var last := found[|found| - 1];
    assert last in found;
    var x :| 0 <= x < |found| && found[x] == c;
    assert Preferred(log, c, last);
  }

  class UrgentInboxProbe {
    const current: string
    var offset: nat

    /** Start after the running delivery's own record, wherever the cursor is parked. */
    constructor (offer: Offer)
      ensures current == offer.delivery && offset == offer.recordEnd
    {
      current, offset := offer.delivery, offer.recordEnd;
    }

    /**
      The newest direct message since the last look, which ended at record `k`; all complete records are then
      read, and a torn tail of `torn` bytes is left for later. A shorter file was rotated: it is read from the start.
     */
    method NextDeliveryId(log: seq<Line>, k: nat, torn: nat) returns (id: Option<string>)
      requires k <= |log| && if Offset(log, |log|) + torn < offset then k == 0 else offset == Offset(log, k)
      modifies `offset
      ensures offset == Offset(log, |log|)
      ensures id.None? ==> forall j :: k <= j < |log| ==> !Urgent(log[j], current)
      ensures id.Some? ==> exists j: nat :: Newest(log, k, current, j) && id.value == log[j].delivery
    {
      var urgent: seq<nat> := [];
      hide PriorityOf;
      var size := StartOf(log, |log|);
      size := size + torn;
      if size < offset {
        offset := 0;
      }
      if size <= offset {
        OffsetsGrow(log, k, |log|);
        return None;
      }
      for i := k to |log|
        invariant offset == Offset(log, i) && Positions(urgent, i)
        invariant forall x :: 0 <= x < |urgent| ==> k <= urgent[x] && Urgent(log[urgent[x]], current)
        invariant forall j :: (if urgent == [] then k else urgent[|urgent| - 1] + 1) <= j < i ==> !Urgent(log[j], current)
      {
        var line := log[i];
        offset := offset + line.size;
        if line.delivery != current && PriorityOf(line).DirectUser? {
          urgent := urgent + [i];
        }
      }
      if urgent == [] {
        return None;
      }
      var offer := ChooseRecord(log, urgent, 0);
      ghost var c: nat :| Chosen(log, urgent, c) && offer == OfferOf(log, urgent, c, 0);
      NewestIsChosen(log, urgent, c);
      assert Newest(log, k, current, c);
      id := Some(offer.delivery);
    }
  }
}
