/** The two views of a catch-up scan agree: the messages GetMessages reads out of the store, and the seqs the
    delivery model hands to a subscription. */
module ScanAgreement {
  import opened Bytes
  import TopicLog
  import AtLeastOnce

  function SeqsOf(ms: seq<TopicLog.Message>): (ks: seq<nat>)
    ensures |ks| == |ms| && forall i :: 0 <= i < |ms| ==> ks[i] == ms[i].seqNo
  {
    if ms == [] then [] else [ms[0].seqNo] + SeqsOf(ms[1..])
  }

  lemma InRange(ms: seq<TopicLog.Message>, log: TopicLog.Log, from: uint64, limit: int)
    requires TopicLog.FirstRecords(ms, log, from, limit)
    ensures forall i :: 0 <= i < |ms| ==> from <= ms[i].seqNo < TWO_64 && ms[i].seqNo in log
    ensures forall i :: 0 <= i < |ms| ==> ms[0].seqNo <= ms[i].seqNo
  {
    forall i | 0 <= i < |ms| ensures from <= ms[i].seqNo < TWO_64 && ms[i].seqNo in log {
      assert TopicLog.IsRecord(ms[i], log, from);
    }
  }

  lemma HeadInLog(ms: seq<TopicLog.Message>, log: TopicLog.Log, from: uint64, limit: int)
    requires TopicLog.FirstRecords(ms, log, from, limit) && ms != []
    ensures exists n :: n in log && n >= from
  {
    InRange(ms, log, from, limit);
    var n: uint64 := ms[0].seqNo;
    assert n in log && n >= from;
  }

  lemma NothingFrom(ms: seq<TopicLog.Message>, log: TopicLog.Log, from: uint64, limit: int)
    requires TopicLog.FirstRecords(ms, log, from, limit) && (limit <= 0 || forall n | n in log :: n < from)
    ensures ms == []
  {
    if ms != [] && limit > 0 {
      HeadInLog(ms, log, from, limit);
      assert false;
    }
  }

  /** The record of seq `from`, when there is one, comes first, and the rest are the next limit - 1. */
  lemma HeadIsFrom(ms: seq<TopicLog.Message>, log: TopicLog.Log, from: uint64, limit: int)
    requires TopicLog.FirstRecords(ms, log, from, limit) && limit > 0 && from in log && from + 1 < TWO_64
    ensures ms != [] && ms[0].seqNo == from && TopicLog.FirstRecords(ms[1..], log, from + 1, limit - 1)
  {
    InRange(ms, log, from, limit);
    assert TopicLog.Listed(from, ms);
    var i :| 0 <= i < |ms| && ms[i].seqNo == from;
    assert ms[0].seqNo <= ms[i].seqNo;
    RestIsNext(ms, log, from, limit);
  }

  lemma RestIsNext(ms: seq<TopicLog.Message>, log: TopicLog.Log, from: uint64, limit: int)
    requires TopicLog.FirstRecords(ms, log, from, limit) && limit > 0 && from + 1 < TWO_64
    requires ms != [] && ms[0].seqNo == from
    ensures TopicLog.FirstRecords(ms[1..], log, from + 1, limit - 1)
  {
    var rest := ms[1..];
    forall i | 0 <= i < |rest| ensures TopicLog.IsRecord(rest[i], log, from + 1) {
      assert TopicLog.IsRecord(ms[i + 1], log, from) && ms[0].seqNo < ms[i + 1].seqNo;
    }
    forall n | n in log && n >= from + 1
      ensures limit - 1 <= 0 || TopicLog.Listed(n, rest) || (|rest| == limit - 1 && n > rest[limit - 2].seqNo)
    {
      if TopicLog.Listed(n, ms) {
        var i :| 0 <= i < |ms| && ms[i].seqNo == n;
        assert rest[i - 1].seqNo == n;
      }
    }
  }

  lemma SkipFrom(ms: seq<TopicLog.Message>, log: TopicLog.Log, from: uint64, limit: int)
    requires TopicLog.FirstRecords(ms, log, from, limit) && from !in log && from + 1 < TWO_64
    ensures TopicLog.FirstRecords(ms, log, from + 1, limit)
  {
    forall i | 0 <= i < |ms| ensures TopicLog.IsRecord(ms[i], log, from + 1) {
      assert TopicLog.IsRecord(ms[i], log, from);
    }
  }

  /** For every log, start and limit: the seqs of the messages read from the store are the seqs the delivery
      model's scan returns. */
  lemma {:induction false} ScansAgree(ms: seq<TopicLog.Message>, log: TopicLog.Log, stored: set<nat>, from: uint64, top: nat, limit: nat)
    requires TopicLog.FirstRecords(ms, log, from, limit)
    requires top + 1 < TWO_64 && forall n: nat :: n in stored <==> n < TWO_64 && n in log
    requires forall n | n in log :: n <= top
    ensures SeqsOf(ms) == AtLeastOnce.FirstFrom(stored, from, top, limit)
    decreases top + 1 - from
  {
    if limit == 0 || from > top {
      NothingFrom(ms, log, from, limit);
    } else if from in stored {
      HeadIsFrom(ms, log, from, limit);
      ScansAgree(ms[1..], log, stored, from + 1, top, limit - 1);
      assert SeqsOf(ms) == [from] + SeqsOf(ms[1..]);
    } else {
      SkipFrom(ms, log, from, limit);
      ScansAgree(ms, log, stored, from + 1, top, limit);
    }
  }
}
