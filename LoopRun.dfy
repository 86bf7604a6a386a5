/** The iteration skeleton that both loop drivers share: iterations are
    numbered from 1, at most `maxLoops` of them start, an iteration whose
    stages raised ends the run without a record, and an iteration whose
    record fails the continuation test ends the run after it is recorded.

    `step(k, acc)` is what iteration `k` records when `acc` holds the
    records this run has appended so far (None: a stage raised), and
    `cont(rec, k)` is the continuation test applied to the k-th record. */
module LoopRun {
  import opened Records

  /** The records a run has appended and the value `current_loop` ends at. */
  datatype RunState = RunState(records: seq<LoopRecord>, lastLoop: nat)

  /** The run from the point where `k` iterations have started and `acc`
      holds the records appended so far. */
  function RunFrom(step: (nat, seq<LoopRecord>) -> Option<LoopRecord>, cont: (LoopRecord, nat) -> bool,
                   maxLoops: nat, k: nat, acc: seq<LoopRecord>): RunState
    decreases maxLoops - k
  {
    if k >= maxLoops then RunState(acc, k)
    else
      match step(k + 1, acc)
      case None => RunState(acc, k + 1)
      case Some(rec) =>
        if cont(rec, k + 1) then RunFrom(step, cont, maxLoops, k + 1, acc + [rec])
        else RunState(acc + [rec], k + 1)
  }

  /** One iteration of the run: it raised, stopped the loop, or let it go on. */
  lemma RunFromStep(step: (nat, seq<LoopRecord>) -> Option<LoopRecord>, cont: (LoopRecord, nat) -> bool,
                    maxLoops: nat, k: nat, acc: seq<LoopRecord>)
    requires k < maxLoops
    ensures step(k + 1, acc).None? ==> RunFrom(step, cont, maxLoops, k, acc) == RunState(acc, k + 1)
    ensures step(k + 1, acc).Some? && !cont(step(k + 1, acc).value, k + 1) ==>
      RunFrom(step, cont, maxLoops, k, acc) == RunState(acc + [step(k + 1, acc).value], k + 1)
    ensures step(k + 1, acc).Some? && cont(step(k + 1, acc).value, k + 1) ==>
      RunFrom(step, cont, maxLoops, k, acc) == RunFrom(step, cont, maxLoops, k + 1, acc + [step(k + 1, acc).value])
  {
  }

  function Run(step: (nat, seq<LoopRecord>) -> Option<LoopRecord>, cont: (LoopRecord, nat) -> bool,
               maxLoops: nat): RunState
  {
    RunFrom(step, cont, maxLoops, 0, [])
  }

  /** Each record is what its iteration produced given the records before
      it, and every record but the last let the loop continue. */
  ghost predicate Faithful(step: (nat, seq<LoopRecord>) -> Option<LoopRecord>, cont: (LoopRecord, nat) -> bool,
                           recs: seq<LoopRecord>)
  {
    (forall i :: 0 <= i < |recs| ==> step(i + 1, recs[..i]) == Some(recs[i])) &&
    (forall i :: 0 <= i < |recs| - 1 ==> cont(recs[i], i + 1))
  }

  /** Appending the record of the next iteration keeps the records faithful. */
  lemma FaithfulSnoc(step: (nat, seq<LoopRecord>) -> Option<LoopRecord>, cont: (LoopRecord, nat) -> bool,
                     acc: seq<LoopRecord>, rec: LoopRecord)
    requires Faithful(step, cont, acc)
    requires acc != [] ==> cont(acc[|acc| - 1], |acc|)
    requires step(|acc| + 1, acc) == Some(rec)
    ensures Faithful(step, cont, acc + [rec])
  {
    var acc' := acc + [rec];
    forall i | 0 <= i < |acc'|
      ensures step(i + 1, acc'[..i]) == Some(acc'[i])
    {
      if i < |acc| {
        assert acc'[..i] == acc[..i];
      } else {
        assert acc'[..i] == acc;
      }
    }
  }

  /** How many iterations a run starts and records, from any point. */
  lemma {:induction false} RunFromBounds(step: (nat, seq<LoopRecord>) -> Option<LoopRecord>, cont: (LoopRecord, nat) -> bool,
                                         maxLoops: nat, k: nat, acc: seq<LoopRecord>)
    requires |acc| == k <= maxLoops
    ensures var st := RunFrom(step, cont, maxLoops, k, acc);
      |st.records| <= st.lastLoop <= maxLoops && st.lastLoop <= |st.records| + 1 &&
      |st.records| >= k && st.records[..k] == acc && (k < maxLoops ==> st.lastLoop > k)
    decreases maxLoops - k
  {
    if k < maxLoops {
      var it := step(k + 1, acc);
      if it.Some? && cont(it.value, k + 1) {
        var acc' := acc + [it.value];
        RunFromBounds(step, cont, maxLoops, k + 1, acc');
        var st := RunFrom(step, cont, maxLoops, k + 1, acc');
        assert st.records[..k] == st.records[..k + 1][..k];
        assert acc'[..k] == acc;
      } else if it.Some? {
        assert (acc + [it.value])[..k] == acc;
      }
    } else {
      assert acc[..k] == acc;
    }
  }

  /** Every record a run appends is faithful to its iteration. */
  lemma {:induction false} RunFromFaithful(step: (nat, seq<LoopRecord>) -> Option<LoopRecord>, cont: (LoopRecord, nat) -> bool,
                                           maxLoops: nat, k: nat, acc: seq<LoopRecord>)
    requires |acc| == k
    requires Faithful(step, cont, acc)
    requires acc != [] ==> cont(acc[k - 1], k)
    ensures Faithful(step, cont, RunFrom(step, cont, maxLoops, k, acc).records)
    decreases maxLoops - k
  {
    if k < maxLoops {
      var it := step(k + 1, acc);
      if it.Some? {
        FaithfulSnoc(step, cont, acc, it.value);
        if cont(it.value, k + 1) {
          RunFromFaithful(step, cont, maxLoops, k + 1, acc + [it.value]);
        }
      }
    }
  }

  /** Why a run ended: a stage raised, the maximum was reached, or the last
      record failed the continuation test. */
  lemma {:induction false} RunFromEnd(step: (nat, seq<LoopRecord>) -> Option<LoopRecord>, cont: (LoopRecord, nat) -> bool,
                                      maxLoops: nat, k: nat, acc: seq<LoopRecord>)
    requires |acc| == k <= maxLoops
    requires acc != [] ==> cont(acc[k - 1], k)
    ensures var st := RunFrom(step, cont, maxLoops, k, acc);
      (st.lastLoop == |st.records| + 1 ==> step(st.lastLoop, st.records) == None) &&
      (st.lastLoop == |st.records| ==>
         st.lastLoop == maxLoops || (st.records != [] && !cont(st.records[|st.records| - 1], |st.records|)))
    decreases maxLoops - k
  {
    if k < maxLoops {
      var it := step(k + 1, acc);
      if it.Some? && cont(it.value, k + 1) {
        RunFromEnd(step, cont, maxLoops, k + 1, acc + [it.value]);
      }
    }
  }

  /** A run is determined by its iterations: at most `maxLoops` start, the
      records are those of iterations 1..n in order, only the last record
      may fail the continuation test, a run that started one iteration more
      than it recorded ended on an iteration whose stages raised, and a run
      that recorded every iteration it started and ended before the maximum
      ended on a record that failed the continuation test. */
  lemma RunShape(step: (nat, seq<LoopRecord>) -> Option<LoopRecord>, cont: (LoopRecord, nat) -> bool, maxLoops: nat)
    ensures var st := Run(step, cont, maxLoops);
      |st.records| <= st.lastLoop <= maxLoops && st.lastLoop <= |st.records| + 1 &&
      (maxLoops >= 1 ==> st.lastLoop >= 1) &&
      Faithful(step, cont, st.records) &&
      (st.lastLoop == |st.records| + 1 ==> step(st.lastLoop, st.records) == None) &&
      (st.lastLoop == |st.records| < maxLoops ==>
         st.records != [] && !cont(st.records[|st.records| - 1], |st.records|))
  {
    RunFromBounds(step, cont, maxLoops, 0, []);
    RunFromFaithful(step, cont, maxLoops, 0, []);
    RunFromEnd(step, cont, maxLoops, 0, []);
  }

  /** A run stops at the first record that fails the continuation test: if
      the k-th record fails it, there are exactly k records. */
  lemma RunStopsAt(step: (nat, seq<LoopRecord>) -> Option<LoopRecord>, cont: (LoopRecord, nat) -> bool,
                   maxLoops: nat, k: nat)
    requires var st := Run(step, cont, maxLoops);
      1 <= k <= |st.records| && !cont(st.records[k - 1], k)
    ensures |Run(step, cont, maxLoops).records| == k
  {
    RunShape(step, cont, maxLoops);
  }
}
