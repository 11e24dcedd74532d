/** Partial weight sharing between the value and the policy subtrainer
    (`_copy_model_weights`). A subtrainer is reduced to the two things the copy
    touches: its model weights, one block per layer, and the slot groups of its
    optimizer state (group 0 belongs to the model, the others to the loss). */
module WeightSharing {
  import opened Outcomes
  import opened PySlices

  /** The part of a subtrainer's state that sharing reads and writes. */
  datatype TrainerState<W, S> = TrainerState(weights: seq<W>, slots: seq<seq<S>>)

  /** A subtrainer's own `train_epoch(n_steps, n_epochs)`: an update of its state
      that the core does not inspect. */
  type Engine<!W, !S> = (TrainerState<W, S>, int, int) -> TrainerState<W, S>

  /** A supervised subtrainer, as far as the actor-critic core sees it. */
  class SubTrainer<W, S> {
    var modelWeights: seq<W>
    var slots: seq<seq<S>>

    constructor (weights: seq<W>, slotGroups: seq<seq<S>>)
      ensures State() == TrainerState(weights, slotGroups)
    {
      modelWeights := weights;
      slots := slotGroups;
    }

    function State(): TrainerState<W, S>
      reads this
    {
      TrainerState(modelWeights, slots)
    }

    /** Runs the subtrainer's optimisation; only its own state changes. */
    method TrainEpoch(nSteps: int, nEpochs: int, engine: Engine<W, S>)
      modifies this
      ensures State() == engine(old(State()), nSteps, nEpochs)
    {
      var next := engine(State(), nSteps, nEpochs);
      modelWeights := next.weights;
      slots := next.slots;
    }
  }

  /** The rebuilt slot group 0 exactly as the source computes it: it first takes
      `from[start:end]` and then slices THAT again with `[start:end]`. */
  function SlotSpliceAsWritten<S>(fromGroup: seq<S>, toGroup: seq<S>, start: int, end: int): (r: seq<S>)
    ensures var lo := Bound(start, |toGroup|); lo <= |r| && r[..lo] == toGroup[..lo]
    ensures var hi := Bound(end, |toGroup|); |toGroup| - hi <= |r| && r[|r| - (|toGroup| - hi)..] == toGroup[hi..]
    ensures 0 <= start < end <= |fromGroup| && end <= |toGroup| ==>
      |r| == |toGroup| - (if start <= end - start then start else end - start)
  {
    var fromSlots := Slice(fromGroup, start, end);
    Slice(toGroup, 0, start) + Slice(fromSlots, start, end) + Slice(toGroup, end, |toGroup|)
  }

  /** From the leading layer, which is the only way the trainer calls the copy,
      the double slice is harmless: it is the intended range copy. */
  lemma {:induction false} SlotSpliceAtZero<S>(fromGroup: seq<S>, toGroup: seq<S>, end: int)
    requires end >= 0
    ensures SlotSpliceAsWritten(fromGroup, toGroup, 0, end) == CopyRange(fromGroup, toGroup, 0, end)
  {
    var k := if end <= |fromGroup| then end else |fromGroup|;
    var h := if end <= |toGroup| then end else |toGroup|;
    assert Slice(fromGroup, 0, end) == fromGroup[..k];
    assert Slice(fromGroup[..k], 0, end) == fromGroup[..k];
    assert Slice(toGroup, 0, 0) == [];
    assert Slice(toGroup, end, |toGroup|) == toGroup[h..];
    CopyPrefix(fromGroup, toGroup, end);
  }

  /** From a later layer, when the range is no longer than its start, the second
      slice is empty: the source deletes the addressed slots of `to` instead of
      replacing them, so slot group 0 loses `end - start` entries. */
  lemma {:induction false} SlotSpliceDropsRange<S>(fromGroup: seq<S>, toGroup: seq<S>, start: int, end: int)
    requires 0 < start < end <= 2 * start
    requires end <= |fromGroup| && end <= |toGroup|
    ensures SlotSpliceAsWritten(fromGroup, toGroup, start, end) == toGroup[..start] + toGroup[end..]
    ensures |SlotSpliceAsWritten(fromGroup, toGroup, start, end)| == |toGroup| - (end - start)
    ensures SlotSpliceAsWritten(fromGroup, toGroup, start, end) != CopyRange(fromGroup, toGroup, start, end)
  {
    var fromSlots := Slice(fromGroup, start, end);
    assert |fromSlots| == end - start;
    assert Slice(fromSlots, start, end) == [] by {
      assert Bound(start, |fromSlots|) == end - start;
    }
    SliceInRange(toGroup, 0, start);
    SliceInRange(toGroup, end, |toGroup|);
    assert SlotSpliceAsWritten(fromGroup, toGroup, start, end) == toGroup[..start] + [] + toGroup[end..];
    CopyRangeReplacesOnlyRange(fromGroup, toGroup, start, end);
  }

  /** A concrete instance: copying layer 1 of three. */
  lemma SlotSpliceLayerOne()
    ensures SlotSpliceAsWritten([10, 11, 12], [20, 21, 22], 1, 2) == [20, 22]
    ensures CopyRange([10, 11, 12], [20, 21, 22], 1, 2) == [20, 11, 22]
  {
    SlotSpliceDropsRange([10, 11, 12], [20, 21, 22], 1, 2);
    CopyRangeReplacesOnlyRange([10, 11, 12], [20, 21, 22], 1, 2);
    assert [20, 21, 22][..1] + [20, 21, 22][2..] == [20, 22];
  }

  /** The new state of `to` after `_copy_model_weights(start, end, from, to,
      copySlots)`, and whether the call raised. The weights are written back
      before the slots are read, so an `IndexError` from an empty slot tuple
      leaves the new weights in place. */
  function CopyInto<W, S>(start: int, end: int, from: TrainerState<W, S>, to: TrainerState<W, S>,
                          copySlots: bool): (r: (TrainerState<W, S>, Outcome))
    ensures r.0.weights == CopyRange(from.weights, to.weights, start, end)
    ensures r.1.Fail? <==> copySlots && (|from.slots| == 0 || |to.slots| == 0)
    ensures r.1.Fail? ==> r.1.error == IndexError
    ensures r.1.Fail? || !copySlots ==> r.0.slots == to.slots
    ensures r.1.Pass? && copySlots ==>
      |r.0.slots| == |to.slots| &&
      r.0.slots[0] == SlotSpliceAsWritten(from.slots[0], to.slots[0], start, end) &&
      r.0.slots[1..] == to.slots[1..]
  {
    var weights := CopyRange(from.weights, to.weights, start, end);
    if !copySlots then (TrainerState(weights, to.slots), Pass)
    else if |from.slots| == 0 || |to.slots| == 0 then (TrainerState(weights, to.slots), Fail(IndexError))
    else
      var group := SlotSpliceAsWritten(from.slots[0], to.slots[0], start, end);
      (TrainerState(weights, [group] + Slice(to.slots, 1, |to.slots|)), Pass)
  }

  /** The copy used by the trainer: range `[0, n)` with slot copying on. The
      destination then starts with the first `n` weight blocks and slot-group-0
      entries of the source (fewer when the source has fewer) and keeps its own
      from `n` on; its other slot groups are untouched. */
  lemma {:induction false} CopyLeadingLayers<W, S>(n: int, from: TrainerState<W, S>, to: TrainerState<W, S>)
    requires n > 0
    requires |from.slots| > 0 && |to.slots| > 0
    ensures var r := CopyInto(0, n, from, to, true);
            var k := if n <= |from.weights| then n else |from.weights|;
            var h := if n <= |to.weights| then n else |to.weights|;
            var ks := if n <= |from.slots[0]| then n else |from.slots[0]|;
            var hs := if n <= |to.slots[0]| then n else |to.slots[0]|;
            && r.1 == Pass
            && r.0.weights == from.weights[..k] + to.weights[h..]
            && |r.0.slots| == |to.slots|
            && r.0.slots[0] == from.slots[0][..ks] + to.slots[0][hs..]
            && r.0.slots[1..] == to.slots[1..]
  {
    CopyPrefix(from.weights, to.weights, n);
    SlotSpliceAtZero(from.slots[0], to.slots[0], n);
    CopyPrefix(from.slots[0], to.slots[0], n);
  }

  /** `_copy_model_weights`: copy weight blocks `[start, end)` of `from` into
      `to` and, when `copySlots`, rebuild slot group 0 of `to` the way the source
      does. `from` is only read. */
  method CopyModelWeights<W, S>(start: int, end: int, from: SubTrainer<W, S>, to: SubTrainer<W, S>,
                                copySlots: bool) returns (outcome: Outcome)
    modifies to
    ensures (to.State(), outcome) == CopyInto(start, end, old(from.State()), old(to.State()), copySlots)
    ensures from != to ==> from.State() == old(from.State())
  {
    var fromWeights := from.modelWeights;
    var toWeights := to.modelWeights;
    var shared := Slice(fromWeights, start, end);
    toWeights := SliceAssign(toWeights, start, end, shared);
    to.modelWeights := toWeights;
    if copySlots {
      if |from.slots| == 0 || |to.slots| == 0 {
        return Fail(IndexError);
      }
      var fromSlots := Slice(from.slots[0], start, end);
      var toSlots := to.slots[0];
      var newSlots := Slice(toSlots, 0, start) + Slice(fromSlots, start, end) + Slice(toSlots, end, |toSlots|);
      to.slots := [newSlots] + Slice(to.slots, 1, |to.slots|);
    }
    outcome := Pass;
  }
}
