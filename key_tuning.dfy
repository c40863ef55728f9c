/**
 * The key-tuning table of the FluidSynth synthesizer: two parallel lists, the
 * MIDI keys and the pitch each is tuned to, in cents (100 cents per
 * semitone, so key `k` untuned sits at `k * 100`).
 *
 * Pitches are `real`: the table's `double` arithmetic is modelled exactly.
 */
module FluidSynthTuning {

  /** The pitch `add(key, tuning)` records: the key's equal-tempered pitch plus the offset. */
  function Pitch(key: int, tuning: real): real
  {
    key as real * 100.0 + tuning
  }

  /** A key with no tuning offset sits on its equal-tempered pitch. */
  lemma UntunedPitch(key: int)
    ensures Pitch(key, 0.0) == (key * 100) as real
  {
  }

  /** The tuning offset is what separates the recorded pitch from the untuned one. */
  lemma PitchOffset(key: int, tuning: real)
    ensures Pitch(key, tuning) - Pitch(key, 0.0) == tuning
    ensures Pitch(key + 1, tuning) == Pitch(key, tuning) + 100.0
  {
  }

  class KeyTuning {
    var keys: seq<int>
    var pitches: seq<real>

    /** Both lists describe the same entries. */
    ghost predicate Valid()
      reads this
    {
      |keys| == |pitches|
    }

    constructor ()
      ensures Valid() && keys == [] && pitches == []
    {
      keys := [];
      pitches := [];
    }

    /** `add(key, tuning)`. */
    method Add(key: int, tuning: real)
      modifies this
      ensures keys == old(keys) + [key]
      ensures pitches == old(pitches) + [Pitch(key, tuning)]
      ensures Size() == old(Size()) + 1
      ensures old(Valid()) ==> Valid()
    {
      keys := keys + [key];
      pitches := pitches + [Pitch(key, tuning)];
    }

    /** `size()`: the number of keys. */
    function Size(): nat
      reads this
    {
      |keys|
    }

    /** `reset()`. */
    method Reset()
      modifies this
      ensures keys == [] && pitches == []
      ensures Valid() && Size() == 0 && IsEmpty()
    {
      keys := [];
      pitches := [];
    }

    /** `isEmpty()`: both lists are empty. */
    predicate IsEmpty()
      reads this
    {
      keys == [] && pitches == []
    }

    /** Under the representation invariant, emptiness is a size of zero. */
    lemma EmptyIffNoEntries()
      requires Valid()
      ensures IsEmpty() <==> Size() == 0
    {
    }

    /** Without the invariant a table with pitches but no keys has size 0 and is not empty. */
    lemma EmptyNeedsBothLists()
      requires keys == [] && pitches != []
      ensures Size() == 0 && !IsEmpty()
    {
    }
  }
}
