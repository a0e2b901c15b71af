/** Block-rate rules of the noise generator plugin: when inaudible mode is
    impossible, how a block is cut into chunks that fit the scratch buffer, and
    what ends up in a channel's output. Sample values are reals; what the
    noise library and the inaudibility filter produce is given, not computed. */
module Processing {
  import opened Selectors

  /** Length of the scratch buffer, in samples. */
  const BUFFER_SIZE: nat := 0x1000
  /** Order of the inaudibility highpass. */
  const INA_FILTER_ORD: nat := 64
  /** Cutoff of the inaudibility highpass, in hertz. */
  const INA_FILTER_CUTOFF: real := 22050.0
  /** Gain applied to the noise before the inaudibility highpass. */
  const INA_ATTENUATION: real := 0.5
  /** Order of the colouring filter. */
  const COLOR_FILTER_ORDER: nat := 32

  /** Inaudible mode is impossible when the Nyquist frequency lies below the
      highpass cutoff: that is, below a sample rate of 44100 Hz. */
  function ForceAudible(sr: int): (force: bool)
    ensures force <==> sr < 44100
  {
    0.5 * (sr as real) < INA_FILTER_CUTOFF
  }

  function Sum(s: seq<nat>): nat
  {
    if s == [] then 0 else s[0] + Sum(s[1..])
  }

  /** The chunk sizes the inaudible path works through for a block of count
      samples: as many as fit the scratch buffer, until none is left. */
  function Chunks(count: nat): seq<nat>
    decreases count
  {
    if count == 0 then []
    else
      var toDo := if count > BUFFER_SIZE then BUFFER_SIZE else count;
      [toDo] + Chunks(count - toDo)
  }

  /** Taking the next chunk off a non-empty count. */
  lemma ChunksStep(count: nat, toDo: nat)
    requires count > 0 && toDo == if count > BUFFER_SIZE then BUFFER_SIZE else count
    ensures Chunks(count) == [toDo] + Chunks(count - toDo)
  {
  }

  /** The chunks are never empty, never exceed the scratch buffer, all but the
      last fill it completely, there are as few as possible, and together they
      cover exactly the requested count. */
  lemma {:induction false} ChunksCover(count: nat)
    ensures Sum(Chunks(count)) == count
    ensures |Chunks(count)| == (count + BUFFER_SIZE - 1) / BUFFER_SIZE
    ensures forall i :: 0 <= i < |Chunks(count)| ==> 0 < Chunks(count)[i] <= BUFFER_SIZE
    ensures forall i :: 0 <= i < |Chunks(count)| - 1 ==> Chunks(count)[i] == BUFFER_SIZE
    decreases count
  {
    if count > 0 {
      var toDo := if count > BUFFER_SIZE then BUFFER_SIZE else count;
      var rest := Chunks(count - toDo);
      ChunksCover(count - toDo);
      assert Chunks(count) == [toDo] + rest;
      assert ([toDo] + rest)[1..] == rest;
      if count <= BUFFER_SIZE {
        assert rest == [];
      }
    }
  }

  /** Combining one noise sample with one input sample under a channel mode. */
  function Combine(mode: ChannelMode, input: real, noise: real): real
  {
    match mode
    case ModeOverwrite => noise
    case ModeAdd => input + noise
    case ModeMult => input * noise
  }

  /** Sample-wise combination of a block of input with a block of noise. */
  function Mix(mode: ChannelMode, input: seq<real>, noise: seq<real>): (r: seq<real>)
    requires |input| == |noise|
    ensures |r| == |input|
  {
    seq(|input|, k requires 0 <= k < |input| => Combine(mode, input[k], noise[k]))
  }

  /** The noise as it is handed to the inaudibility highpass. */
  function Attenuated(noise: seq<real>): (r: seq<real>)
    ensures |r| == |noise|
  {
    seq(|noise|, k requires 0 <= k < |noise| => INA_ATTENUATION * noise[k])
  }

  lemma {:induction false} AttenuatedAppend(a: seq<real>, b: seq<real>)
    ensures Attenuated(a + b) == Attenuated(a) + Attenuated(b)
  {
    assert forall k :: 0 <= k < |a + b| ==> Attenuated(a + b)[k] == (Attenuated(a) + Attenuated(b))[k];
  }

  /** What a channel writes for one block: silence when inactive; otherwise
      the generator's noise (directly, or as the inaudibility highpass emits
      it) written over, added to or multiplied with the input, as the
      channel mode says. */
  function BlockOutput(active: bool, inaudible: bool, mode: ChannelMode,
                       input: seq<real>, noise: seq<real>, filtered: seq<real>): (r: seq<real>)
    requires |input| == |noise| == |filtered|
    ensures |r| == |input|
    ensures !active ==> forall k :: 0 <= k < |r| ==> r[k] == 0.0
    ensures active && mode == ModeOverwrite ==>
      r == if inaudible then filtered else noise
    ensures active && mode == ModeAdd ==>
      forall k :: 0 <= k < |r| ==> r[k] - input[k] == (if inaudible then filtered[k] else noise[k])
    ensures active && mode == ModeMult ==>
      forall k :: 0 <= k < |r| ==> r[k] == input[k] * (if inaudible then filtered[k] else noise[k])
  {
    if !active then seq(|input|, _ => 0.0)
    else if inaudible then Mix(mode, input, filtered)
    else Mix(mode, input, noise)
  }
}
