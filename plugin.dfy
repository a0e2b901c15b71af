/** The noise generator plugin: an array of channels, each holding the
    parameters it has committed, its update record, its noise generator and
    its inaudibility highpass, plus a scratch buffer for the inaudible path.
    Each method is proved against the functions of modules Staging and
    Processing. */
module NoiseGenerator {
  import opened Selectors
  import opened Staging
  import opened Processing
  import opened Library

  /** The state of one channel. */
  class Channel {
    var upd: ChannelUpdate
    /** The committed parameters (distribution, velvet settings, colour and
        slope, generator type, mode, amplitude and offset). */
    var params: Params
    var generator: NoiseGeneratorSink
    var audibleStop: FilterSink
    /** The channel's position in the plugin's channel list. */
    ghost const index: nat

    /** Every group that is not pending holds, in the channel and in its
        generator, what the snapshot and the inaudible flag ask for. */
    ghost predicate Valid()
      reads this
    {
      Coherent(params, upd) && Mirrors(generator, params, upd.nUpdate)
    }

    /** Constructs the library objects, seeds the generator with the four
        given seeds, fixes the filter orders and types, sets the initial
        parameters and stages the metadata defaults. The force-audible flag
        is left for the first sample-rate update. */
    constructor (ghost index: nat, seeds: seq<int>, dfl: Stage)
      requires |seeds| == 4
      ensures this.index == index
      ensures Valid()
      ensures upd == ChannelUpdate(INIT_GROUPS, InitialStage(dfl), false, false, false)
      ensures params == Staging.Params(LcgUniform, VelvetOvn, 0.1, 0.5, false, 0.5,
                                         ColorWhite, -0.5, NeperPerNeper, GenLcg, ModeOverwrite, 1.0, 0.0)
      ensures generator == NoiseGeneratorSink([-1, seeds[0], seeds[1], seeds[2], -1, seeds[3]],
                                              Some(COLOR_FILTER_ORDER), None, None, None, None, None,
                                              None, None, None, None, None, None, None)
      ensures audibleStop == FilterSink(Some(INA_FILTER_ORD), Some(BwHighpass), None, None)
    {
      generator := NoiseGeneratorSink([-1, seeds[0], seeds[1], seeds[2], -1, seeds[3]],
                                      None, None, None, None, None, None,
                                      None, None, None, None, None, None, None);
      audibleStop := FilterSink(None, None, None, None);
      params := Staging.Params(LcgUniform, VelvetOvn, 0.1, 0.5, false, 0.5,
                               ColorWhite, -0.5, NeperPerNeper, GenLcg, ModeOverwrite, 1.0, 0.0);
      upd := ChannelUpdate({}, dfl, false, false, false);
      this.index := index;
      new;
      audibleStop := audibleStop.(order := Some(INA_FILTER_ORD));
      audibleStop := audibleStop.(filterType := Some(BwHighpass));
      generator := generator.(coloringOrder := Some(COLOR_FILTER_ORDER));
      InitStateStage(dfl);
    }

    /** The channel is as construction leaves it, with the given seeds and
        metadata defaults. */
    ghost predicate Initial(seeds: seq<int>, dfl: Stage)
      reads this
      requires |seeds| == 4
    {
      && upd == ChannelUpdate(INIT_GROUPS, InitialStage(dfl), false, false, false)
      && generator.initArgs == [-1, seeds[0], seeds[1], seeds[2], -1, seeds[3]]
      && generator.coloringOrder == Some(COLOR_FILTER_ORDER)
      && audibleStop == FilterSink(Some(INA_FILTER_ORD), Some(BwHighpass), None, None)
    }

    /** Stages the metadata defaults (the crush switch off), flags every group
        for the next commit, and clears the activity and inaudible flags. */
    method InitStateStage(dfl: Stage)
      modifies this`upd
      ensures upd == ChannelUpdate(INIT_GROUPS, InitialStage(dfl), false, false, old(upd.forceAudible))
      ensures Valid()
    {
      upd := ChannelUpdate(INIT_GROUPS, InitialStage(dfl), false, false, upd.forceAudible);
      InitIsCoherent(params, upd);
    }

    /** Pushes every pending group to the channel and its generator, in the
        fixed group order, then clears the mask. From a valid state the
        channel then holds exactly the decoded snapshot, and so does its
        generator. */
    method CommitStagedStateChange()
      requires Valid()
      modifies this
      ensures Valid()
      ensures upd == old(upd).(nUpdate := {})
      ensures params == CommitParams(old(params), old(upd))
      ensures params == Decode(upd.stage, upd.inaudible)
      ensures Mirrors(generator, params, {})
      ensures generator.initArgs == old(generator.initArgs)
      ensures generator.coloringOrder == old(generator.coloringOrder)
      ensures generator.sampleRate == old(generator.sampleRate)
      ensures audibleStop == old(audibleStop)
    {
      if upd.nUpdate == {} {
        CommitDecodesStage(params, upd);
        return;
      }
      ghost var p0, g0 := params, generator;
      var m, st := upd.nUpdate, upd.stage;
      CommitSynthesis(m, st);
      CommitCrush(m, st);
      CommitColor(m, st, upd.inaudible);
      CommitOutput(m, st);
      CommitStepsOverlay(p0, upd);
      MirrorsAfterCommit(g0, p0, upd);
      CommitDecodesStage(p0, upd);
      upd := upd.(nUpdate := {});
    }

    /** The first step of a commit: the LCG distribution, the velvet type and
        the velvet window. */
    method CommitSynthesis(m: set<Group>, st: Stage)
      modifies this`params, this`generator
      ensures params == CommitSynthesisStep(old(params), m, st)
      ensures generator == PushSynthesis(old(generator), m, st)
    {
      if UpdLcgDist in m {
        params := params.(lcgDist := GetLcgDist(st.lcgDist));
        generator := generator.(lcgDist := Some(params.lcgDist));
      }
      if UpdVelvetType in m {
        params := params.(velvetType := GetVelvetType(st.velvetType));
        generator := generator.(velvetType := Some(params.velvetType));
      }
      if UpdVelvetWin in m {
        params := params.(velvetWin := st.velvetWin);
        generator := generator.(velvetWindow := Some(params.velvetWin));
      }
    }

    /** The second step of a commit: the remaining velvet parameters, the
        crush probability converted from percent to a fraction. */
    method CommitCrush(m: set<Group>, st: Stage)
      modifies this`params, this`generator
      ensures params == CommitCrushStep(old(params), m, st)
      ensures generator == PushCrush(old(generator), m, st)
    {
      if UpdVelvetArnD in m {
        params := params.(velvetArnDelta := st.velvetArnDelta);
        generator := generator.(velvetArnDelta := Some(params.velvetArnDelta));
      }
      if UpdVelvetCrush in m {
        params := params.(velvetCrush := st.velvetCrush);
        generator := generator.(velvetCrush := Some(params.velvetCrush));
      }
      if UpdVelvetCrushP in m {
        params := params.(velvetCrushProb := st.velvetCrushProb / 100.0);
        generator := generator.(velvetCrushProb := Some(params.velvetCrushProb));
      }
    }

    /** The third step of a commit: the colour, forced white while
        inaudible, and the slope with the unit the colour selector names. */
    method CommitColor(m: set<Group>, st: Stage, inaudible: bool)
      modifies this`params, this`generator
      ensures params == CommitColorStep(old(params), m, st, inaudible)
      ensures generator == PushColor(old(generator), m, st, inaudible)
    {
      if UpdColor in m {
        var color := GetColor(st.colorSel);
        if inaudible {
          color := ColorWhite;
        }
        params := params.(color := color);
        generator := generator.(color := Some(color));
      }
      if UpdColorSlope in m || UpdColorSlopeUnit in m {
        var unit := GetColorSlopeUnit(st.colorSel);
        var slope;
        match unit {
          case DbPerOctave => slope := st.slopeDbo;
          case DbPerDecade => slope := st.slopeDbd;
          case NeperPerNeper => slope := st.slopeNpn;
        }
        params := params.(colorSlope := slope, colorSlopeUnit := unit);
        generator := generator.(colorSlope := Some((slope, unit)));
      }
    }

    /** The last step of a commit: generator type, channel mode (kept by the
        plugin only), amplitude and offset. */
    method CommitOutput(m: set<Group>, st: Stage)
      modifies this`params, this`generator
      ensures params == CommitOutputStep(old(params), m, st)
      ensures generator == PushOutput(old(generator), m, st)
    {
      if UpdNoiseType in m {
        params := params.(noiseType := GetGeneratorType(st.noiseType));
        generator := generator.(generator := Some(params.noiseType));
      }
      if UpdNoiseMode in m {
        params := params.(mode := GetChannelMode(st.noiseMode));
      }
      if UpdNoiseAmplitude in m {
        params := params.(amplitude := st.amplitude);
        generator := generator.(amplitude := Some(params.amplitude));
      }
      if UpdNoiseOffset in m {
        params := params.(offset := st.offset);
        generator := generator.(offset := Some(params.offset));
      }
    }

    /** One channel's share of the control-rate update: the activity rule,
        the comparison of every port with the snapshot, and the inaudible
        rule. Keeps the channel valid. */
    method UpdateFromPorts(p: ChannelPorts, hasSolo: bool)
      requires Valid()
      modifies this`upd
      ensures upd == UpdateChannel(old(upd), p, hasSolo)
      ensures Valid()
    {
      ghost var u0 := upd;
      var solo := PortSwitchOn(p.solo);
      var mute := PortSwitchOn(p.mute);
      upd := upd.(active := if hasSolo then solo else !mute);
      var s := Snapshot(p);
      CompareSynthesis(s);
      CompareCrush(s);
      CompareColor(s);
      CompareOutput(s);
      UpdateInaudible(p.inaudibleSw);
      UpdateBySteps(u0, p, hasSolo);
      UpdatePreservesCoherence(params, u0, p, hasSolo);
      MirrorsWiden(generator, params, u0.nUpdate, upd.nUpdate);
    }

    /** Compares the distribution, velvet type and velvet window ports. */
    method CompareSynthesis(s: Stage)
      modifies this`upd
      ensures upd == CompareSynthesisStep(old(upd), s)
    {
      var m, st := upd.nUpdate, upd.stage;
      if s.lcgDist != st.lcgDist {
        st := st.(lcgDist := s.lcgDist);
        m := m + {UpdLcgDist};
      }
      if s.velvetType != st.velvetType {
        st := st.(velvetType := s.velvetType);
        m := m + {UpdVelvetType};
      }
      if s.velvetWin != st.velvetWin {
        st := st.(velvetWin := s.velvetWin);
        m := m + {UpdVelvetWin};
      }
      upd := upd.(nUpdate := m, stage := st);
    }

    /** Compares the ARN delta, crush switch and crush probability ports. */
    method CompareCrush(s: Stage)
      modifies this`upd
      ensures upd == CompareCrushStep(old(upd), s)
    {
      var m, st := upd.nUpdate, upd.stage;
      if s.velvetArnDelta != st.velvetArnDelta {
        st := st.(velvetArnDelta := s.velvetArnDelta);
        m := m + {UpdVelvetArnD};
      }
      if s.velvetCrush != st.velvetCrush {
        st := st.(velvetCrush := s.velvetCrush);
        m := m + {UpdVelvetCrush};
      }
      if s.velvetCrushProb != st.velvetCrushProb {
        st := st.(velvetCrushProb := s.velvetCrushProb);
        m := m + {UpdVelvetCrushP};
      }
      upd := upd.(nUpdate := m, stage := st);
    }

    /** Compares the colour selector and the three slope ports; a new colour
        selector also flags the slope unit it implies. */
    method CompareColor(s: Stage)
      modifies this`upd
      ensures upd == CompareColorStep(old(upd), s)
    {
      var m, st := upd.nUpdate, upd.stage;
      if s.colorSel != st.colorSel {
        st := st.(colorSel := s.colorSel);
        m := m + {UpdColor, UpdColorSlopeUnit};
      }
      if s.slopeNpn != st.slopeNpn {
        st := st.(slopeNpn := s.slopeNpn);
        m := m + {UpdColorSlope};
      }
      if s.slopeDbo != st.slopeDbo {
        st := st.(slopeDbo := s.slopeDbo);
        m := m + {UpdColorSlope};
      }
      if s.slopeDbd != st.slopeDbd {
        st := st.(slopeDbd := s.slopeDbd);
        m := m + {UpdColorSlope};
      }
      upd := upd.(nUpdate := m, stage := st);
    }

    /** Compares the noise type, mode, amplitude and offset ports. */
    method CompareOutput(s: Stage)
      modifies this`upd
      ensures upd == CompareOutputStep(old(upd), s)
    {
      var m, st := upd.nUpdate, upd.stage;
      if s.noiseType != st.noiseType {
        st := st.(noiseType := s.noiseType);
        m := m + {UpdNoiseType};
      }
      if s.noiseMode != st.noiseMode {
        st := st.(noiseMode := s.noiseMode);
        m := m + {UpdNoiseMode};
      }
      if s.amplitude != st.amplitude {
        st := st.(amplitude := s.amplitude);
        m := m + {UpdNoiseAmplitude};
      }
      if s.offset != st.offset {
        st := st.(offset := s.offset);
        m := m + {UpdNoiseOffset};
      }
      upd := upd.(nUpdate := m, stage := st);
    }

    /** The inaudible rule: a forced-audible channel leaves inaudible mode,
        otherwise the switch decides; either way a change of mode flags the
        colour and its slope, since the colour is forced white while
        inaudible. */
    method UpdateInaudible(sw: real)
      modifies this`upd
      ensures upd == InaudibleStep(old(upd), sw)
    {
      if upd.forceAudible {
        if upd.inaudible {
          upd := upd.(nUpdate := upd.nUpdate + {UpdColor, UpdColorSlope});
        }
        upd := upd.(inaudible := false);
      } else {
        var ina := SwitchOn(sw);
        if ina != upd.inaudible {
          upd := upd.(nUpdate := upd.nUpdate + {UpdColor, UpdColorSlope});
        }
        upd := upd.(inaudible := ina);
      }
    }

    /** The channel has committed the update u0 over the parameters p0 and
        written its block into out, whose tail beyond the block is tail; the
        highpass and the generator's seeds, colouring order and sample rate
        are still those of a0 and g0. */
    ghost predicate Emitted(samples: nat, input: seq<real>, out: array<real>, noise: seq<real>, filtered: seq<real>,
                            u0: ChannelUpdate, p0: Params, g0: NoiseGeneratorSink, a0: FilterSink, tail: seq<real>)
      reads this, out
    {
      && |input| == samples && |noise| == samples && |filtered| == samples && samples <= out.Length
      && upd == u0.(nUpdate := {})
      && params == CommitParams(p0, u0)
      && generator.initArgs == g0.initArgs && generator.coloringOrder == g0.coloringOrder
      && generator.sampleRate == g0.sampleRate && audibleStop == a0
      && out[..samples] == BlockOutput(upd.active, upd.inaudible, params.mode, input, noise, filtered)
      && out[samples..] == tail
    }

    /** The sample-rate update of one channel: inaudible mode becomes
        impossible below 44100 Hz, and the generator and the highpass learn
        the new rate; the highpass cutoff is fixed. */
    method SetSampleRate(sr: int)
      requires Valid()
      modifies this`upd, this`generator, this`audibleStop
      ensures Valid()
      ensures upd == old(upd).(forceAudible := ForceAudible(sr))
      ensures generator == old(generator).(sampleRate := Some(sr))
      ensures audibleStop == old(audibleStop).(sampleRate := Some(sr), cutoff := Some(INA_FILTER_CUTOFF))
    {
      upd := upd.(forceAudible := ForceAudible(sr));
      generator := generator.(sampleRate := Some(sr));
      audibleStop := audibleStop.(sampleRate := Some(sr));
      audibleStop := audibleStop.(cutoff := Some(INA_FILTER_CUTOFF));
    }

    /** One channel's share of a block: commit the staged changes, then write
        silence, the inaudible path or the plain noise into out. The noise
        the generator produces for the block and what the highpass emits
        for the attenuated noise are given. The ghost results record the
        chunk sizes of the inaudible path and what it fed the highpass. */
    method Process(samples: nat, input: seq<real>, out: array<real>, buffer: array<real>,
                   noise: seq<real>, filtered: seq<real>)
      returns (ghost chunks: seq<nat>, ghost fed: seq<real>)
      requires Valid()
      requires |input| == samples && |noise| == samples && |filtered| == samples
      requires samples <= out.Length && BUFFER_SIZE <= buffer.Length && out != buffer
      modifies this, out, buffer
      ensures Valid()
      ensures upd == old(upd).(nUpdate := {})
      ensures params == CommitParams(old(params), old(upd))
      ensures Mirrors(generator, params, {})
      ensures generator.initArgs == old(generator.initArgs)
      ensures generator.coloringOrder == old(generator.coloringOrder)
      ensures generator.sampleRate == old(generator.sampleRate)
      ensures audibleStop == old(audibleStop)
      ensures out[..samples] == BlockOutput(upd.active, upd.inaudible, params.mode, input, noise, filtered)
      ensures out[samples..] == old(out[samples..])
      ensures chunks == if upd.active && upd.inaudible then Chunks(samples) else []
      ensures fed == if upd.active && upd.inaudible then Attenuated(noise) else []
    {
      CommitStagedStateChange();
      chunks, fed := [], [];
      if !upd.active {
        FillZero(out, samples);
      } else if upd.inaudible {
        chunks, fed := ProcessInaudible(params.mode, samples, input, out, buffer, noise, filtered);
      } else {
        ProcessAudible(params.mode, samples, input, out, noise);
      }
    }
  }

  /** Silence for an inactive channel. */
  method FillZero(out: array<real>, samples: nat)
    requires samples <= out.Length
    modifies out
    ensures out[..samples] == seq(samples, _ => 0.0)
    ensures out[samples..] == old(out[samples..])
  {
    forall k | 0 <= k < samples {
      out[k] := 0.0;
    }
  }

  /** The audible path of a block: the generator combines its noise with the
      input under the channel mode. */
  method ProcessAudible(mode: ChannelMode, samples: nat, input: seq<real>, out: array<real>, noise: seq<real>)
    requires |input| == samples && |noise| == samples && samples <= out.Length
    modifies out
    ensures out[..samples] == Mix(mode, input, noise)
    ensures out[samples..] == old(out[samples..])
  {
    forall k | 0 <= k < samples {
      out[k] := Combine(mode, input[k], noise[k]);
    }
    assert out[..samples] == Mix(mode, input, noise);
  }

  /** The inaudible path of a block: chunk by chunk, at most a scratch buffer
      at a time, as the highpass consumes it. */
  method ProcessInaudible(mode: ChannelMode, samples: nat, input: seq<real>, out: array<real>, buffer: array<real>,
                          noise: seq<real>, filtered: seq<real>)
    returns (ghost chunks: seq<nat>, ghost fed: seq<real>)
    requires |input| == samples && |noise| == samples && |filtered| == samples
    requires samples <= out.Length && BUFFER_SIZE <= buffer.Length && out != buffer
    modifies out, buffer
    ensures out[..samples] == Mix(mode, input, filtered)
    ensures out[samples..] == old(out[samples..])
    ensures chunks == Chunks(samples)
    ensures fed == Attenuated(noise)
  {
    var count: nat, pos: nat := samples, 0;
    chunks, fed := [], [];
    while count > 0
      invariant pos + count == samples
      invariant chunks + Chunks(count) == Chunks(samples)
      invariant fed == Attenuated(noise[..pos])
      invariant forall k :: 0 <= k < pos ==> out[k] == Combine(mode, input[k], filtered[k])
      invariant forall k :: samples <= k < out.Length ==> out[k] == old(out[k])
      decreases count
    {
      var toDo := if count > BUFFER_SIZE then BUFFER_SIZE else count;
      ProcessChunk(mode, pos, toDo, input, out, buffer, noise, filtered);
      AttenuatedAppend(noise[..pos], noise[pos..pos + toDo]);
      assert noise[..pos] + noise[pos..pos + toDo] == noise[..pos + toDo];
      fed := fed + buffer[..toDo];
      ChunksStep(count, toDo);
      assert (chunks + [toDo]) + Chunks(count - toDo) == chunks + Chunks(count);
      chunks := chunks + [toDo];
      pos, count := pos + toDo, count - toDo;
    }
    assert noise[..pos] == noise;
    assert out[..samples] == Mix(mode, input, filtered);
    assert out[samples..] == old(out[samples..]);
  }

  /** One chunk of the inaudible path: the generator overwrites the scratch
      buffer with its noise, the buffer is scaled by the attenuation, and
      the highpass output for it is combined into out at the chunk's place. */
  method ProcessChunk(mode: ChannelMode, pos: nat, toDo: nat, input: seq<real>, out: array<real>,
                      buffer: array<real>, noise: seq<real>, filtered: seq<real>)
    requires pos + toDo <= |input| && pos + toDo <= |noise| && pos + toDo <= |filtered|
    requires pos + toDo <= out.Length && toDo <= buffer.Length && out != buffer
    modifies out, buffer
    ensures buffer[..toDo] == Attenuated(noise[pos..pos + toDo])
    ensures forall k :: pos <= k < pos + toDo ==> out[k] == Combine(mode, input[k], filtered[k])
    ensures forall k :: 0 <= k < out.Length && !(pos <= k < pos + toDo) ==> out[k] == old(out[k])
  {
    forall k | 0 <= k < toDo {
      buffer[k] := noise[pos + k];
    }
    forall k | 0 <= k < toDo {
      buffer[k] := INA_ATTENUATION * buffer[k];
    }
    forall k | pos <= k < pos + toDo {
      out[k] := Combine(mode, input[k], filtered[k]);
    }
  }

  /** The solo scan of a control-rate update: stops at the first channel
      whose solo switch is on. */
  method AnySolo(ports: seq<ChannelPorts>) returns (hasSolo: bool)
    ensures hasSolo == HasSolo(ports)
  {
    hasSolo := false;
    var i := 0;
    while i < |ports|
      invariant 0 <= i <= |ports|
      invariant forall j :: 0 <= j < i ==> !PortSwitchOn(ports[j].solo)
    {
      if PortSwitchOn(ports[i].solo) {
        hasSolo := true;
        break;
      }
      i := i + 1;
    }
  }

  /** The plugin: its channels, in port order, and the scratch buffer of
      the inaudible path, one buffer's worth per channel. */
  class Plugin {
    const channels: seq<Channel>
    const buffer: array<real>

    ghost predicate Valid()
      reads channels
    {
      && |channels| > 0
      && buffer.Length == BUFFER_SIZE * |channels|
      && (forall i :: 0 <= i < |channels| ==> channels[i].index == i)
      && (forall i {:trigger channels[i].Valid()} :: 0 <= i < |channels| ==> channels[i].Valid())
    }

    /** Builds one channel per seed quadruple, all staged with the same
        metadata defaults, and the scratch buffer. */
    constructor (seeds: seq<seq<int>>, dfl: Stage)
      requires |seeds| > 0
      requires forall i :: 0 <= i < |seeds| ==> |seeds[i]| == 4
      ensures Valid()
      ensures |channels| == |seeds|
      ensures forall i :: 0 <= i < |channels| ==>
        && channels[i].upd == ChannelUpdate(INIT_GROUPS, InitialStage(dfl), false, false, false)
        && channels[i].generator.initArgs == [-1, seeds[i][0], seeds[i][1], seeds[i][2], -1, seeds[i][3]]
        && channels[i].generator.coloringOrder == Some(COLOR_FILTER_ORDER)
        && channels[i].audibleStop == FilterSink(Some(INA_FILTER_ORD), Some(BwHighpass), None, None)
      ensures fresh(buffer) && forall i :: 0 <= i < |channels| ==> fresh(channels[i])
    {
      var cs: seq<Channel> := [];
      while |cs| < |seeds|
        invariant |cs| <= |seeds|
        invariant forall i :: 0 <= i < |cs| ==>
          fresh(cs[i]) && cs[i].index == i && cs[i].Valid() && cs[i].Initial(seeds[i], dfl)
      {
        var c := new Channel(|cs|, seeds[|cs|], dfl);
        assert c.Initial(seeds[|cs|], dfl);
        cs := cs + [c];
      }
      channels := cs;
      buffer := new real[BUFFER_SIZE * |seeds|];
    }

    /** The sample-rate update, channel by channel. */
    method UpdateSampleRate(sr: int)
      requires Valid()
      modifies channels`upd, channels`generator, channels`audibleStop
      ensures Valid()
      ensures forall i :: 0 <= i < |channels| ==>
        && channels[i].upd == old(channels[i].upd).(forceAudible := ForceAudible(sr))
        && channels[i].generator == old(channels[i].generator).(sampleRate := Some(sr))
        && channels[i].audibleStop == old(channels[i].audibleStop).(sampleRate := Some(sr), cutoff := Some(INA_FILTER_CUTOFF))
    {
      var n := 0;
      while n < |channels|
        invariant 0 <= n <= |channels|
        invariant Valid()
        invariant forall i :: 0 <= i < n ==>
          && channels[i].upd == old(channels[i].upd).(forceAudible := ForceAudible(sr))
          && channels[i].generator == old(channels[i].generator).(sampleRate := Some(sr))
          && channels[i].audibleStop == old(channels[i].audibleStop).(sampleRate := Some(sr), cutoff := Some(INA_FILTER_CUTOFF))
        invariant forall i :: n <= i < |channels| ==>
          && channels[i].upd == old(channels[i].upd)
          && channels[i].generator == old(channels[i].generator)
          && channels[i].audibleStop == old(channels[i].audibleStop)
      {
        var c := channels[n];
        c.SetSampleRate(sr);
        assert forall i :: 0 <= i < |channels| && i != n ==> channels[i] != c;
        n := n + 1;
      }
    }

    /** The control-rate update: the solo scan, then every channel's port
        comparison against the same solo verdict. */
    method UpdateSettings(ports: seq<ChannelPorts>)
      requires Valid()
      requires |ports| == |channels|
      modifies channels`upd
      ensures Valid()
      ensures forall i :: 0 <= i < |channels| ==>
        channels[i].upd == UpdateChannel(old(channels[i].upd), ports[i], HasSolo(ports))
    {
      var hasSolo := AnySolo(ports);
      var n := 0;
      while n < |channels|
        invariant 0 <= n <= |channels|
        invariant Valid()
        invariant forall i :: 0 <= i < n ==>
          channels[i].upd == UpdateChannel(old(channels[i].upd), ports[i], hasSolo)
        invariant forall i :: n <= i < |channels| ==> channels[i].upd == old(channels[i].upd)
      {
        var c := channels[n];
        c.UpdateFromPorts(ports[n], hasSolo);
        assert forall i :: 0 <= i < |channels| && i != n ==> channels[i] != c;
        n := n + 1;
      }
    }

    /** The output arrays that are bound. */
    static ghost function Bound(outputs: seq<Option<array<real>>>): set<array<real>>
    {
      set i | 0 <= i < |outputs| && outputs[i].Some? :: outputs[i].value
    }

    /** One block: every channel whose input and output buffers are both
        bound commits its staged changes and writes its output; a channel
        with a missing buffer is skipped and keeps its changes staged. The
        noise each generator produces and what each highpass emits are
        given per channel. */
    method Process(samples: nat, inputs: seq<Option<seq<real>>>, outputs: seq<Option<array<real>>>,
                   noise: seq<seq<real>>, filtered: seq<seq<real>>)
      requires Valid()
      requires |inputs| == |channels| && |outputs| == |channels|
      requires |noise| == |channels| && |filtered| == |channels|
      requires forall i :: 0 <= i < |channels| ==> |noise[i]| == samples && |filtered[i]| == samples
      requires forall i :: 0 <= i < |channels| && inputs[i].Some? ==> |inputs[i].value| == samples
      requires forall i :: 0 <= i < |channels| && outputs[i].Some? ==>
        samples <= outputs[i].value.Length && outputs[i].value != buffer
      requires forall i, j :: 0 <= i < j < |channels| && outputs[i].Some? && outputs[j].Some? ==>
        outputs[i].value != outputs[j].value
      modifies channels, buffer, Bound(outputs)
      ensures Valid()
      ensures forall i :: 0 <= i < |channels| && inputs[i].Some? && outputs[i].Some? ==>
        && channels[i].upd == old(channels[i].upd).(nUpdate := {})
        && channels[i].params == CommitParams(old(channels[i].params), old(channels[i].upd))
        && channels[i].generator.initArgs == old(channels[i].generator.initArgs)
        && channels[i].generator.coloringOrder == old(channels[i].generator.coloringOrder)
        && channels[i].generator.sampleRate == old(channels[i].generator.sampleRate)
        && channels[i].audibleStop == old(channels[i].audibleStop)
        && outputs[i].value[..samples] == BlockOutput(channels[i].upd.active, channels[i].upd.inaudible,
                                                      channels[i].params.mode, inputs[i].value, noise[i], filtered[i])
        && outputs[i].value[samples..] == old(outputs[i].value[samples..])
      ensures forall i :: 0 <= i < |channels| && !(inputs[i].Some? && outputs[i].Some?) ==>
        && unchanged(channels[i])
        && (outputs[i].Some? ==> outputs[i].value[..] == old(outputs[i].value[..]))
    {
      var n := 0;
      while n < |channels|
        invariant 0 <= n <= |channels|
        invariant Valid()
        invariant forall i :: 0 <= i < n && inputs[i].Some? && outputs[i].Some? ==>
          channels[i].Emitted(samples, inputs[i].value, outputs[i].value, noise[i], filtered[i],
                              old(channels[i].upd), old(channels[i].params),
                              old(channels[i].generator), old(channels[i].audibleStop), old(outputs[i].value[samples..]))
        invariant forall i :: 0 <= i < |channels| && !(n > i && inputs[i].Some? && outputs[i].Some?) ==>
          unchanged(channels[i]) && (outputs[i].Some? ==> unchanged(outputs[i].value))
      {
        if inputs[n].Some? && outputs[n].Some? {
          ProcessChannel(n, samples, inputs[n].value, outputs[n].value, noise[n], filtered[n]);
          assert forall i :: 0 <= i < |channels| && i != n ==> channels[i] != channels[n];
          assert forall i :: 0 <= i < |channels| && i != n && outputs[i].Some? ==> outputs[i].value != outputs[n].value;
        }
        n := n + 1;
      }
    }

    /** The block of channel n, whose buffers are both bound. */
    method ProcessChannel(n: nat, samples: nat, input: seq<real>, out: array<real>,
                          noise: seq<real>, filtered: seq<real>)
      requires Valid() && n < |channels|
      requires |input| == samples && |noise| == samples && |filtered| == samples
      requires samples <= out.Length && out != buffer
      modifies channels[n], out, buffer
      ensures Valid()
      ensures channels[n].Emitted(samples, input, out, noise, filtered, old(channels[n].upd), old(channels[n].params),
                                  old(channels[n].generator), old(channels[n].audibleStop), old(out[samples..]))
    {
      var c := channels[n];
      ghost var chunks, fed := c.Process(samples, input, out, buffer, noise, filtered);
      assert forall i :: 0 <= i < |channels| && i != n ==> channels[i] != c;
    }
  }
}
