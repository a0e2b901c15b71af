/** The library objects a channel drives, seen from the plugin: every setter
    records the last value it was given, and nothing else about them is
    modelled. A missing value means the setter has not been called yet. */
module Library {
  import opened Selectors
  import opened Staging

  /** Response types of the Butterworth filter; the plugin only uses highpass. */
  datatype FilterType = BwHighpass

  /** What the channel has told its noise generator so far. The init arguments
      are the MLS bit count, three LCG/velvet seeds, the MLS seed length and
      the MLS seed, in call order. */
  datatype NoiseGeneratorSink = NoiseGeneratorSink(
    initArgs: seq<int>, coloringOrder: Option<nat>, sampleRate: Option<int>,
    lcgDist: Option<LcgDist>, velvetType: Option<VelvetType>, velvetWindow: Option<real>,
    velvetArnDelta: Option<real>, velvetCrush: Option<bool>, velvetCrushProb: Option<real>,
    color: Option<NoiseColor>, colorSlope: Option<(real, SlopeUnit)>, generator: Option<GeneratorType>,
    amplitude: Option<real>, offset: Option<real>)

  /** What the channel has told its inaudibility highpass so far. */
  datatype FilterSink = FilterSink(
    order: Option<nat>, filterType: Option<FilterType>, sampleRate: Option<int>, cutoff: Option<real>)

  /** The generator invariant: every group that is not pending under m has
      been pushed to the generator with the channel's current value. The
      channel mode is the plugin's own and never reaches the generator. */
  predicate Mirrors(s: NoiseGeneratorSink, p: Params, m: set<Group>)
  {
    && (!Pending(UpdLcgDist, m) ==> s.lcgDist == Some(p.lcgDist))
    && (!Pending(UpdVelvetType, m) ==> s.velvetType == Some(p.velvetType))
    && (!Pending(UpdVelvetWin, m) ==> s.velvetWindow == Some(p.velvetWin))
    && (!Pending(UpdVelvetArnD, m) ==> s.velvetArnDelta == Some(p.velvetArnDelta))
    && (!Pending(UpdVelvetCrush, m) ==> s.velvetCrush == Some(p.velvetCrush))
    && (!Pending(UpdVelvetCrushP, m) ==> s.velvetCrushProb == Some(p.velvetCrushProb))
    && (!Pending(UpdColor, m) ==> s.color == Some(p.color))
    && (!Pending(UpdColorSlope, m) ==> s.colorSlope == Some((p.colorSlope, p.colorSlopeUnit)))
    && (!Pending(UpdNoiseType, m) ==> s.generator == Some(p.noiseType))
    && (!Pending(UpdNoiseAmplitude, m) ==> s.amplitude == Some(p.amplitude))
    && (!Pending(UpdNoiseOffset, m) ==> s.offset == Some(p.offset))
  }

  /** Flagging more groups keeps a generator mirroring the rest. */
  lemma MirrorsWiden(s: NoiseGeneratorSink, p: Params, m: set<Group>, m': set<Group>)
    requires m <= m'
    requires Mirrors(s, p, m)
    ensures Mirrors(s, p, m')
  {
    forall g | !Pending(g, m') ensures !Pending(g, m) {
    }
  }

  /** The generator side of the four commit steps: each step calls the
      setter of every pending group of its share with the decoded value,
      and leaves the other settings as they were. */
  function PushSynthesis(s: NoiseGeneratorSink, m: set<Group>, st: Stage): NoiseGeneratorSink
  {
    s.(lcgDist := if UpdLcgDist in m then Some(GetLcgDist(st.lcgDist)) else s.lcgDist,
       velvetType := if UpdVelvetType in m then Some(GetVelvetType(st.velvetType)) else s.velvetType,
       velvetWindow := if UpdVelvetWin in m then Some(st.velvetWin) else s.velvetWindow)
  }

  function PushCrush(s: NoiseGeneratorSink, m: set<Group>, st: Stage): NoiseGeneratorSink
  {
    s.(velvetArnDelta := if UpdVelvetArnD in m then Some(st.velvetArnDelta) else s.velvetArnDelta,
       velvetCrush := if UpdVelvetCrush in m then Some(st.velvetCrush) else s.velvetCrush,
       velvetCrushProb := if UpdVelvetCrushP in m then Some(st.velvetCrushProb / 100.0) else s.velvetCrushProb)
  }

  function PushColor(s: NoiseGeneratorSink, m: set<Group>, st: Stage, inaudible: bool): NoiseGeneratorSink
  {
    s.(color := if UpdColor in m then Some(ColorFor(st.colorSel, inaudible)) else s.color,
       colorSlope := if UpdColorSlope in m || UpdColorSlopeUnit in m
                     then Some((SlopeFor(st), GetColorSlopeUnit(st.colorSel))) else s.colorSlope)
  }

  function PushOutput(s: NoiseGeneratorSink, m: set<Group>, st: Stage): NoiseGeneratorSink
  {
    s.(generator := if UpdNoiseType in m then Some(GetGeneratorType(st.noiseType)) else s.generator,
       amplitude := if UpdNoiseAmplitude in m then Some(st.amplitude) else s.amplitude,
       offset := if UpdNoiseOffset in m then Some(st.offset) else s.offset)
  }

  /** The four steps together. */
  function PushSteps(s: NoiseGeneratorSink, u: ChannelUpdate): NoiseGeneratorSink
  {
    var m, st := u.nUpdate, u.stage;
    PushOutput(PushColor(PushCrush(PushSynthesis(s, m, st), m, st), m, st, u.inaudible), m, st)
  }

  /** A generator that mirrors every group not pending under u, once the
      commit steps have pushed the pending ones, mirrors every group of the
      committed parameters; the groups the commit does not touch keep what
      the generator had. */
  lemma MirrorsAfterCommit(s: NoiseGeneratorSink, p: Params, u: ChannelUpdate)
    requires Mirrors(s, p, u.nUpdate)
    ensures Mirrors(PushSteps(s, u), CommitParams(p, u), {})
    ensures PushSteps(s, u).initArgs == s.initArgs
    ensures PushSteps(s, u).coloringOrder == s.coloringOrder
    ensures PushSteps(s, u).sampleRate == s.sampleRate
  {
    CommitStepsOverlay(p, u);
    assert Mirrors(PushSteps(s, u), CommitSteps(p, u), {});
  }
}
