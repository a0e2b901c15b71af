/** Staged parameter tracking of one channel.

    At control rate the plugin compares every control port of a channel with
    a snapshot of the values it last saw, copies changed values into the
    snapshot and records, per logical parameter group, that the group needs
    to be pushed to the generator. Just before the channel's next block the
    pending groups are committed in a fixed order and the mask is cleared.
    This module holds the values involved and the pure functions that say
    what each step does; the classes in module NoiseGenerator run the steps
    in place and are proved against these functions. */
module Staging {
  import opened Selectors

  datatype Option<T> = None | Some(value: T)

  /** One bit of the update mask: a group of parameters committed together. */
  datatype Group =
    | UpdLcgDist | UpdVelvetType | UpdVelvetWin | UpdVelvetArnD | UpdVelvetCrush | UpdVelvetCrushP
    | UpdColor | UpdColorSlope | UpdColorSlopeUnit
    | UpdNoiseType | UpdNoiseMode | UpdNoiseAmplitude | UpdNoiseOffset

  const ALL_GROUPS: set<Group> := {
    UpdLcgDist, UpdVelvetType, UpdVelvetWin, UpdVelvetArnD, UpdVelvetCrush, UpdVelvetCrushP,
    UpdColor, UpdColorSlope, UpdColorSlopeUnit,
    UpdNoiseType, UpdNoiseMode, UpdNoiseAmplitude, UpdNoiseOffset
  }

  /** The groups a freshly initialised channel flags: every group except the
      slope unit, which the slope bit already covers at commit time. */
  const INIT_GROUPS: set<Group> := ALL_GROUPS - {UpdColorSlopeUnit}

  /** Threshold above which a switch port reads as "on". */
  const SWITCH_THRESHOLD: real := 0.5

  /** The snapshot of raw control values last seen on a channel's ports. */
  datatype Stage = Stage(
    lcgDist: nat,
    velvetType: nat, velvetWin: real, velvetArnDelta: real, velvetCrush: bool, velvetCrushProb: real,
    colorSel: nat, slopeNpn: real, slopeDbo: real, slopeDbd: real,
    noiseType: nat, noiseMode: nat, amplitude: real, offset: real)

  /** The values one channel's control ports deliver at a control-rate update.
      The solo and mute switches exist only on multi-channel variants, so they
      may be missing; every other port is always bound. */
  datatype ChannelPorts = ChannelPorts(
    lcgDist: nat,
    velvetType: nat, velvetWin: real, velvetArnDelta: real, velvetCrushSw: real, velvetCrushProb: real,
    colorSel: nat, slopeNpn: real, slopeDbo: real, slopeDbd: real,
    noiseType: nat, noiseMode: nat, amplitude: real, offset: real,
    inaudibleSw: real, solo: Option<real>, mute: Option<real>)

  /** The per-channel update record: pending groups, snapshot and flags. */
  datatype ChannelUpdate = ChannelUpdate(
    nUpdate: set<Group>, stage: Stage, active: bool, inaudible: bool, forceAudible: bool)

  /** The parameters a channel has committed to its generator. */
  datatype Params = Params(
    lcgDist: LcgDist,
    velvetType: VelvetType, velvetWin: real, velvetArnDelta: real, velvetCrush: bool, velvetCrushProb: real,
    color: NoiseColor, colorSlope: real, colorSlopeUnit: SlopeUnit,
    noiseType: GeneratorType, mode: ChannelMode, amplitude: real, offset: real)

  predicate SwitchOn(v: real)
  {
    v >= SWITCH_THRESHOLD
  }

  /** A switch whose port is missing reads as off. */
  predicate PortSwitchOn(p: Option<real>)
  {
    p.Some? && SwitchOn(p.value)
  }

  /** The snapshot a set of port readings stands for. */
  function Snapshot(p: ChannelPorts): Stage
  {
    Stage(p.lcgDist,
          p.velvetType, p.velvetWin, p.velvetArnDelta, SwitchOn(p.velvetCrushSw), p.velvetCrushProb,
          p.colorSel, p.slopeNpn, p.slopeDbo, p.slopeDbd,
          p.noiseType, p.noiseMode, p.amplitude, p.offset)
  }

  /** The snapshot a freshly initialised channel holds: the metadata default of
      every field, except that the crush switch starts off. */
  function InitialStage(dfl: Stage): (s: Stage)
    ensures !s.velvetCrush
    ensures s.(velvetCrush := dfl.velvetCrush) == dfl
  {
    dfl.(velvetCrush := false)
  }

  /** Whether group g's inputs differ between two snapshots. The colour
      selector decides both the colour and the slope unit. */
  predicate Differs(g: Group, a: Stage, b: Stage)
  {
    match g
    case UpdLcgDist => a.lcgDist != b.lcgDist
    case UpdVelvetType => a.velvetType != b.velvetType
    case UpdVelvetWin => a.velvetWin != b.velvetWin
    case UpdVelvetArnD => a.velvetArnDelta != b.velvetArnDelta
    case UpdVelvetCrush => a.velvetCrush != b.velvetCrush
    case UpdVelvetCrushP => a.velvetCrushProb != b.velvetCrushProb
    case UpdColor => a.colorSel != b.colorSel
    case UpdColorSlope => a.slopeNpn != b.slopeNpn || a.slopeDbo != b.slopeDbo || a.slopeDbd != b.slopeDbd
    case UpdColorSlopeUnit => a.colorSel != b.colorSel
    case UpdNoiseType => a.noiseType != b.noiseType
    case UpdNoiseMode => a.noiseMode != b.noiseMode
    case UpdNoiseAmplitude => a.amplitude != b.amplitude
    case UpdNoiseOffset => a.offset != b.offset
  }

  /** The groups a comparison of two snapshots flags once corrected: every
      group whose inputs differ, the slope unit included when the colour
      selector changes. */
  function Changed(a: Stage, b: Stage): set<Group>
  {
    set g | g in ALL_GROUPS && Differs(g, a, b)
  }

  /** The groups the port comparison flags as the source writes it: a change
      of the colour selector flags the colour only, and no comparison ever
      flags the slope unit. */
  function ChangedAsWritten(a: Stage, b: Stage): set<Group>
  {
    Changed(a, b) - {UpdColorSlopeUnit}
  }

  /** The singleton {g} when c holds, nothing otherwise. */
  function Flag(c: bool, g: Group): set<Group>
  {
    if c then {g} else {}
  }

  /** The four steps of the port comparison, in the order the plugin takes
      the ports: each copies its share of the fresh snapshot s into the
      update record and flags the groups whose inputs it found changed. */
  function CompareSynthesisStep(u: ChannelUpdate, s: Stage): ChannelUpdate
  {
    u.(nUpdate := u.nUpdate + Flag(s.lcgDist != u.stage.lcgDist, UpdLcgDist)
                            + Flag(s.velvetType != u.stage.velvetType, UpdVelvetType)
                            + Flag(s.velvetWin != u.stage.velvetWin, UpdVelvetWin),
       stage := u.stage.(lcgDist := s.lcgDist, velvetType := s.velvetType, velvetWin := s.velvetWin))
  }

  function CompareCrushStep(u: ChannelUpdate, s: Stage): ChannelUpdate
  {
    u.(nUpdate := u.nUpdate + Flag(s.velvetArnDelta != u.stage.velvetArnDelta, UpdVelvetArnD)
                            + Flag(s.velvetCrush != u.stage.velvetCrush, UpdVelvetCrush)
                            + Flag(s.velvetCrushProb != u.stage.velvetCrushProb, UpdVelvetCrushP),
       stage := u.stage.(velvetArnDelta := s.velvetArnDelta, velvetCrush := s.velvetCrush,
                         velvetCrushProb := s.velvetCrushProb))
  }

  function CompareColorStep(u: ChannelUpdate, s: Stage): ChannelUpdate
  {
    u.(nUpdate := u.nUpdate + (if s.colorSel != u.stage.colorSel then {UpdColor, UpdColorSlopeUnit} else {})
                            + Flag(s.slopeNpn != u.stage.slopeNpn, UpdColorSlope)
                            + Flag(s.slopeDbo != u.stage.slopeDbo, UpdColorSlope)
                            + Flag(s.slopeDbd != u.stage.slopeDbd, UpdColorSlope),
       stage := u.stage.(colorSel := s.colorSel, slopeNpn := s.slopeNpn, slopeDbo := s.slopeDbo,
                         slopeDbd := s.slopeDbd))
  }

  function CompareOutputStep(u: ChannelUpdate, s: Stage): ChannelUpdate
  {
    u.(nUpdate := u.nUpdate + Flag(s.noiseType != u.stage.noiseType, UpdNoiseType)
                            + Flag(s.noiseMode != u.stage.noiseMode, UpdNoiseMode)
                            + Flag(s.amplitude != u.stage.amplitude, UpdNoiseAmplitude)
                            + Flag(s.offset != u.stage.offset, UpdNoiseOffset),
       stage := u.stage.(noiseType := s.noiseType, noiseMode := s.noiseMode, amplitude := s.amplitude,
                         offset := s.offset))
  }

  /** The four steps together. */
  function CompareSteps(u: ChannelUpdate, s: Stage): ChannelUpdate
  {
    CompareOutputStep(CompareColorStep(CompareCrushStep(CompareSynthesisStep(u, s), s), s), s)
  }

  /** Each comparison step flags a group exactly when it was pending already
      or it is one of the step's own groups and its inputs changed. */
  lemma CompareSynthesisFlags(u: ChannelUpdate, s: Stage, g: Group)
    ensures g in CompareSynthesisStep(u, s).nUpdate <==>
      g in u.nUpdate || (g in {UpdLcgDist, UpdVelvetType, UpdVelvetWin} && Differs(g, u.stage, s))
  {
  }

  lemma CompareCrushFlags(u: ChannelUpdate, s: Stage, g: Group)
    ensures g in CompareCrushStep(u, s).nUpdate <==>
      g in u.nUpdate || (g in {UpdVelvetArnD, UpdVelvetCrush, UpdVelvetCrushP} && Differs(g, u.stage, s))
  {
  }

  lemma CompareColorFlags(u: ChannelUpdate, s: Stage, g: Group)
    ensures g in CompareColorStep(u, s).nUpdate <==>
      g in u.nUpdate || (g in {UpdColor, UpdColorSlope, UpdColorSlopeUnit} && Differs(g, u.stage, s))
  {
  }

  lemma CompareOutputFlags(u: ChannelUpdate, s: Stage, g: Group)
    ensures g in CompareOutputStep(u, s).nUpdate <==>
      g in u.nUpdate || (g in {UpdNoiseType, UpdNoiseMode, UpdNoiseAmplitude, UpdNoiseOffset} && Differs(g, u.stage, s))
  {
  }

  /** Comparing port by port, in the plugin's order, stores the whole new
      snapshot and flags exactly the groups the snapshot comparison calls
      changed: every port is looked at once, against the old value. */
  lemma CompareStepsChanged(u: ChannelUpdate, s: Stage)
    ensures CompareSteps(u, s) == u.(nUpdate := u.nUpdate + Changed(u.stage, s), stage := s)
  {
    var u1 := CompareSynthesisStep(u, s);
    var u2 := CompareCrushStep(u1, s);
    var u3 := CompareColorStep(u2, s);
    var r := CompareOutputStep(u3, s);
    forall g ensures g in r.nUpdate <==> g in u.nUpdate + Changed(u.stage, s) {
      CompareSynthesisFlags(u, s, g);
      CompareCrushFlags(u1, s, g);
      CompareColorFlags(u2, s, g);
      CompareOutputFlags(u3, s, g);
      ChangedIffDiffers(u.stage, s, g);
    }
  }

  lemma InAllGroups(g: Group)
    ensures g in ALL_GROUPS
  {
  }

  /** The comparison flags a group exactly when that group's inputs differ. */
  lemma ChangedIffDiffers(a: Stage, b: Stage, g: Group)
    ensures g in Changed(a, b) <==> Differs(g, a, b)
    ensures g in ChangedAsWritten(a, b) <==> g != UpdColorSlopeUnit && Differs(g, a, b)
  {
    InAllGroups(g);
  }

  /** The inaudible flag after an update: off whenever the sample rate forces
      audible output, otherwise the switch. */
  function InaudibleAfter(forceAudible: bool, sw: real): (ina: bool)
    ensures ina ==> !forceAudible
    ensures !forceAudible ==> (ina <==> sw >= SWITCH_THRESHOLD)
  {
    if forceAudible then false else SwitchOn(sw)
  }

  /** Groups flagged by the inaudible step as the source writes it: only a
      switch change while audible output is not forced re-flags colour. */
  function InaudibleFlagsAsWritten(was: bool, forceAudible: bool, sw: real): set<Group>
  {
    if forceAudible then {}
    else if SwitchOn(sw) != was then {UpdColor, UpdColorSlope}
    else {}
  }

  /** Groups flagged by the inaudible step once corrected: every change of the
      inaudible flag, forced or not, re-flags colour and slope. */
  function InaudibleFlags(was: bool, forceAudible: bool, sw: real): (m: set<Group>)
    ensures m != {} <==> InaudibleAfter(forceAudible, sw) != was
    ensures m != {} ==> m == {UpdColor, UpdColorSlope}
  {
    if InaudibleAfter(forceAudible, sw) != was then {UpdColor, UpdColorSlope} else {}
  }

  /** Whether any channel's solo switch is on. */
  predicate HasSolo(ports: seq<ChannelPorts>)
  {
    exists i :: 0 <= i < |ports| && PortSwitchOn(ports[i].solo)
  }

  /** With a solo engaged at least one channel plays, every soloed channel
      plays whatever its mute switch says, and every other channel is
      silent; with none engaged, exactly the unmuted channels play. */
  lemma SoloActivity(us: seq<ChannelUpdate>, ports: seq<ChannelPorts>)
    requires |us| == |ports|
    ensures HasSolo(ports) ==>
      exists i :: 0 <= i < |ports| && UpdateChannel(us[i], ports[i], true).active
    ensures forall i :: 0 <= i < |ports| ==>
      (UpdateChannel(us[i], ports[i], HasSolo(ports)).active <==>
       if HasSolo(ports) then PortSwitchOn(ports[i].solo) else !PortSwitchOn(ports[i].mute))
  {
  }

  /** The solo/mute rule: with a soloed channel anywhere, a channel plays iff
      it is soloed itself; otherwise it plays unless it is muted. */
  function Activity(hasSolo: bool, p: ChannelPorts): bool
  {
    if hasSolo then PortSwitchOn(p.solo) else !PortSwitchOn(p.mute)
  }

  /** One channel's control-rate update, once corrected. */
  function UpdateChannel(u: ChannelUpdate, p: ChannelPorts, hasSolo: bool): (r: ChannelUpdate)
    ensures r.stage == Snapshot(p)
    ensures u.nUpdate <= r.nUpdate
    ensures r.forceAudible == u.forceAudible
    ensures r.forceAudible ==> !r.inaudible
    ensures forall g :: g in r.nUpdate && g !in u.nUpdate ==>
      Differs(g, u.stage, r.stage) || (r.inaudible != u.inaudible && g in {UpdColor, UpdColorSlope})
  {
    var s := Snapshot(p);
    ChannelUpdate(
      u.nUpdate + Changed(u.stage, s) + InaudibleFlags(u.inaudible, u.forceAudible, p.inaudibleSw),
      s, Activity(hasSolo, p), InaudibleAfter(u.forceAudible, p.inaudibleSw), u.forceAudible)
  }

  /** The inaudible rule as a step on the update record. */
  function InaudibleStep(u: ChannelUpdate, sw: real): ChannelUpdate
  {
    u.(nUpdate := u.nUpdate + InaudibleFlags(u.inaudible, u.forceAudible, sw),
       inaudible := InaudibleAfter(u.forceAudible, sw))
  }

  /** The plugin's order of work (activity, then the ports one by one, then
      the inaudible rule) yields the update of UpdateChannel. */
  lemma UpdateBySteps(u: ChannelUpdate, p: ChannelPorts, hasSolo: bool)
    ensures InaudibleStep(CompareSteps(u.(active := Activity(hasSolo, p)), Snapshot(p)), p.inaudibleSw)
            == UpdateChannel(u, p, hasSolo)
  {
    CompareStepsChanged(u.(active := Activity(hasSolo, p)), Snapshot(p));
  }

  /** One channel's control-rate update as the source writes it. */
  function UpdateChannelAsWritten(u: ChannelUpdate, p: ChannelPorts, hasSolo: bool): (r: ChannelUpdate)
    ensures r.stage == Snapshot(p)
    ensures u.nUpdate <= r.nUpdate
    ensures r.forceAudible ==> !r.inaudible
  {
    var s := Snapshot(p);
    ChannelUpdate(
      u.nUpdate + ChangedAsWritten(u.stage, s) + InaudibleFlagsAsWritten(u.inaudible, u.forceAudible, p.inaudibleSw),
      s, Activity(hasSolo, p), InaudibleAfter(u.forceAudible, p.inaudibleSw), u.forceAudible)
  }

  /** A group whose inputs did not change and whose inaudible state did not
      flip is not flagged by an update, and a flagged group stays flagged. */
  lemma {:induction false} UpdateFlagsExactly(u: ChannelUpdate, p: ChannelPorts, hasSolo: bool, g: Group)
    requires g !in u.nUpdate
    ensures var r := UpdateChannel(u, p, hasSolo);
      g in r.nUpdate <==>
        Differs(g, u.stage, Snapshot(p)) || (r.inaudible != u.inaudible && g in {UpdColor, UpdColorSlope})
  {
    ChangedIffDiffers(u.stage, Snapshot(p), g);
  }

  /** Running the update twice with the same port values is the same as
      running it once: the second run flags nothing new. */
  lemma UpdateIdempotent(u: ChannelUpdate, p: ChannelPorts, hasSolo: bool)
    ensures UpdateChannel(UpdateChannel(u, p, hasSolo), p, hasSolo) == UpdateChannel(u, p, hasSolo)
  {
    var r := UpdateChannel(u, p, hasSolo);
    assert Changed(r.stage, Snapshot(p)) == {};
    assert InaudibleFlags(r.inaudible, r.forceAudible, p.inaudibleSw) == {};
  }

  /** The slope value that belongs to the colour selector's unit. */
  function SlopeFor(st: Stage): real
  {
    match GetColorSlopeUnit(st.colorSel)
    case DbPerOctave => st.slopeDbo
    case DbPerDecade => st.slopeDbd
    case NeperPerNeper => st.slopeNpn
  }

  /** The colour the generator must use: white whenever inaudible. */
  function ColorFor(sel: nat, inaudible: bool): NoiseColor
  {
    if inaudible then ColorWhite else GetColor(sel)
  }

  /** Every parameter as the snapshot and inaudible flag ask for it. */
  function Decode(st: Stage, inaudible: bool): Params
  {
    Params(GetLcgDist(st.lcgDist),
           GetVelvetType(st.velvetType), st.velvetWin, st.velvetArnDelta, st.velvetCrush, st.velvetCrushProb / 100.0,
           ColorFor(st.colorSel, inaudible), SlopeFor(st), GetColorSlopeUnit(st.colorSel),
           GetGeneratorType(st.noiseType), GetChannelMode(st.noiseMode), st.amplitude, st.offset)
  }

  /** Whether a commit under mask m recomputes group g. The two slope groups
      are recomputed together: either bit recomputes the slope value and its
      unit. */
  predicate Pending(g: Group, m: set<Group>)
  {
    g in m || ((g == UpdColorSlope || g == UpdColorSlopeUnit) && (UpdColorSlope in m || UpdColorSlopeUnit in m))
  }

  /** Whether two parameter sets agree on the fields of group g. */
  predicate Agrees(g: Group, p: Params, q: Params)
  {
    match g
    case UpdLcgDist => p.lcgDist == q.lcgDist
    case UpdVelvetType => p.velvetType == q.velvetType
    case UpdVelvetWin => p.velvetWin == q.velvetWin
    case UpdVelvetArnD => p.velvetArnDelta == q.velvetArnDelta
    case UpdVelvetCrush => p.velvetCrush == q.velvetCrush
    case UpdVelvetCrushP => p.velvetCrushProb == q.velvetCrushProb
    case UpdColor => p.color == q.color
    case UpdColorSlope => p.colorSlope == q.colorSlope && p.colorSlopeUnit == q.colorSlopeUnit
    case UpdColorSlopeUnit => p.colorSlope == q.colorSlope && p.colorSlopeUnit == q.colorSlopeUnit
    case UpdNoiseType => p.noiseType == q.noiseType
    case UpdNoiseMode => p.mode == q.mode
    case UpdNoiseAmplitude => p.amplitude == q.amplitude
    case UpdNoiseOffset => p.offset == q.offset
  }

  /** The parameters p with every group pending under m taken from d. */
  function Overlay(p: Params, d: Params, m: set<Group>): Params
  {
    var slope := UpdColorSlope in m || UpdColorSlopeUnit in m;
    Params(
      if UpdLcgDist in m then d.lcgDist else p.lcgDist,
      if UpdVelvetType in m then d.velvetType else p.velvetType,
      if UpdVelvetWin in m then d.velvetWin else p.velvetWin,
      if UpdVelvetArnD in m then d.velvetArnDelta else p.velvetArnDelta,
      if UpdVelvetCrush in m then d.velvetCrush else p.velvetCrush,
      if UpdVelvetCrushP in m then d.velvetCrushProb else p.velvetCrushProb,
      if UpdColor in m then d.color else p.color,
      if slope then d.colorSlope else p.colorSlope,
      if slope then d.colorSlopeUnit else p.colorSlopeUnit,
      if UpdNoiseType in m then d.noiseType else p.noiseType,
      if UpdNoiseMode in m then d.mode else p.mode,
      if UpdNoiseAmplitude in m then d.amplitude else p.amplitude,
      if UpdNoiseOffset in m then d.offset else p.offset)
  }

  /** An overlay takes exactly the pending groups from d and keeps every other
      group of p. */
  lemma OverlayAgrees(p: Params, d: Params, m: set<Group>, g: Group)
    ensures Pending(g, m) ==> Agrees(g, Overlay(p, d, m), d)
    ensures !Pending(g, m) ==> Agrees(g, Overlay(p, d, m), p)
  {
  }

  /** Commits the pending groups of u to p: each pending group takes the
      decoded snapshot value (the crush probability port is in percent and is
      stored as a fraction), every other group keeps its value. */
  function CommitParams(p: Params, u: ChannelUpdate): (r: Params)
    ensures u.nUpdate == {} ==> r == p
    ensures UpdColor in u.nUpdate && u.inaudible ==> r.color == ColorWhite
    ensures UpdColor in u.nUpdate && !u.inaudible ==> r.color == GetColor(u.stage.colorSel)
    ensures UpdVelvetCrushP in u.nUpdate ==> r.velvetCrushProb * 100.0 == u.stage.velvetCrushProb
    ensures UpdColorSlope in u.nUpdate || UpdColorSlopeUnit in u.nUpdate ==>
      r.colorSlopeUnit == GetColorSlopeUnit(u.stage.colorSel) &&
      r.colorSlope == (if u.stage.colorSel == NOISE_COLOR_ARBITRARY_DBO then u.stage.slopeDbo
                       else if u.stage.colorSel == NOISE_COLOR_ARBITRARY_DBD then u.stage.slopeDbd
                       else u.stage.slopeNpn)
  {
    Overlay(p, Decode(u.stage, u.inaudible), u.nUpdate)
  }

  /** The four steps of a commit, in the order the plugin takes the groups:
      each one copies the decoded snapshot into the parameters of its share
      of the groups that are pending under m, and keeps the others. */
  function CommitSynthesisStep(p: Params, m: set<Group>, st: Stage): Params
  {
    p.(lcgDist := if UpdLcgDist in m then GetLcgDist(st.lcgDist) else p.lcgDist,
       velvetType := if UpdVelvetType in m then GetVelvetType(st.velvetType) else p.velvetType,
       velvetWin := if UpdVelvetWin in m then st.velvetWin else p.velvetWin)
  }

  function CommitCrushStep(p: Params, m: set<Group>, st: Stage): Params
  {
    p.(velvetArnDelta := if UpdVelvetArnD in m then st.velvetArnDelta else p.velvetArnDelta,
       velvetCrush := if UpdVelvetCrush in m then st.velvetCrush else p.velvetCrush,
       velvetCrushProb := if UpdVelvetCrushP in m then st.velvetCrushProb / 100.0 else p.velvetCrushProb)
  }

  function CommitColorStep(p: Params, m: set<Group>, st: Stage, inaudible: bool): Params
  {
    var slopeDue := UpdColorSlope in m || UpdColorSlopeUnit in m;
    p.(color := if UpdColor in m then ColorFor(st.colorSel, inaudible) else p.color,
       colorSlope := if slopeDue then SlopeFor(st) else p.colorSlope,
       colorSlopeUnit := if slopeDue then GetColorSlopeUnit(st.colorSel) else p.colorSlopeUnit)
  }

  function CommitOutputStep(p: Params, m: set<Group>, st: Stage): Params
  {
    p.(noiseType := if UpdNoiseType in m then GetGeneratorType(st.noiseType) else p.noiseType,
       mode := if UpdNoiseMode in m then GetChannelMode(st.noiseMode) else p.mode,
       amplitude := if UpdNoiseAmplitude in m then st.amplitude else p.amplitude,
       offset := if UpdNoiseOffset in m then st.offset else p.offset)
  }

  /** The four steps together. */
  function CommitSteps(p: Params, u: ChannelUpdate): Params
  {
    var m, st := u.nUpdate, u.stage;
    CommitOutputStep(CommitColorStep(CommitCrushStep(CommitSynthesisStep(p, m, st), m, st), m, st, u.inaudible), m, st)
  }

  /** Taking the groups one step at a time, in the plugin's order, commits
      exactly what the overlay of the decoded snapshot describes: the order
      of the steps does not matter, and no group is skipped or taken twice. */
  lemma CommitStepsOverlay(p: Params, u: ChannelUpdate)
    ensures CommitSteps(p, u) == CommitParams(p, u)
  {
    var q, r := CommitSteps(p, u), CommitParams(p, u);
    forall g ensures Agrees(g, q, r) {
      OverlayAgrees(p, Decode(u.stage, u.inaudible), u.nUpdate, g);
    }
    AgreeingParamsEqual(q, r);
  }

  /** The channel invariant: every parameter group that is not pending holds
      exactly what the snapshot and the inaudible flag ask for. */
  predicate Coherent(p: Params, u: ChannelUpdate)
  {
    forall g :: !Pending(g, u.nUpdate) ==> Agrees(g, p, Decode(u.stage, u.inaudible))
  }

  /** The initial mask leaves no group unpending, so any parameters are
      coherent with a freshly initialised update record. */
  lemma InitIsCoherent(p: Params, u: ChannelUpdate)
    requires u.nUpdate == INIT_GROUPS
    ensures forall g :: Pending(g, u.nUpdate)
    ensures Coherent(p, u)
  {
    forall g ensures Pending(g, u.nUpdate) {
      InAllGroups(g);
    }
  }

  /** Parameter sets that agree on every group are equal. */
  lemma AgreeingParamsEqual(p: Params, q: Params)
    requires forall g :: Agrees(g, p, q)
    ensures p == q
  {
    assert Agrees(UpdLcgDist, p, q) && Agrees(UpdVelvetType, p, q) && Agrees(UpdVelvetWin, p, q);
    assert Agrees(UpdVelvetArnD, p, q) && Agrees(UpdVelvetCrush, p, q) && Agrees(UpdVelvetCrushP, p, q);
    assert Agrees(UpdColor, p, q) && Agrees(UpdColorSlope, p, q);
    assert Agrees(UpdNoiseType, p, q) && Agrees(UpdNoiseMode, p, q);
    assert Agrees(UpdNoiseAmplitude, p, q) && Agrees(UpdNoiseOffset, p, q);
  }

  /** From a coherent state, a commit yields exactly the decoded snapshot:
      after it the generator runs with what the user last set. */
  lemma CommitDecodesStage(p: Params, u: ChannelUpdate)
    requires Coherent(p, u)
    ensures CommitParams(p, u) == Decode(u.stage, u.inaudible)
    ensures Coherent(CommitParams(p, u), u.(nUpdate := {}))
  {
    var d, r := Decode(u.stage, u.inaudible), CommitParams(p, u);
    forall g ensures Agrees(g, r, d) {
      OverlayAgrees(p, d, u.nUpdate, g);
    }
    AgreeingParamsEqual(r, d);
  }

  /** The corrected update keeps the channel coherent. */
  lemma UpdatePreservesCoherence(p: Params, u: ChannelUpdate, ports: ChannelPorts, hasSolo: bool)
    requires Coherent(p, u)
    ensures Coherent(p, UpdateChannel(u, ports, hasSolo))
  {
    var r := UpdateChannel(u, ports, hasSolo);
    forall g | !Pending(g, r.nUpdate) ensures Agrees(g, p, Decode(r.stage, r.inaudible)) {
      ChangedIffDiffers(u.stage, r.stage, g);
      ChangedIffDiffers(u.stage, r.stage, UpdColorSlope);
      ChangedIffDiffers(u.stage, r.stage, UpdColorSlopeUnit);
      assert !Pending(g, u.nUpdate);
      assert Agrees(g, p, Decode(u.stage, u.inaudible));
    }
  }

  /** As written, switching the colour selector from the neper-per-neper to the
      dB-per-octave arbitrary slope, with no slope value touched, leaves the
      committed unit at neper per neper although the snapshot says dB per
      octave; the corrected update commits the new unit. */
  lemma AsWrittenSelectorSwitchKeepsStaleUnit(p: Params, u: ChannelUpdate, ports: ChannelPorts, hasSolo: bool)
    requires Coherent(p, u) && u.nUpdate == {}
    requires u.stage.colorSel == NOISE_COLOR_ARBITRARY_NPN
    requires Snapshot(ports) == u.stage.(colorSel := NOISE_COLOR_ARBITRARY_DBO)
    requires InaudibleAfter(u.forceAudible, ports.inaudibleSw) == u.inaudible
    ensures var w := UpdateChannelAsWritten(u, ports, hasSolo);
      CommitParams(p, w).colorSlopeUnit == NeperPerNeper &&
      GetColorSlopeUnit(w.stage.colorSel) == DbPerOctave
    ensures CommitParams(p, UpdateChannel(u, ports, hasSolo)).colorSlopeUnit == DbPerOctave
  {
    var s := Snapshot(ports);
    forall g ensures g in ChangedAsWritten(u.stage, s) <==> g == UpdColor {
      ChangedIffDiffers(u.stage, s, g);
    }
    var w := UpdateChannelAsWritten(u, ports, hasSolo);
    assert w.nUpdate == {UpdColor};
    OverlayAgrees(p, Decode(w.stage, w.inaudible), w.nUpdate, UpdColorSlopeUnit);
    assert Agrees(UpdColorSlopeUnit, p, Decode(u.stage, u.inaudible));
    var r := UpdateChannel(u, ports, hasSolo);
    ChangedIffDiffers(u.stage, s, UpdColorSlopeUnit);
    OverlayAgrees(p, Decode(r.stage, r.inaudible), r.nUpdate, UpdColorSlopeUnit);
  }

  /** As written, when the sample rate forces audible output while a channel is
      inaudible, the inaudible flag drops but the colour is not re-flagged, so a
      pink channel keeps the forced white colour after the next commit; the
      corrected update restores the selected colour. */
  lemma AsWrittenForcedAudibleKeepsWhite(p: Params, u: ChannelUpdate, ports: ChannelPorts, hasSolo: bool)
    requires Coherent(p, u) && u.nUpdate == {}
    requires u.inaudible && u.forceAudible
    requires u.stage.colorSel == NOISE_COLOR_PINK
    requires Snapshot(ports) == u.stage
    ensures var w := UpdateChannelAsWritten(u, ports, hasSolo);
      !w.inaudible && CommitParams(p, w).color == ColorWhite
    ensures CommitParams(p, UpdateChannel(u, ports, hasSolo)).color == ColorPink
  {
    var s := Snapshot(ports);
    forall g ensures g !in Changed(u.stage, s) {
      ChangedIffDiffers(u.stage, s, g);
    }
    var w := UpdateChannelAsWritten(u, ports, hasSolo);
    assert w.nUpdate == {};
    assert Agrees(UpdColor, p, Decode(u.stage, u.inaudible));
    var r := UpdateChannel(u, ports, hasSolo);
    assert UpdColor in r.nUpdate;
  }
}
