# Noise generator plugin: per-channel control logic

This project models the control logic of the lsp-plugins noise generator
(`src/main/plug/noise_generator.cpp`). The noise synthesis itself happens in
library objects that the plugin only configures, and the model does not cover it.
Each channel of the plugin holds:

- a **staged snapshot** of its control ports;
- an **update mask** of parameter groups waiting to be pushed to its noise generator;
- the **committed parameters**: LCG distribution, velvet settings, colour and slope, generator type, channel mode, amplitude and offset;
- an **activity flag** computed by the solo/mute rule;
- an **inaudible flag**, which the sample rate can force off.

The model has five modules:

- `Selectors` holds the six selector decoders. Each one maps a raw port value to an enumeration and falls back to a default for unknown values.
- `Staging` holds the pure rules:
  - the snapshot comparison and the mask it builds;
  - the activity and inaudible rules;
  - the commit as an overlay of the decoded snapshot.

  It also holds the channel invariant `Coherent`: every group that is not pending already holds what the snapshot decodes to. The module proves three things about it: init establishes it, a commit turns it into equality, and the corrected update preserves it.

  Only the corrected update preserves it. The source's comparison and inaudible rule contain the two bugs under "## Findings", and with them an update can break `Coherent`. The source's own update is kept as `Staging.UpdateChannelAsWritten`. The comparison, the inaudible rule and every method built on them implement the corrected rules.
- `Processing` holds the block-rate rules:
  - when inaudible mode is impossible;
  - how a block is cut into scratch-buffer chunks;
  - what a channel writes for a block.
- `Library` models the noise generator and the inaudibility highpass as sinks that record the last value each setter received. It also holds the invariant that the generator mirrors every non-pending group.
- `NoiseGenerator` holds the imperative part:
  - a `Channel` class whose methods update the channel in place. Each method is proved against the functions above.
  - a `Plugin` class that owns the channels and the scratch buffer and runs the sample-rate update, the settings update and the block loop over all channels.

Control values are reals and selector values are natural numbers. No file of the repository defines the selector codes: the metadata files are a leftover delay-plugin template. The model therefore assumes that the codes follow the order in which the options are listed:

| port | codes |
|---|---|
| noise type | Off, MLS, LCG, Velvet |
| LCG distribution | Uniform, Exponential, Triangular, Gaussian |
| velvet type | OVN, OVNA, ARN, TRN |
| colour | White, Pink, Red, Blue, Violet, then arbitrary slopes in neper/neper, dB/octave, dB/decade |
| channel mode | Overwrite, Add, Mult |

These codes are an assumption, not taken from the source. The metadata defaults are likewise a `Stage` value that the caller supplies.

Where the header `include/private/plugins/noise_generator.h` and the `.cpp` disagree, the model follows the `.cpp`. The header describes a different channel layout and only four of the update bits.

## Model

| member | source | states |
|---|---|---|
| Selectors.GetLcgDist | src/main/plug/noise_generator.cpp:89-103 | each of the four known codes decodes to its own distribution; every other value decodes to Gaussian |
| Selectors.GetVelvetType | src/main/plug/noise_generator.cpp:105-119 | each known code decodes to its velvet type; every other value decodes to OVN |
| Selectors.GetColor | src/main/plug/noise_generator.cpp:121-141 | arbitrary colour iff the selector is one of the three arbitrary-slope codes; white iff the selector is white's code or out of range; each named colour iff its own code |
| Selectors.GetColorSlopeUnit | src/main/plug/noise_generator.cpp:143-155 | dB/octave iff the dB/octave selector; dB/decade iff the dB/decade selector; neper/neper for every other selector |
| Selectors.GetGeneratorType | src/main/plug/noise_generator.cpp:157-169 | MLS and velvet decode from their codes; LCG for its own code, for "off" and for every out-of-range value |
| Selectors.GetChannelMode | src/main/plug/noise_generator.cpp:171-183 | each known code decodes to its mode; every other value decodes to overwrite |
| Selectors.DecodersInvertCodes | src/main/plug/noise_generator.cpp:89-183 | decoding the code of any value returns that value, so every enumeration value can be selected |
| Staging.InitialStage | src/main/plug/noise_generator.cpp:185-221 | the initial snapshot is the metadata default in every field except the crush switch, which starts off |
| Staging.InitIsCoherent | src/main/plug/noise_generator.cpp:185-221 | the initial mask leaves every group pending, so any committed parameters are coherent with a fresh channel |
| Staging.ChangedIffDiffers | src/main/plug/noise_generator.cpp:550-648 | a group is flagged by the snapshot comparison iff its port values differ from the snapshot; as written, the slope unit is never flagged |
| Staging.CompareStepsChanged | src/main/plug/noise_generator.cpp:550-648 | corrected: comparing the ports in the plugin's order stores the whole new snapshot and adds exactly the changed groups to the mask, the slope unit included when the selector changes (as written, it is never flagged) |
| Staging.InaudibleAfter | src/main/plug/noise_generator.cpp:650-662 | the inaudible flag is off whenever audible output is forced; otherwise it is on iff the switch reads at least 0.5 |
| Staging.InaudibleFlags | src/main/plug/noise_generator.cpp:650-662 | corrected: colour and slope are flagged iff the inaudible flag changes, including the forced case the source leaves unflagged; nothing else is flagged |
| Staging.SoloActivity | src/main/plug/noise_generator.cpp:527-548 | with any solo on, a channel is active iff its own solo is on (and at least one is); with no solo, iff it is not muted; a missing switch reads off |
| Staging.UpdateChannel | src/main/plug/noise_generator.cpp:540-662 | corrected: an update stores the port snapshot, never clears a bit, keeps the force flag, keeps inaudible off while forced, and every new bit is due to a changed input or an inaudible flip |
| Staging.UpdateBySteps | src/main/plug/noise_generator.cpp:546-662 | corrected: activity, then the four comparison steps, then the inaudible rule, give exactly the corrected update `UpdateChannel` |
| Staging.UpdateFlagsExactly | src/main/plug/noise_generator.cpp:550-662 | corrected: a group not yet pending is flagged iff its inputs changed, or it is colour or slope and the inaudible flag flipped |
| Staging.UpdateIdempotent | src/main/plug/noise_generator.cpp:550-662 | corrected: a second update with the same port values changes nothing and sets no new bits |
| Staging.UpdateChannelAsWritten | src/main/plug/noise_generator.cpp:540-662 | the update as written also stores the snapshot and never clears a bit |
| Staging.OverlayAgrees | src/main/plug/noise_generator.cpp:223-329 | a commit takes every pending group from the decoded snapshot and keeps every other group |
| Staging.CommitParams | src/main/plug/noise_generator.cpp:223-329 | an empty mask commits nothing; a colour commit gives white while inaudible and the decoded selector otherwise; the crush probability is stored as a fraction of the percent value; a slope commit takes the unit from the colour selector and the slope that belongs to that unit |
| Staging.CommitStepsOverlay | src/main/plug/noise_generator.cpp:223-329 | the four commit steps, in source order, give exactly the overlay: no group is skipped or taken twice |
| Staging.CommitDecodesStage | src/main/plug/noise_generator.cpp:223-329 | from a coherent state, a commit yields exactly the decoded snapshot and leaves the channel coherent with an empty mask |
| Staging.UpdatePreservesCoherence | src/main/plug/noise_generator.cpp:550-662 | corrected: the corrected update keeps the channel coherent; the update as written does not (see Findings) |
| Staging.AsWrittenSelectorSwitchKeepsStaleUnit | src/main/plug/noise_generator.cpp:592-621 | as written, a selector switch from neper/neper to dB/octave with unchanged slopes commits a stale neper/neper unit; the corrected update commits dB/octave |
| Staging.AsWrittenForcedAudibleKeepsWhite | src/main/plug/noise_generator.cpp:650-651 | as written, forcing an inaudible pink channel audible leaves it committed white; the corrected update restores pink |
| Processing.ForceAudible | src/main/plug/noise_generator.cpp:518 | inaudible mode is impossible iff the sample rate is below 44100 Hz |
| Processing.ChunksCover | src/main/plug/noise_generator.cpp:692-719 | the chunks are non-empty, at most the buffer size, all full except the last, as few as possible, and they sum to the block length |
| Processing.BlockOutput | src/main/plug/noise_generator.cpp:681-738 | an inactive channel writes silence; otherwise the filtered noise while inaudible and the plain noise otherwise is written over (overwrite), added to (add) or multiplied with (mult) the input, sample by sample |
| Library.MirrorsWiden | src/main/plug/noise_generator.cpp:550-662 | flagging more groups keeps the generator mirroring every group that is not pending |
| Library.MirrorsAfterCommit | src/main/plug/noise_generator.cpp:223-329 | once the commit pushes the pending groups, the generator mirrors every committed parameter; its seeds, colouring order and sample rate are untouched |
| NoiseGenerator.Channel.constructor | src/main/plug/noise_generator.cpp:355-415 | the generator is seeded with the given seeds and the colouring order; the highpass gets its order and type; the initial parameters are set; the defaults are staged |
| NoiseGenerator.Channel.InitStateStage | src/main/plug/noise_generator.cpp:185-221 | stages the defaults, flags every group, clears the active and inaudible flags and keeps the channel valid |
| NoiseGenerator.Channel.CommitSynthesis | src/main/plug/noise_generator.cpp:228-245 | the distribution, velvet type and window step of a commit, on the channel and its generator |
| NoiseGenerator.Channel.CommitCrush | src/main/plug/noise_generator.cpp:247-266 | the ARN delta, crush switch and crush probability step of a commit |
| NoiseGenerator.Channel.CommitColor | src/main/plug/noise_generator.cpp:268-300 | the colour step (white while inaudible) and the slope-with-unit step of a commit |
| NoiseGenerator.Channel.CommitOutput | src/main/plug/noise_generator.cpp:302-326 | the generator type, mode, amplitude and offset step of a commit |
| NoiseGenerator.Channel.CommitStagedStateChange | src/main/plug/noise_generator.cpp:223-329 | the commit clears the mask, leaves the channel with exactly the decoded snapshot, makes the generator mirror every parameter and keeps the channel valid |
| NoiseGenerator.Channel.CompareSynthesis | src/main/plug/noise_generator.cpp:550-570 | compares and copies the distribution, velvet type and window ports |
| NoiseGenerator.Channel.CompareCrush | src/main/plug/noise_generator.cpp:571-591 | compares and copies the ARN delta, crush switch and crush probability ports |
| NoiseGenerator.Channel.CompareColor | src/main/plug/noise_generator.cpp:592-621 | corrected: compares and copies the colour selector and the three slope ports; a new selector also flags the slope unit, which the source does not do |
| NoiseGenerator.Channel.CompareOutput | src/main/plug/noise_generator.cpp:622-648 | compares and copies the noise type, mode, amplitude and offset ports |
| NoiseGenerator.Channel.UpdateInaudible | src/main/plug/noise_generator.cpp:650-662 | corrected: applies the corrected inaudible rule, which also flags colour and slope when audible output is forced |
| NoiseGenerator.Channel.UpdateFromPorts | src/main/plug/noise_generator.cpp:540-662 | corrected: one channel's update equals the corrected `UpdateChannel` of the old record and keeps the channel valid |
| NoiseGenerator.Channel.SetSampleRate | src/main/plug/noise_generator.cpp:515-521 | sets the force flag iff the rate is below 44100 Hz, gives the generator and highpass the rate, fixes the cutoff, and keeps the channel valid |
| NoiseGenerator.Channel.Process | src/main/plug/noise_generator.cpp:679-738 | commits, then writes exactly `BlockOutput` into the first `samples` entries of out and leaves the rest untouched; the highpass and the generator's seeds, colouring order and rate are unchanged; the inaudible path works through `Chunks(samples)` and feeds the highpass the attenuated noise |
| NoiseGenerator.FillZero | src/main/plug/noise_generator.cpp:681-684 | exactly the first `samples` output entries become zero |
| NoiseGenerator.ProcessAudible | src/main/plug/noise_generator.cpp:721-738 | the output is the noise combined with the input under the channel mode |
| NoiseGenerator.ProcessInaudible | src/main/plug/noise_generator.cpp:690-719 | the chunk loop writes the filtered noise combined with the input, takes the chunks of `Chunks`, and feeds the highpass the whole attenuated block |
| NoiseGenerator.ProcessChunk | src/main/plug/noise_generator.cpp:694-718 | one chunk: the scratch buffer holds the attenuated noise, the chunk's outputs are combined, and nothing outside the chunk changes |
| NoiseGenerator.AnySolo | src/main/plug/noise_generator.cpp:527-538 | the early-exit scan finds a solo iff some channel's solo switch is on |
| NoiseGenerator.Plugin.constructor | src/main/plug/noise_generator.cpp:331-416 | one valid channel per seed quadruple, staged with the defaults, plus one scratch buffer's worth per channel |
| NoiseGenerator.Plugin.UpdateSampleRate | src/main/plug/noise_generator.cpp:511-523 | every channel gets the sample-rate update and stays valid |
| NoiseGenerator.Plugin.UpdateSettings | src/main/plug/noise_generator.cpp:525-664 | corrected: every channel's record becomes the corrected `UpdateChannel` of its own ports under the shared solo verdict |
| NoiseGenerator.Plugin.Process | src/main/plug/noise_generator.cpp:666-741 | each channel with both buffers commits and writes its block, and keeps its highpass and its generator's seeds, colouring order and rate; a channel missing a buffer is skipped and left entirely unchanged, with its changes still staged and its output as it was |
| NoiseGenerator.Plugin.ProcessChannel | src/main/plug/noise_generator.cpp:670-739 | one bound channel's block: it has committed and written its output, its highpass and generator settings are kept, and the plugin stays valid |

## Left out

- `make_seed` reads the wall clock. The seeds are a parameter of the constructors.
- Allocation, its failure path, pointer arithmetic and host port binding in `init`, as well as `destroy`, `dump` and the plugin factory: none of these has control behaviour. The ports are modelled as values; the solo and mute ports are optional, the others always bound.
- The noise generator's and the Butterworth filter's DSP, and `dsp::fill_zero`/`copy`/`mul_k2`. The generated noise and the filter output are given per block, so the model does not relate them to the committed settings.
- NoiseGenerator.Channel.Process: the input block is a value, so in-place processing where the host passes the same buffer as input and output is not modelled.
- Staging.Changed, Staging.CompareColorStep, Staging.CompareStepsChanged: these implement the corrected comparison from "## Findings", in which a change of the colour selector also flags the slope unit. The source's comparison exists only inside `Staging.UpdateChannelAsWritten`, as `Staging.ChangedAsWritten`.
- Staging.InaudibleFlags, Staging.InaudibleStep: these implement the corrected inaudible rule from "## Findings", which also flags colour and slope when audible output is forced. The source's rule exists only as `Staging.InaudibleFlagsAsWritten`.
- Staging.UpdateChannel, Staging.UpdateBySteps, Staging.UpdateFlagsExactly, Staging.UpdateIdempotent, Staging.UpdatePreservesCoherence: these state the corrected update. The source's own update is modelled only as `Staging.UpdateChannelAsWritten`, which does not preserve `Coherent`.
- NoiseGenerator.Channel.CompareColor: implements the corrected comparison; the source sets only the colour bit here.
- NoiseGenerator.Channel.UpdateInaudible: implements the corrected inaudible rule; the source flags nothing in the forced branch.
- NoiseGenerator.Channel.UpdateFromPorts: runs the corrected update, not the source's.
- NoiseGenerator.Plugin.UpdateSettings: runs the corrected update, not the source's.
- Processing.ForceAudible: it computes `0.5 * sr` in exact reals rather than single precision. Sample values, NaN and the float-to-integer conversion of selector ports are not modelled either.
- The selector codes and the metadata defaults are not defined by any file of the repository: the metadata files are a delay-plugin template. The codes are an assumption (the order in which the options are listed), and the defaults are a parameter.
- The force-audible flag is never initialised by `init_state_stage` or `init`. The model starts it false; the first sample-rate update sets it.
- The scratch buffer is sized one buffer per channel, as allocated, although the block loop only ever uses its first `BUFFER_SIZE` entries.

## Findings

| source | as written | input that shows it | evidently intended | confidence | as-written member | corrected member |
|---|---|---|---|---|---|---|
| src/main/plug/noise_generator.cpp:592-621 | a change of the colour selector sets only `UPD_COLOR`; `UPD_COLOR_SLOPE_UNIT` is never set, so the commit does not recompute the unit | selector switched from arbitrary neper/neper to arbitrary dB/octave with all three slope ports unchanged: the committed unit stays neper/neper | a selector change also flags the slope unit, so the commit installs the unit and slope the new selector names | not executed | Staging.AsWrittenSelectorSwitchKeepsStaleUnit | Staging.UpdateChannel |
| src/main/plug/noise_generator.cpp:650-651 | when audible output is forced, `bInaudible` is cleared without flagging `UPD_COLOR` and `UPD_COLOR_SLOPE` | a pink channel in inaudible mode whose sample rate drops below 44100 Hz: it leaves inaudible mode but stays committed white | leaving inaudible mode for any reason re-flags colour and slope, as the switch path does | not executed | Staging.AsWrittenForcedAudibleKeepsWhite | Staging.UpdatePreservesCoherence |
