# Golden Sieve: a Dafny model of the simulation core

The Golden Sieve is a browser visualisation of a quasiperiodic optical
lattice. A 24-by-24 lattice of sites carries a potential. A physics step
updates each site's localisation length, participation ratio and
amplitude. While the application boots, a 16 ms timeline tick drives a
normalised "chronos" value from 0 to 1 through five mission phases. A
render-loop integrator pulls 2304 shards (four per site) toward targets
derived from their site and from chronos. A heads-up banner and an audit
log classify the live state.

This project models that core in Dafny and proves its properties:

- `constants.dfy` (`Constants`): grid size, shard count, PHI, the jitter threshold and the scaling-law constants.
- `elementary.dfy` (`Elementary`): `Math`, the cosine, sine, tanh, log, exp and pow functions as parameters. Each satisfies the laws the proofs rely on and nothing more, for example |cos| ≤ 1, exp > 0 and pow(1, x) = 1. `Unit(r)` says a random draw lies in [0, 1).
- `types.dfy` (`Types`): the lattice site and the simulation-state records.
- `physics.dfy` (`Physics`): lattice generation, the scaling law, the per-site physics update, the mean square displacement and the level-spacing histogram.
- `timeline.dfy` (`Timeline`): the 16 ms tick, the initial state and the operator's commands.
- `contraction.dfy` (`Contraction`): one coordinate drawn a fixed fraction of the way toward its target, once and n times.
- `shards.dfy` (`Shards`): shard allocation, the per-shard update as a function, and the in-place integrator over the three shard arrays as a class.
- `hud.dfy` (`Hud`): the mission-status banner.
- `auditlog.dfy` (`AuditTrail`): the audit log's message category and its five-entry, newest-first log, as a class.

Random draws (`Math.random`) are method and function parameters. The
elementary functions are supplied as a `Math` value. Numbers are Dafny
`real`s, so floating-point rounding is not modelled. One tick or one frame
is one call.

Some behaviours of the code that one might not expect, all of which the
model follows:

- The random potential is `(r - 0.5) * V0 * 2.5`, so it lies in [-1.25 V0, 1.25 V0): the factor 2.5 is the width of the whole range (`Physics.RandomPotentialRange`).
- The level-spacing histogram uses the Wigner form when heating and the Poisson form otherwise., so the cold regime gets the Poisson form (`Physics.SpacingAbscissa`).
- The tick advances chronos and the phase table while the boot flag is set, and the avalanche and flare decays run only once the boot is over (`Timeline.TickAfterBoot`). The sliders clear the automation flag but not the boot flag, so a boot in progress keeps advancing from the slider's value (`Timeline.SliderDuringBoot`).
- A freshly generated site has localisation length 0.1. The bound "localisation length ≥ 0.3" therefore holds only after the first physics update (`Physics.UpdateEstablishesInvariant`), and in the heating case only for jitter ≥ 0.
- The tick's resilience is `max(0.005, 1 - 15 d)`, and the render loop's is `max(0, 1 - 12 d)`, where d is the detuning from PHI (`Shards.ResilienceLawsDiffer`).

## Model

| member | source | states |
|---|---|---|
| Physics.Detuning | services/physics.ts:65 | the detuning is non-negative and is zero exactly at resonance (omega = PHI) |
| Physics.ValidateJitterBudget | services/physics.ts:11 | no contract of its own: the budget is jitter ≤ 50; its meaning is stated by JitterBudgetAndHeating |
| Physics.IsHeating | services/physics.ts:68 | no contract of its own: heating is jitter over 50 or detuning over 0.08; see JitterBudgetAndHeating, HeatingBoundary, MissionStatusPriority |
| Physics.Potential | services/physics.ts:28-30 | no contract of its own: the random or two-cosine potential; see RandomPotentialRange, QuasiperiodicPotentialBound, QuasiperiodicPotentialDeterministic |
| Physics.SeededSite | services/physics.ts:32-42 | no contract of its own: the record pushed for index k; see LatticeSeeding, LatticeLayout, GenerateLattice |
| Physics.RawAmplitude | services/physics.ts:81-84 | no contract of its own: the amplitude before the clamp; see UpdateSite for the clamp and its three cases |
| Physics.JitterBudgetAndHeating | services/physics.ts:11 | the jitter budget holds exactly for jitter ≤ 50; exceeding it always means heating; within the detuning limit, heating is exactly exceeding the budget |
| Physics.HeatingBoundary | services/physics.ts:68 | the heating thresholds are strict: jitter 50 and detuning 0.08 do not heat; jitter 50.5 and detuning 0.0801 on either side do |
| Physics.QuasiperiodicPotentialBound | services/physics.ts:30 | the quasiperiodic potential has magnitude at most 2·abs(V0) |
| Physics.RandomPotentialRange | services/physics.ts:29 | the random potential has magnitude at most 1.25·abs(V0); for V0 > 0 it lies in [-1.25 V0, 1.25 V0) |
| Physics.QuasiperiodicPotentialDeterministic | services/physics.ts:28-30 | without random mode the potential does not depend on the draw and is symmetric in x and y |
| Physics.GenerateLattice | services/physics.ts:19-46 | the nested loops produce exactly 576 sites, and site k is the seeded site for index k with its own draws |
| Physics.LatticeLayout | services/physics.ts:23-35 | site k has id k and coordinates (k / 24 - 12, k % 24 - 12), each coordinate in [-12, 11], with k = (x + 12)·24 + (y + 12); site 0 sits at (-12, -12) and site 575 at (11, 11) |
| Physics.LatticeSeeding | services/physics.ts:32-42 | a seeded site has ipr 1, lyapunov 0.1, amplitude in [0.15, 0.25), phase in [0, 2π), the given random flag, and its potential within the potential bounds |
| Physics.CalculateScalingLaw | services/physics.ts:48-51 | alpha0·(1 - tanh(U/delta)) lies strictly between 0 and 2 |
| Physics.LatticeAlpha | services/physics.ts:69 | the lattice's scaling exponent is positive, and is 1 when heating |
| Physics.LocalizationLength | services/physics.ts:74-76 | when heating, xi is 8 + jitter/15 + 10·detuning, so at least 8 for jitter ≥ 0; when not heating, it is at least 0.3 |
| Physics.Ipr | services/physics.ts:79 | the participation ratio is at least 0.01, and exactly 0.05 on random sites |
| Physics.IprDropsUnderHeating | services/physics.ts:79 | at equal non-negative V0, heating never raises the ratio: it is max(0.01, 0.004 V0) when heating and 0.196 V0 (when that is at least 0.01) when not |
| Physics.UpdateSite | services/physics.ts:71-92 | a site update keeps id, coordinates, potential, phase and random flag; the amplitude is the raw amplitude clamped to [0.02, 2]; ipr and lyapunov are the state's values |
| Physics.UpdateLatticePhysics | services/physics.ts:59-94 | the update keeps the lattice's length, updates every site as UpdateSite does with its own draw, and keeps each amplitude in [0.02, 2] |
| Physics.UpdateEstablishesInvariant | services/physics.ts:71-93 | after one update, with jitter ≥ 0, every site has amplitude in [0.02, 2], lyapunov ≥ 0.3 and ipr ≥ 0.01 |
| Physics.MsdAlpha | services/physics.ts:99 | the MSD exponent's raw alpha is positive, and is 1 when heating |
| Physics.MsdExponent | services/physics.ts:100 | the exponent min(1, alpha) lies in (0, 1], never exceeds alpha, and is 1 when heating |
| Physics.CalculateMSD | services/physics.ts:96-101 | at time 0 the MSD is 1; when heating it grows linearly, as time + 1 |
| Physics.Wigner | services/physics.ts:108 | the Wigner form is non-negative at non-negative s |
| Physics.Poisson | services/physics.ts:108 | the Poisson form is positive |
| Physics.SpacingBase | services/physics.ts:107-108 | every bin's base value is non-negative |
| Physics.SpacingAbscissa | services/physics.ts:107-108 | bin i uses s = 3i/20 and takes the Wigner form when heating and the Poisson form otherwise |
| Physics.GenerateLevelSpacing | services/physics.ts:103-112 | the loop yields exactly 20 bins; bin i is its base value plus 0.04 times its draw, so it lies in [base, base + 0.04) and is non-negative |
| Timeline.InitialState | App.tsx:19-48 | no contract of its own (a constant): see InitialStateValid |
| Timeline.MapLinear | App.tsx:130 | no contract of its own: see SweepPosition, SweepMonotone |
| Timeline.TickResilience | App.tsx:100-101 | the tick resilience lies in [0.005, 1] and is 1 exactly at resonance |
| Timeline.BootStep | App.tsx:112-113 | the boot step is 0.0035, or 0.0018 inside the slow window, so always in [0.0018, 0.0035] |
| Timeline.SweepPosition | App.tsx:130 | the linear map sends 0.6 to -220 and 0.88 to 250, and keeps [0.6, 0.88) within [-220, 250) |
| Timeline.SweepMonotone | App.tsx:130 | the sieve sweep position is monotone in chronos |
| Timeline.Tick | App.tsx:97-146 | while booting, chronos does not decrease, stays at most 1 and strictly grows below 1, and bootProgress follows it; after boot, chronos and the boot flag are untouched |
| Timeline.PhaseTable | App.tsx:110-140 | a booting tick sets chronos to min(1, old + step); the new chronos's half-open interval picks the mission step, view mode and sieve position; reaching 1 ends the boot and the automation; no other field changes |
| Timeline.PhaseNamesDistinct | App.tsx:119-140 | the five mission-step names are pairwise different |
| Timeline.PhaseBoundaries | App.tsx:113-140 | from 0.2965, 0.5965, 0.8782 and 0.9965 a tick lands exactly on 0.3, 0.6, 0.88 and 1 and enters phase 1, phase 2 (sweep at -220), phase 3 (sweep at 250) and the lock |
| Timeline.TickAfterBoot | App.tsx:103-108 | after boot, a tick moves only the avalanche sweep (by 20·resilience, so at least 0.1, while below 450) and the flare (by 0.05·resilience, floored at 0, while positive); with neither update the state is returned unchanged |
| Timeline.InitialStateValid | App.tsx:19-48 | the initial state is within the valid ranges, is booting and is not yet locked |
| Timeline.TickPreservesValid | App.tsx:97-146 | a tick keeps chronos and flare in [0, 1] and the avalanche sweep at most 470; a locked state stays locked |
| Timeline.LockedIsFinal | App.tsx:103-108 | once locked, any number of ticks leaves the state locked with the same chronos |
| Timeline.BootProgress | App.tsx:110-140 | after n ticks from a booting state, either the boot is still running with chronos raised by at least 0.0018 per tick, or the mission is locked |
| Timeline.BootCompletes | App.tsx:110-140 | any boot from chronos in [0, 1] is locked after 556 ticks |
| Timeline.DecayProgress | App.tsx:103-108 | after boot, n ticks never raise the flare and lower it by at least 0.00025 per tick down to 0; the avalanche sweep gains at least 0.1 per tick up to 450 |
| Timeline.CommandsTakeOver | App.tsx:391-571 | the sliders (445, 523, 527, 533, 536), the flare (392) and the avalanche (397) clear the automation; snap-to-phi (571) and the burst timer (393) keep it; no command touches the boot flag; only the timeline slider moves chronos |
| Timeline.CommandsIdempotent | App.tsx:391-571 | every command issued twice gives the same state as issued once, and a second timeline-slider move overrides the first |
| Timeline.SliderDuringBoot | App.tsx:445 | moving the timeline slider during boot keeps the boot running, so the next tick advances from the new value; the material phase is 1 exactly when the new chronos exceeds 0.8 |
| Timeline.CommandsPreserveValid | App.tsx:391-571 | every command keeps the state valid, the timeline slider within its range [0, 1] |
| Timeline.FlareRecovery | App.tsx:391-394 | after boot, the tick after a flare takes the excitation from 1 strictly down, not below 0, and to exactly 0.95 at resonance |
| Timeline.SnapRestoresResonance | App.tsx:571 | snapping to phi restores full resilience, and the state then heats exactly when the jitter exceeds the threshold |
| Timeline.SetChronos | App.tsx:445 | no contract of its own: see CommandsTakeOver, CommandsIdempotent, SliderDuringBoot, CommandsPreserveValid |
| Timeline.TriggerFlare | App.tsx:392 | no contract of its own: see CommandsTakeOver, CommandsIdempotent, FlareRecovery, Hud.CommandsEndAutoSequenceBanner |
| Timeline.EndRadiationBurst | App.tsx:393 | no contract of its own: see CommandsTakeOver, CommandsIdempotent, CommandsPreserveValid |
| Timeline.TriggerAvalanche | App.tsx:397 | no contract of its own: see CommandsTakeOver, CommandsIdempotent, DecayProgress |
| Timeline.SetOmega | App.tsx:524 | no contract of its own: see CommandsTakeOver, CommandsIdempotent, CommandsPreserveValid |
| Timeline.SetV0 | App.tsx:528 | no contract of its own: see CommandsTakeOver, CommandsIdempotent, CommandsPreserveValid |
| Timeline.SetJitter | App.tsx:533 | no contract of its own: see CommandsTakeOver, CommandsIdempotent, CommandsPreserveValid |
| Timeline.SetU | App.tsx:536 | no contract of its own: see CommandsTakeOver, CommandsIdempotent, CommandsPreserveValid |
| Timeline.SnapToPhi | App.tsx:571 | no contract of its own: see SnapRestoresResonance, CommandsTakeOver, CommandsIdempotent |
| Shards.ShardIndex | App.tsx:295 | no contract of its own: see ShardIndexBijection |
| Shards.ShardIndexBijection | App.tsx:294-295 | idx = site·4 + j maps the 576 sites and 4 places onto 0..2303 one to one, with inverse (idx / 4, idx % 4) |
| Shards.InitialOffset | App.tsx:69-73 | no contract of its own: see InitialOffsetRange, ShardEnsemble.constructor |
| Shards.InitialOffsetRange | App.tsx:69-73 | every axis of an initial offset lies in [-80, 80) |
| Shards.RenderResilience | App.tsx:241-242 | the render resilience lies in [0, 1] and is 1 exactly at resonance |
| Shards.ResilienceLawsDiffer | App.tsx:242 | at detuning 1/12 or more the render resilience is 0 while the tick's stays at least 0.005 |
| Shards.Clamp | App.tsx:276 | no contract of its own: see LocalForgeFactor |
| Shards.LocalForgeFactor | App.tsx:275-276 | the forge factor lies in [0, 1]; it is 1 once chronos exceeds 0.99 and behind the sweep, and 0 more than 35 units ahead of it |
| Shards.SieveBaseZ | App.tsx:244 | no contract of its own: see TargetAtLock |
| Shards.Target | App.tsx:300-306 | a shard's x and y targets are its site's coordinates plus its offset times (1 - chronos) |
| Shards.TargetAtLock | App.tsx:300-306 | at chronos 1 the target is (site.x, site.y, 10 + 2.2·site.v) |
| Shards.Extrusion | App.tsx:308-312 | the extrusion is at most 35 in size and is 0 outside the 4D view |
| Shards.Agitation | App.tsx:314 | with a non-negative flare, the agitation is non-negative |
| Shards.AgitationCauses | App.tsx:314-319 | the avalanche front, jitter of 51 or more, or a flare above 0.1/45 each make a site agitated; with no flare, outside the front and within the jitter threshold it is not |
| Shards.Agitated | App.tsx:319 | no contract of its own: see PlanFacts, AgitationCauses |
| Shards.SnapSpeedRange | App.tsx:317 | for chronos and resilience in [0, 1] the snap speed lies in (0, 0.95] |
| Shards.SnapSpeed | App.tsx:317 | no contract of its own: see SnapSpeedRange, PlanFacts |
| Shards.AtEnd | App.tsx:316 | no contract of its own: see PlanFacts, LockedShardStays |
| Shards.AgitatedStep | App.tsx:319-328 | no contract of its own: see Agitate, AgitatedAtRest |
| Shards.SnapStep | App.tsx:329-337 | no contract of its own: see Snap, SnapStepContracts |
| Shards.PlanFor | App.tsx:294-317 | no contract of its own: see PlanFacts |
| Shards.ShardStep | App.tsx:319-338 | no contract of its own: see ShardEnsemble.StepShard, FramesAreSnapFrames, LockedShardStays |
| Contraction.Approach | App.tsx:330-332 | no contract of its own: see ApproachContracts, ApproachesContract |
| Contraction.ApproachContracts | App.tsx:330-332 | moving a coordinate the fraction k of the way scales its signed offset from the target by 1 - k, so its distance never grows |
| Shards.PlanFacts | App.tsx:294-337 | the per-shard parameters: agitated exactly when the agitation exceeds 0.1, the site's target, a resilience in [0, 1] that is 1 only on resonance, a snap speed in (0, 0.95] for chronos in [0, 1], a snap height within 35 of the target's and equal to it outside the 4D view, and the end only above chronos 0.999 |
| Shards.AgitatedAtRest | App.tsx:319-328 | without noise, a shard at rest on its target is a fixed point of the agitated step |
| Shards.SnapStepContracts | App.tsx:329-337 | a snap step zeroes the velocity and scales each axis's distance to its target by 1 - speed, or lands exactly on the target at the end |
| Contraction.ApproachesContract | App.tsx:330-332 | n approaches scale a coordinate's signed offset from its target by (1 - k)^n |
| Contraction.PowerShrinks | App.tsx:330-332 | for a factor in [0, 1] the powers (1 - k)^n are non-negative, at most 1 and do not grow with n |
| Contraction.PowerBernoulli | App.tsx:330-332 | for k in (0, 1], (1 - k)^n is non-negative and (1 - k)^n·(1 + n·k) ≤ 1, so the factor falls below any positive tolerance |
| Contraction.ApproachesWithin | App.tsx:330-332 | after n approaches at rate k in (0, 1] the distance to the target times 1 + n·k is at most the first distance |
| Contraction.ApproachesReach | App.tsx:330-332 | for any eps > 0, once n·k·eps reaches the first distance, n approaches leave the coordinate within eps of its target |
| Contraction.ApproachesSettle | App.tsx:330-332 | the same, with the distances written as two-sided bounds on the signed offsets |
| Shards.SnapFramesAxes | App.tsx:329-337 | snap frames away from the end move each coordinate independently and leave the shard at rest |
| Shards.SnapFramesContract | App.tsx:329-337 | after n snap frames each axis's signed offset is (1 - speed)^n times the initial one, and the velocity is zero |
| Shards.FramesAreSnapFrames | App.tsx:274-338 | with the parameters held fixed in the snap regime and before the end, the integrator's frames are snap frames toward the shard's target and snap height |
| Shards.SnapConverges | App.tsx:274-338 | under those conditions and with the snap height at the target's, after n frames each axis's offset from the target is (1 - speed)^n times the initial one, and the shard is at rest |
| Shards.FramesAxes | App.tsx:329-337 | in the snap regime before the end, n frames put each coordinate at its n-th approach toward the target (z toward the snap height) |
| Shards.FramesAxis | App.tsx:329-337 | the same for one axis, toward the aim (the target with z replaced by the snap height) |
| Shards.SnapWithinTolerance | App.tsx:274-338 | with fixed parameters in the snap regime before the end and speed in (0, 1], for any eps > 0 and any axis, once n·speed·eps reaches the first offset from the aim, n frames leave the shard within eps of the aim: the shards converge to their targets |
| Shards.LockedShardStays | App.tsx:316-337 | at the end of the timeline, in the snap regime, every frame from the first on leaves the shard on its target at rest |
| Shards.Agitate | App.tsx:319-328 | the in-place sequence of noise, spring, damping and move computes the agitated step |
| Shards.Snap | App.tsx:329-337 | the in-place sequence of approach, velocity reset and end snap computes the snap step |
| Shards.ShardEnsemble.constructor | App.tsx:64-76 | allocation creates three fresh 2304-element arrays: every shard at the origin and at rest, each offset drawn from its own draws |
| Shards.ShardEnsemble.StepShard | App.tsx:294-338 | the inner-loop body sets one shard's position and velocity to its step under its parameters from the old ones, and leaves every other shard unchanged |
| Shards.ShardEnsemble.Integrate | App.tsx:274-338 | one frame over all sites and their four shards sets every shard idx to its step with site idx / 4 and place idx % 4; the offsets stay |
| Hud.ReplaceUnderscores | components/HUD.tsx:27 | the result has the input's length, has a space wherever the input has '_' and the input's character elsewhere, and contains no '_' |
| Hud.ReplaceUnderscoresIdentity | components/HUD.tsx:27 | text without '_' is unchanged |
| Hud.ReplaceUnderscoresIdempotent | components/HUD.tsx:27 | replacing twice is replacing once |
| Hud.GetMissionStatus | components/HUD.tsx:11-38 | the banner is one of the five labels; it is FLARE_IMPACT exactly under a burst, and AUTO_SEQUENCE exactly under automation without a burst, with a subtitle as long as the mission step and free of '_' |
| Hud.MissionStatusPriority | components/HUD.tsx:14-37 | each label appears exactly when its condition holds and no earlier one does; without burst or automation, EVAPORATION or DRIVE_DRIFT appears exactly when heating |
| Hud.LabelsDistinct | components/HUD.tsx:16-37 | the five labels are pairwise different |
| Hud.CommandsEndAutoSequenceBanner | components/HUD.tsx:24-32 | after a slider move, an avalanche or a flare the banner never shows AUTO_SEQUENCE; after a flare it shows FLARE_IMPACT |
| AuditTrail.MessageText | components/AuditLog.tsx:29-37 | no contract of its own: the fixed text after the time stamp; see MessageTextInjective |
| AuditTrail.SelectCategory | components/AuditLog.tsx:25-38 | no contract of its own: the if/else chain; see CategoryPriority, LogAgreesWithBanner |
| AuditTrail.MessageTextInjective | components/AuditLog.tsx:28-38 | different categories have different message texts |
| AuditTrail.CategoryPriority | components/AuditLog.tsx:25-38 | CRITICAL exactly under a burst; ERROR exactly when heating without a burst; WARN, INFO and OK exactly under their conditions with no earlier one holding |
| AuditTrail.LogAgreesWithBanner | components/AuditLog.tsx:25-38 | the log records CRITICAL exactly when the banner shows FLARE_IMPACT; without burst or automation it records ERROR exactly when the banner shows a danger label; a locked banner goes with WARN, INFO or OK |
| AuditTrail.Prepend | components/AuditLog.tsx:40 | the new log has length min(old + 1, 5), the new entry at index 0, and then the old log's first entries in order |
| AuditTrail.HistoryKeepsNewest | components/AuditLog.tsx:40 | recording entries one at a time onto the empty log leaves exactly the newest five, newest first |
| AuditTrail.AuditLog.constructor | components/AuditLog.tsx:18 | the log starts empty |
| AuditTrail.AuditLog.Record | components/AuditLog.tsx:20-41 | each interval callback classifies the state and prepends its entry, keeping at most five entries |

## Left out

- Rendering: the Three.js scene, the sieve surface, the wave and avalanche meshes, rays, shadows, instance matrices, shard scaling and colours, and the camera (App.tsx:148-389 outside the integrator at 274-338). Two lines of that range do feed the model: the time advance at App.tsx:237 is the `time` parameter, and the lattice update at App.tsx:239 is `Physics.UpdateLatticePhysics`. The rest does not feed back into the state.
- Timers and scheduling: the 16 ms interval, the animation-frame loop, the 1200 ms audit interval and the 2000 ms flare timeout. One tick, one frame or one callback is one call. `Timeline.EndRadiationBurst` is the update the timeout applies.
- Random numbers and the browser's Math functions: draws are parameters, and cos, sin, tanh, log, exp and pow are supplied through `Math`, with only the laws listed in `Elementary`.
- Floating point: all quantities are exact reals. Rounding, NaN and infinities are not modelled. The boundary facts in `Timeline.PhaseBoundaries` hold for exact arithmetic.
- Text formatting: the `[t ms]` time stamp made with `toFixed` (components/AuditLog.tsx:22). Log entries keep the time and the category, and `AuditTrail.MessageText` gives the fixed text after the stamp.
- The display-only state fields: showTechOverlay, showUnderTheHood, isHeating, entropy wave, selection and hover, narrative mode, focusMode, levelSpacing, entanglementEntropy and currentStage. Also not modelled: the focus-mode tabs and the HUD's merge update (App.tsx:416), the view-mode buttons (App.tsx:551), the MSD history and the charts. Two of these do write core state. A focus-tab click at App.tsx:416 clears `isAutoProcess`, so the banner leaves AUTO_SEQUENCE as it does after a slider move; `Timeline.CommandsTakeOver` is therefore not the complete list of writes that end the automation. A view-mode button at App.tsx:551 sets `viewMode`, which picks INFO or OK in `AuditTrail.SelectCategory` and switches the 4D extrusion in `Shards.PlanFor`; the model takes `viewMode` as part of the given state.
- The audit log's effect re-registration (components/AuditLog.tsx:44). Its dependency list holds the state and the render-loop time (App.tsx:538), and the application re-renders on every 16 ms tick while booting and while the avalanche or the flare is still decaying. In those stretches the 1200 ms interval is restarted before it can fire, so no entry is recorded then. `AuditTrail.AuditLog.Record` is one callback that does fire.
- generateLattice's default `isRandom = false` (services/physics.ts:19): `Physics.GenerateLattice` takes the flag as an explicit parameter. The one-time allocation guard `shardPositions.current.length === 0` (App.tsx:65): `Shards.ShardEnsemble.constructor` is that one allocation.
- Timeline.MapLinear: only the sweep's use of it, from [0.6, 0.88] onto [-220, 250], is stated.
- Shards.SnapConverges: stated for parameters held fixed across frames, with the snap height at the target's (outside the 4D view) and before the end, because in a live run the state changes between frames and the 4D extrusion moves the z target every frame.
- Shards.SnapWithinTolerance: stated for parameters held fixed across frames and before the end; in the 4D view the aim's z is the target's plus the extrusion at one fixed time, because in a live run the state and the time change between frames.
- Shards.ShardEnsemble.Integrate: the per-site ray update at the top of the site loop (App.tsx:284-292) is rendering and is not modelled.
- Physics.QuasiperiodicPotentialBound: the cosine values are not computed, so only the bound |v| ≤ 2·abs(V0) that follows from |cos| ≤ 1 is stated.
