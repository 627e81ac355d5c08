# gammad core in Dafny

gammad sets the gamma tables of every CRTC on a DRM card so that the screen
shows a chosen colour temperature. This project models its core, all in
`main.c`:

- `kelvin.dfy` (module `Kelvin`) models `kelvin_to_rgb`. It follows Tanner
  Helland's approximation, with its breakpoints at 66 and 19 (in hundreds of
  Kelvin) and the clamps to [0, 1] after each formula. `pow` and `log` are
  parameters of the function, so every property holds whatever values they
  return. `temp / 100.0` is exact real division.
- `ramp.dfy` (module `GammaRamp`) models the loop that fills the three
  `uint16_t` tables. A method fills three arrays and is proved against the
  function `Ramp`. Lemmas about `Ramp` prove the scaling law, the bounds,
  the endpoints, monotonicity in the position and monotonicity in the scale.
- `crtcs.dfy` (module `Crtcs`) models the loop over `res->crtcs`. Each CRTC
  is a `Controller` record holding what libdrm and `malloc` report for it.
  The method `ApplyAll` builds the list of `drmModeCrtcSetGamma` calls and
  the exit status. It is proved equal to the reference function
  `ApplyFrom`. Lemmas about `ApplyFrom` give the skip, continue and abort
  policy.
- `gammad.dfy` (module `Gammad`) models `main`: the argument-count and
  temperature gate, then device opening, then resource fetching, then the
  CRTC loop with the scales from `kelvin_to_rgb`. The outcome of the device
  calls is an input (`Device`).

## Model

| member | source | states |
|---|---|---|
| Kelvin.Clamp | main.c:36-37 | the result is in [0, 1]; it is the input when the input is in [0, 1], 0.0 when the input is negative and 1.0 when it is above 1 |
| Kelvin.KelvinToRgb | main.c:26-65 | for every integer temperature and any pow/log, every channel is in [0, 1]; red is exactly 1.0 up to 6600 K; blue is exactly 1.0 from 6600 K and exactly 0.0 up to 1900 K; in every other region a channel is its formula's value clamped to [0, 1] |
| Kelvin.ChannelDependencies | main.c:29-64 | red never depends on log and blue never on pow; up to 6600 K red depends on neither and green only on log; above 6600 K green depends only on pow; blue depends on neither from 6600 K up or up to 1900 K |
| GammaRamp.Position | main.c:130 | the normalised position j/(size-1) lies in [0, 1] when size >= 2 |
| GammaRamp.ToU16 | main.c:131-133 | the conversion of a value in [0, 65536) to uint16_t gives the integer v with v <= x < v + 1 (a floor), within [0, 65535] |
| GammaRamp.FillRamps | main.c:129-134 | after the loop each of the three arrays equals the ramp of its channel's scale |
| GammaRamp.EntryIsScaledFloor | main.c:129-133 | a ramp has size entries; entry j is floor(65535 * j/(size-1) * scale) and lies in [0, 65535] |
| GammaRamp.RampMonotone | main.c:129-134 | a ramp is non-decreasing: i <= j implies entry i <= entry j |
| GammaRamp.RampMonotoneInScale | main.c:131-133 | a larger scale never gives a smaller entry at the same position |
| GammaRamp.RampEndpoints | main.c:129-134 | a ramp starts at 0 and ends at floor(65535 * scale) |
| GammaRamp.FullScaleRamp | main.c:129-134 | with scale 1.0 a ramp starts at 0 and ends at 65535 |
| Crtcs.SubmissionFor | main.c:129-136 | the call for a reached CRTC carries its loop index, CRTC id and gamma size (>= 2), three tables of that length, and the set-gamma outcome |
| Crtcs.ApplyFrom | main.c:105-143 | the loop's exit status is 0 or 1, and every submission it makes is for a CRTC at or after the starting index |
| Crtcs.ApplyAll | main.c:105-143 | the loop's submissions and exit status are those of the reference semantics ApplyFrom |
| Crtcs.ExitCodeReportsAllocation | main.c:116-127 | the loop ends with status 0 exactly when no CRTC fails its allocation, and with 1 otherwise |
| Crtcs.SubmissionsFollowControllers | main.c:105-136 | every submission is for a CRTC that was fetched, has a nonzero gamma size and was allocated; it is exactly that CRTC's call; no allocation failure comes before it; submissions are in enumeration order |
| Crtcs.ReachedControllerListed | main.c:105-143 | a fetched, nonzero-size, allocated CRTC that comes after no allocation failure appears among the submissions |
| Crtcs.ReachedControllersSubmitted | main.c:105-143 | every fetched, nonzero-size, allocated CRTC that comes after no allocation failure gets exactly one submission |
| Crtcs.SubmittedTablesAreScaledRamps | main.c:129-136 | every submitted call has size >= 2 and three tables of that length; entry j of each table passed to drmModeCrtcSetGamma is floor(65535 * j/(size-1) * scale) for its channel's scale and lies in [0, 65535] |
| Crtcs.NothingSubmittedAfterAbort | main.c:116-127 | after a CRTC whose allocation fails the run ends with status 1, and every submission is for an earlier CRTC |
| Crtcs.SetGammaFailureIsolated | main.c:136-139 | changing whether CRTC k's drmModeCrtcSetGamma succeeds changes only that submission's report; the other submissions and the exit status stay the same |
| Gammad.RunProgram | main.c:67-148 | main opens the device exactly when argc is 3 and 1000 <= t <= 10000; otherwise it exits 1 and submits nothing; it also exits 1 with no submission when open or drmModeGetResources fails; otherwise it gives the CRTC loop's result for kelvin_to_rgb's scales; the status is 0 exactly when the device is usable and no CRTC fails allocation |

## Left out

- The libdrm and OS calls (`open`, `close`, `drmModeGetResources`, `drmModeGetCrtc`, `drmModeCrtcSetGamma`, the free routines) and `malloc` are not modelled. Their outcomes are inputs: the `Device` value and the fields of each `Controller`.
- `printf`, `fprintf`, `perror` and `print_usage` are output and are not modelled. A submission records whether it succeeded, which decides whether the source prints a success line or reports the error.
- Building the device path with `snprintf` (main.c:86) is not modelled. The card name does not affect any modelled result.
- `atoi` (main.c:74) is libc parsing. The temperature is taken as the integer it returns.
- The values of `pow` and `log` are not modelled; they are arbitrary function parameters. So no numeric reference value (such as 6500 K giving green about 0.976) is stated, and no claim that output warms as the temperature falls.
- Kelvin.KelvinToRgb: is computed on exact reals, without IEEE double rounding. A NaN or infinity from `pow` or `log` cannot arise, while in C a NaN passes both clamps unchanged. `temp / 100.0` compares with 66 and 19 the same way in doubles, because 6600/100.0 and 1900/100.0 are exact.
- GammaRamp.Ramp: uses exact real arithmetic, whereas the source's double product could round differently just at a floor boundary. The endpoints (j = 0, and j = size - 1 with scale 1.0) are exact in both.
- Crtcs.ApplyAll: rules out a gamma size of 1 through the `GammaSize` type. When all three `malloc` calls succeed for such a CRTC, the source computes 0.0/0.0 (main.c:130) and converts NaN to `uint16_t`, which is undefined behaviour. The type also rules out two cases the source handles without undefined behaviour: a size-1 CRTC whose allocation fails, where the source returns 1 at main.c:120-127 before reaching line 130, and a size-1 CRTC after an earlier allocation failure, which the loop never reaches. Nothing observable is lost in either case, because `ApplyFrom`'s abort result does not depend on the size.
- GammaRamp.FillRamps: requires three distinct arrays and channel scales in [0, 1]. `malloc` returns distinct blocks, and the only scales the source ever passes come from `kelvin_to_rgb`, which always yields values in [0, 1]. Outside that range the source's conversion to `uint16_t` can be undefined: a scale of 2.0 gives 131070 at the last entry. Scales just outside [0, 1], in (-1/65535, 0) or (1, 65536/65535), still give defined entries, and the model does not cover them.
- Memory lifetime (the `free` calls on every path) is not modelled beyond "an allocation failure aborts the run".
- A direct RGB-scale input mode (three scale arguments) does not exist in this source: `main` accepts only exactly two arguments (main.c:68). Only the Kelvin mode is modelled.
