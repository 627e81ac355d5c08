/**
 * The control flow of main in main.c: the argument count and temperature
 * checks, kelvin_to_rgb, opening the device and fetching its resources, and
 * the CRTC loop. What the operating system and libdrm report is an input,
 * atoi's result is taken as the given temperature, and output is not modelled.
 */
module Gammad {
  import opened Kelvin
  import opened Crtcs

  /** The accepted temperature range, in Kelvin. */
  const MinTemperature := 1000
  const MaxTemperature := 10000

  /** The guard of main: a temperature below 1000 K or above 10000 K is refused. */
  predicate TemperatureRejected(t: int) {
    t < MinTemperature || t > MaxTemperature
  }

  /** What the device reports once main gets as far as opening it. */
  datatype Device =
    | OpenFails                          // open returned a negative descriptor
    | ResourcesFail                      // drmModeGetResources returned NULL
    | Resources(crtcs: seq<Controller>)  // res->crtcs, in enumeration order

  /** What one run of main does: whether it tried to open the device, the
      drmModeCrtcSetGamma calls it made, and its exit status. */
  datatype Run = Run(openAttempted: bool, submissions: seq<Submission>, exitCode: int)

  /**
   * main. It touches the device only when there are exactly two arguments and
   * the temperature lies in [1000, 10000]; otherwise, or when the device
   * cannot be opened or queried, it exits with 1 and submits nothing. Given
   * the resources, the submissions and the status are those of the CRTC loop
   * run with kelvin_to_rgb's scales, and the status is 0 exactly when no CRTC
   * fails its allocation.
   */
  method RunProgram(argc: int, temperature: int, device: Device,
                    pow: (real, real) -> real, log: real -> real) returns (r: Run)
    ensures r.openAttempted <==> argc == 3 && MinTemperature <= temperature <= MaxTemperature
    ensures !r.openAttempted ==> r.submissions == [] && r.exitCode == 1
    ensures r.openAttempted && !device.Resources? ==> r.submissions == [] && r.exitCode == 1
    ensures r.openAttempted && device.Resources? ==>
      Outcome(r.submissions, r.exitCode) == ApplyFrom(device.crtcs, 0, KelvinToRgb(temperature, pow, log))
    ensures r.exitCode == 0 <==>
      r.openAttempted && device.Resources? && NoAbortBetween(device.crtcs, 0, |device.crtcs|)
    ensures r.exitCode == 0 || r.exitCode == 1
  {
    if argc != 3 {
      return Run(false, [], 1);
    }
    if TemperatureRejected(temperature) {
      return Run(false, [], 1);
    }
    var scales := KelvinToRgb(temperature, pow, log);
    match device {
      case OpenFails =>
        r := Run(true, [], 1);
      case ResourcesFail =>
        r := Run(true, [], 1);
      case Resources(crtcs) =>
        var submissions, exitCode := ApplyAll(crtcs, scales);
        ExitCodeReportsAllocation(crtcs, 0, scales);
        r := Run(true, submissions, exitCode);
    }
  }
}
