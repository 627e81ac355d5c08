/**
 * The per-CRTC application loop of main.c. The libdrm calls are not
 * modelled; each enumerated CRTC is a record of what those calls report, and
 * the loop becomes a method that collects the drmModeCrtcSetGamma submissions
 * and the exit status.
 */
module Crtcs {
  import opened Kelvin
  import opened GammaRamp

  /** C's uint32_t. */
  type U32 = x: int | 0 <= x < 0x1_0000_0000

  /** A uint32_t gamma size other than 1: for size 1, once its buffers are
      allocated, the source divides 0.0 by 0.0 and casts the NaN to uint16_t,
      which C leaves undefined. */
  type GammaSize = n: int | 0 <= n < 0x1_0000_0000 && n != 1

  /**
   * One entry of res->crtcs, with the outcomes of the calls made for it:
   * whether drmModeGetCrtc returned a CRTC, its gamma_size, whether each of
   * the three malloc calls returned memory, and whether drmModeCrtcSetGamma
   * returned 0.
   */
  datatype Controller = Controller(
    id: U32,
    fetched: bool,
    gammaSize: GammaSize,
    redAllocated: bool,
    greenAllocated: bool,
    blueAllocated: bool,
    setGammaSucceeds: bool)

  /** One call of drmModeCrtcSetGamma: the loop index and CRTC id it was made
      for, the size, the three tables, and whether it succeeded (the source
      then prints a success line, otherwise it reports the error). */
  datatype Submission = Submission(
    index: nat,
    crtcId: U32,
    size: nat,
    red: seq<U16>,
    green: seq<U16>,
    blue: seq<U16>,
    applied: bool)

  /** What a run of the loop leaves behind: the calls made and the exit status. */
  datatype Outcome = Outcome(submissions: seq<Submission>, exitCode: int)

  /** The CRTC could not be fetched or has no programmable gamma. */
  predicate Skipped(c: Controller) {
    !c.fetched || c.gammaSize == 0
  }

  /** The CRTC is reached by the allocation step and one of its buffers is missing. */
  predicate AllocationFails(c: Controller) {
    !Skipped(c) && !(c.redAllocated && c.greenAllocated && c.blueAllocated)
  }

  /** The CRTC gets a drmModeCrtcSetGamma call when the loop reaches it. */
  predicate Submits(c: Controller) {
    !Skipped(c) && !AllocationFails(c)
  }

  /** No CRTC in cs[from..upto] fails its allocation. */
  predicate NoAbortBetween(cs: seq<Controller>, from: nat, upto: nat)
    requires upto <= |cs|
  {
    forall m :: from <= m < upto ==> !AllocationFails(cs[m])
  }

  /** The call made for CRTC number `i`, with the ramps of the shared scales. */
  function SubmissionFor(i: nat, c: Controller, scales: Rgb): (s: Submission)
    requires Submits(c) && IsScaleTriple(scales)
    ensures s.index == i && s.crtcId == c.id && s.size == c.gammaSize >= 2
    ensures |s.red| == |s.green| == |s.blue| == s.size
    ensures s.applied == c.setGammaSucceeds
  {
    Submission(i, c.id, c.gammaSize, Ramp(c.gammaSize, scales.red),
               Ramp(c.gammaSize, scales.green), Ramp(c.gammaSize, scales.blue),
               c.setGammaSucceeds)
  }

  /** Reference semantics of the loop from index `i` on. */
  function ApplyFrom(cs: seq<Controller>, i: nat, scales: Rgb): (o: Outcome)
    requires i <= |cs| && IsScaleTriple(scales)
    ensures o.exitCode == 0 || o.exitCode == 1
    ensures forall m :: 0 <= m < |o.submissions| ==> i <= o.submissions[m].index < |cs|
    decreases |cs| - i
  {
    if i == |cs| then Outcome([], 0)
    else if Skipped(cs[i]) then ApplyFrom(cs, i + 1, scales)
    else if AllocationFails(cs[i]) then Outcome([], 1)
    else
      var rest := ApplyFrom(cs, i + 1, scales);
      Outcome([SubmissionFor(i, cs[i], scales)] + rest.submissions, rest.exitCode)
  }

  /**
   * The loop over res->crtcs: skip a CRTC that cannot be fetched or has gamma
   * size 0, stop with status 1 when a buffer cannot be allocated, otherwise
   * fill the three tables and submit them whatever the submission's outcome;
   * status 0 once every CRTC has been visited.
   */
  method ApplyAll(cs: seq<Controller>, scales: Rgb) returns (submissions: seq<Submission>, exitCode: int)
    requires IsScaleTriple(scales)
    ensures Outcome(submissions, exitCode) == ApplyFrom(cs, 0, scales)
  {
    submissions := [];
    var i := 0;
    while i < |cs|
      invariant i <= |cs|
      invariant ApplyFrom(cs, 0, scales)
             == Outcome(submissions + ApplyFrom(cs, i, scales).submissions, ApplyFrom(cs, i, scales).exitCode)
    {
      var c := cs[i];
      if !c.fetched {
        i := i + 1;
        continue;
      }
      var size := c.gammaSize;
      if size == 0 {
        i := i + 1;
        continue;
      }
      if !(c.redAllocated && c.greenAllocated && c.blueAllocated) {
        exitCode := 1;
        return;
      }
      var r := new U16[size];
      var g := new U16[size];
      var b := new U16[size];
      FillRamps(r, g, b, size, scales);
      var sub := Submission(i, c.id, size, r[..], g[..], b[..], c.setGammaSucceeds);
      assert sub == SubmissionFor(i, c, scales);
      assert submissions + ApplyFrom(cs, i, scales).submissions
          == (submissions + [sub]) + ApplyFrom(cs, i + 1, scales).submissions;
      submissions := submissions + [sub];
      i := i + 1;
    }
    exitCode := 0;
  }

  /** The loop from `i` on ends with status 0 exactly when no CRTC from `i` on
      fails its allocation, and with status 1 otherwise. */
  lemma {:induction false} ExitCodeReportsAllocation(cs: seq<Controller>, i: nat, scales: Rgb)
    requires i <= |cs| && IsScaleTriple(scales)
    ensures ApplyFrom(cs, i, scales).exitCode == 0 <==> NoAbortBetween(cs, i, |cs|)
    // corollary of the clause above and ApplyFrom's status being 0 or 1
    ensures ApplyFrom(cs, i, scales).exitCode == 1 <==> !NoAbortBetween(cs, i, |cs|)
    decreases |cs| - i
  {
    if i < |cs| && !AllocationFails(cs[i]) {
      ExitCodeReportsAllocation(cs, i + 1, scales);
    }
  }

  /** Every submission in `subs` belongs to a CRTC from `i` on that is
      neither skipped nor failing, is the call for that CRTC, and comes after
      no allocation failure. */
  predicate SubmissionsBelong(cs: seq<Controller>, i: nat, scales: Rgb, subs: seq<Submission>)
    requires IsScaleTriple(scales)
  {
    forall m :: 0 <= m < |subs| ==>
      && i <= subs[m].index < |cs|
      && Submits(cs[subs[m].index])
      && subs[m] == SubmissionFor(subs[m].index, cs[subs[m].index], scales)
      && NoAbortBetween(cs, i, subs[m].index)
  }

  /** The submissions are in enumeration order. */
  predicate InEnumerationOrder(subs: seq<Submission>) {
    forall m, n :: 0 <= m < n < |subs| ==> subs[m].index < subs[n].index
  }

  /** The membership half of SubmissionsFollowControllers, by induction on `i`. */
  lemma {:induction false} SubmissionsBelongFrom(cs: seq<Controller>, i: nat, scales: Rgb)
    requires i <= |cs| && IsScaleTriple(scales)
    ensures SubmissionsBelong(cs, i, scales, ApplyFrom(cs, i, scales).submissions)
    decreases |cs| - i
  {
    if i < |cs| && !AllocationFails(cs[i]) {
      SubmissionsBelongFrom(cs, i + 1, scales);
      var subs := ApplyFrom(cs, i, scales).submissions;
      var rest := ApplyFrom(cs, i + 1, scales).submissions;
      if !Skipped(cs[i]) {
        assert subs == [SubmissionFor(i, cs[i], scales)] + rest;
        forall m | 1 <= m < |subs|
          ensures NoAbortBetween(cs, i, subs[m].index)
        {
          assert subs[m] == rest[m - 1];
        }
      }
    }
  }

  /** The ordering half of SubmissionsFollowControllers, by induction on `i`. */
  lemma {:induction false} SubmissionsOrderedFrom(cs: seq<Controller>, i: nat, scales: Rgb)
    requires i <= |cs| && IsScaleTriple(scales)
    ensures InEnumerationOrder(ApplyFrom(cs, i, scales).submissions)
    decreases |cs| - i
  {
    if i < |cs| && !AllocationFails(cs[i]) {
      SubmissionsOrderedFrom(cs, i + 1, scales);
      var subs := ApplyFrom(cs, i, scales).submissions;
      var rest := ApplyFrom(cs, i + 1, scales).submissions;
      if !Skipped(cs[i]) {
        forall m, n | 0 <= m < n < |subs|
          ensures subs[m].index < subs[n].index
        {
          assert subs[n] == rest[n - 1];
          if 0 < m {
            assert subs[m] == rest[m - 1];
          }
        }
      }
    }
  }

  /**
   * Every submission belongs to a CRTC that is neither skipped nor failing,
   * carries that CRTC's id, size and ramps, and follows only CRTCs that did
   * not abort the run; submissions appear in enumeration order.
   */
  lemma SubmissionsFollowControllers(cs: seq<Controller>, i: nat, scales: Rgb)
    requires i <= |cs| && IsScaleTriple(scales)
    ensures SubmissionsBelong(cs, i, scales, ApplyFrom(cs, i, scales).submissions)
    ensures InEnumerationOrder(ApplyFrom(cs, i, scales).submissions)
  {
    SubmissionsBelongFrom(cs, i, scales);
    SubmissionsOrderedFrom(cs, i, scales);
  }

  /** Some submission in `subs` was made for CRTC number `k`. */
  predicate Listed(subs: seq<Submission>, k: nat) {
    exists m :: 0 <= m < |subs| && subs[m].index == k
  }

  /** Exactly one submission in `subs` was made for CRTC number `k`. */
  predicate SubmittedOnce(subs: seq<Submission>, k: nat) {
    && Listed(subs, k)
    && (forall m, n :: 0 <= m < |subs| && 0 <= n < |subs| && subs[m].index == k && subs[n].index == k ==> m == n)
  }

  /** A CRTC that is fetched, has a nonzero gamma size, is allocated and is
      not preceded by an allocation failure is submitted. */
  lemma {:induction false} ReachedControllerListed(cs: seq<Controller>, i: nat, scales: Rgb, k: nat)
    requires i <= k < |cs| && IsScaleTriple(scales)
    requires Submits(cs[k]) && NoAbortBetween(cs, i, k)
    ensures Listed(ApplyFrom(cs, i, scales).submissions, k)
    decreases |cs| - i
  {
    var subs := ApplyFrom(cs, i, scales).submissions;
    if i < k {
      assert !AllocationFails(cs[i]);
      ReachedControllerListed(cs, i + 1, scales, k);
      var rest := ApplyFrom(cs, i + 1, scales).submissions;
      var m :| 0 <= m < |rest| && rest[m].index == k;
      var offset := if Skipped(cs[i]) then 0 else 1;
      assert subs[offset..] == rest;
      assert subs[m + offset] == rest[m];
    } else {
      assert subs[0].index == k;
    }
  }

  /** Every CRTC that is fetched, has a nonzero gamma size, is allocated and
      is not preceded by an allocation failure gets exactly one submission. */
  lemma ReachedControllersSubmitted(cs: seq<Controller>, i: nat, scales: Rgb, k: nat)
    requires i <= k < |cs| && IsScaleTriple(scales)
    requires Submits(cs[k]) && NoAbortBetween(cs, i, k)
    ensures SubmittedOnce(ApplyFrom(cs, i, scales).submissions, k)
  {
    ReachedControllerListed(cs, i, scales, k);
    SubmissionsOrderedFrom(cs, i, scales);
  }

  /** After a CRTC whose allocation fails, nothing more is submitted and the
      run ends with status 1. */
  lemma {:induction false} NothingSubmittedAfterAbort(cs: seq<Controller>, scales: Rgb, k: nat)
    requires k < |cs| && IsScaleTriple(scales)
    requires AllocationFails(cs[k])
    ensures ApplyFrom(cs, 0, scales).exitCode == 1
    ensures forall m :: 0 <= m < |ApplyFrom(cs, 0, scales).submissions| ==>
      ApplyFrom(cs, 0, scales).submissions[m].index < k
  {
    ExitCodeReportsAllocation(cs, 0, scales);
    SubmissionsFollowControllers(cs, 0, scales);
  }

  /**
   * A failing drmModeCrtcSetGamma is only reported: changing the outcome of
   * CRTC k's submission changes that submission's report and nothing else,
   * neither the later submissions nor the exit status.
   */
  lemma {:induction false} SetGammaFailureIsolated(cs: seq<Controller>, i: nat, scales: Rgb, k: nat, succeeds: bool)
    requires i <= |cs| && k < |cs| && IsScaleTriple(scales)
    ensures var o := ApplyFrom(cs, i, scales);
      var o' := ApplyFrom(cs[k := cs[k].(setGammaSucceeds := succeeds)], i, scales);
      && o'.exitCode == o.exitCode
      && |o'.submissions| == |o.submissions|
      && forall m :: 0 <= m < |o.submissions| ==>
           o'.submissions[m] == if o.submissions[m].index == k
                                then o.submissions[m].(applied := succeeds)
                                else o.submissions[m]
    decreases |cs| - i
  {
    var cs' := cs[k := cs[k].(setGammaSucceeds := succeeds)];
    if i < |cs| {
      assert Skipped(cs'[i]) == Skipped(cs[i]);
      assert AllocationFails(cs'[i]) == AllocationFails(cs[i]);
      if !AllocationFails(cs[i]) {
        SetGammaFailureIsolated(cs, i + 1, scales, k, succeeds);
      }
    }
  }

  /**
   * Scaling law for what is actually submitted: entry j of each table passed
   * to drmModeCrtcSetGamma is floor(65535 * j / (size - 1) * scale) for its
   * channel's scale, and lies in [0, 65535].
   */
  lemma SubmittedTablesAreScaledRamps(cs: seq<Controller>, scales: Rgb, m: nat, j: nat)
    requires IsScaleTriple(scales)
    requires m < |ApplyFrom(cs, 0, scales).submissions|
    requires j < ApplyFrom(cs, 0, scales).submissions[m].size
    ensures ApplyFrom(cs, 0, scales).submissions[m].size >= 2
    ensures var s := ApplyFrom(cs, 0, scales).submissions[m];
      var pos := j as real / (s.size - 1) as real;
      && |s.red| == |s.green| == |s.blue| == s.size
      && s.red[j] == (65535.0 * pos * scales.red).Floor
      && s.green[j] == (65535.0 * pos * scales.green).Floor
      && s.blue[j] == (65535.0 * pos * scales.blue).Floor
      && 0 <= s.red[j] <= 65535 && 0 <= s.green[j] <= 65535 && 0 <= s.blue[j] <= 65535
  {
    SubmissionsBelongFrom(cs, 0, scales);
    var s := ApplyFrom(cs, 0, scales).submissions[m];
    assert s == SubmissionFor(s.index, cs[s.index], scales);
    EntryIsScaledFloor(s.size, scales.red, j);
    EntryIsScaledFloor(s.size, scales.green, j);
    EntryIsScaledFloor(s.size, scales.blue, j);
  }
}
