/** The voltages of a CV sweep (`B1520A._cv_sweep_voltages`): the polarity check of the
    logarithmic modes and the shape of the four sweep modes. The numeric spacing itself
    (`np.linspace`, `np.logspace`) is a parameter, `Spacing`. */
module B1520ASweep {
  import opened Wrappers
  import opened Text
  import opened Errors

  /** `np.linspace(start, end, n, endpoint)` and the `np.logspace` of the logarithms of
      `start` and `end`, as used by the driver. */
  datatype Spacing = Spacing(linspace: (real, real, int, bool) -> seq<real>,
                             logspace: (real, real, int, bool) -> seq<real>)

  /** Both spacings return as many values as they are asked for. */
  ghost predicate Sized(sp: Spacing)
  {
    && (forall a, b, n, endpoint :: n >= 0 ==> |sp.linspace(a, b, n, endpoint)| == n)
    && (forall a, b, n, endpoint :: n >= 0 ==> |sp.logspace(a, b, n, endpoint)| == n)
  }

  const POLARITY_MESSAGE := "Polarity of start and end is not same."

  /** numpy's ValueError for a negative number of samples (its wording is not modelled). */
  const NEGATIVE_SAMPLES_MESSAGE := "Number of samples must be non-negative."

  /** The driver's `sign`: `s and (1, -1)[s < 0]`. */
  function Sign(x: real): (r: int)
    ensures -1 <= r <= 1
    ensures r == 0 <==> x == 0.0
    ensures r < 0 <==> x < 0.0
  {
    if x == 0.0 then 0 else if x < 0.0 then -1 else 1
  }

  predicate Palindrome(s: seq<real>)
  {
    forall i :: 0 <= i < |s| ==> s[i] == s[|s| - 1 - i]
  }

  /** The two-way shape: the half list, the end value as midpoint when `steps` is odd, and the
      half list reversed. */
  function TwoWay(half: seq<real>, end: real, steps: int): (r: seq<real>)
    requires steps >= 0 && |half| == steps / 2
    ensures |r| == steps
    ensures Palindrome(r)
    ensures r[..|half|] == half
    ensures steps % 2 == 1 ==> r[|half|] == end
  {
    if steps % 2 == 0 then half + Reverse(half) else half + [end] + Reverse(half)
  }

  /** The two-way sweep of one spacing: for an even count, the half list spans start to end;
      for an odd count it stops short of end, which becomes the midpoint. */
  function TwoWaySweep(space: (real, real, int, bool) -> seq<real>, start: real, end: real,
                       steps: int): (r: seq<real>)
    requires steps >= 0 && |space(start, end, steps / 2, steps % 2 == 0)| == steps / 2
    ensures |r| == steps && Palindrome(r)
    ensures r[..steps / 2] == space(start, end, steps / 2, steps % 2 == 0)
    ensures steps % 2 == 1 ==> r[steps / 2] == end
  {
    TwoWay(space(start, end, steps / 2, steps % 2 == 0), end, steps)
  }

  /** `_cv_sweep_voltages` for the current `sweep_mode`, `sweep_start`, `sweep_end` and
      `sweep_steps`. Modes 1 to 4 are linear, log, linear two-way and log two-way; any other
      mode is not a key of the driver's mode table. A start of zero in a log mode is kept (the
      driver's adjustment multiplies the zero sign by the resolution, which leaves it zero). */
  function CvSweepVoltages(sp: Spacing, mode: int, start: real, end: real, steps: int)
    : (r: Result<seq<real>, Error>)
    requires Sized(sp)
    ensures r == Err(AssertionError(POLARITY_MESSAGE)) <==>
              (mode == 2 || mode == 4) && Sign(start) * Sign(end) < 0
    ensures r.Ok? <==> 1 <= mode <= 4 && steps >= 0
                       && !((mode == 2 || mode == 4) && Sign(start) * Sign(end) < 0)
    ensures r.Ok? ==> |r.value| == steps
    ensures r.Ok? && (mode == 3 || mode == 4) ==> Palindrome(r.value)
    ensures r.Ok? && (mode == 3 || mode == 4) && steps % 2 == 1 ==> r.value[steps / 2] == end
  {
    if (mode == 2 || mode == 4) && Sign(start) != Sign(end) && Sign(start) != 0 && Sign(end) != 0
    then Err(AssertionError(POLARITY_MESSAGE))
    else if !(1 <= mode <= 4) then Err(KeyError(mode))
    else if steps < 0 then Err(ValueError(NEGATIVE_SAMPLES_MESSAGE))
    else if mode == 1 then Ok(sp.linspace(start, end, steps, true))
    else if mode == 2 then Ok(sp.logspace(start, end, steps, true))
    else if mode == 3 then Ok(TwoWaySweep(sp.linspace, start, end, steps))
    else Ok(TwoWaySweep(sp.logspace, start, end, steps))
  }

  /** In the two-way modes the sweep goes out along the spacing's half list and comes back
      along the same values: the `k`-th voltage from the end is the `k`-th from the start, and
      the first `steps / 2` voltages are the half list. */
  lemma TwoWayRetraces(sp: Spacing, mode: int, start: real, end: real, steps: int, k: nat)
    requires Sized(sp) && (mode == 3 || mode == 4) && steps >= 0
    requires !(mode == 4 && Sign(start) * Sign(end) < 0)
    requires k < steps / 2
    ensures CvSweepVoltages(sp, mode, start, end, steps).Ok?
    ensures var v := CvSweepVoltages(sp, mode, start, end, steps).value;
            v[k] == v[steps - 1 - k]
    ensures mode == 3 ==> CvSweepVoltages(sp, mode, start, end, steps).value[k]
                          == sp.linspace(start, end, steps / 2, steps % 2 == 0)[k]
    ensures mode == 4 ==> CvSweepVoltages(sp, mode, start, end, steps).value[k]
                          == sp.logspace(start, end, steps / 2, steps % 2 == 0)[k]
  {
    var v := CvSweepVoltages(sp, mode, start, end, steps).value;
    var half := if mode == 3 then sp.linspace(start, end, steps / 2, steps % 2 == 0)
                else sp.logspace(start, end, steps / 2, steps % 2 == 0);
    assert v == TwoWay(half, end, steps);
    assert v[..|half|][k] == half[k];
  }
}
