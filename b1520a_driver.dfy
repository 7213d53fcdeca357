/** The state the B1520A driver keeps on the host side: the auto-abort and post-sweep settings
    of its CV-sweep submodule, the ranging mode and fixed range of the module, and the flag
    that lets a CV sweep run only after a clean setup. Commands go out over a `Link`, which
    records them in order; what the instrument answers is a parameter of the method that
    asks. */
module B1520ADriver {
  import opened Wrappers
  import opened Errors
  import opened B1520AResponses
  import opened B1520ASweep

  /** `Union[bool, constants.Abort]`; `Code` is an `Abort` member by its integer value. */
  datatype AbortSetting = Flag(b: bool) | Code(code: int)
  {
    /** Python truthiness: `False` and an integer enum member of value 0 are falsy. */
    predicate Truthy()
    {
      match this
      case Flag(b) => b
      case Code(c) => c != 0
    }
  }

  /** `Union[constants.WMDCV.Post, int]`. */
  datatype Post = Start | Stop | PostCode(code: int)

  /** `Union[constants.RangingMode, int]`: `Auto` is any value equal to `RangingMode.AUTO`. */
  datatype RangingMode = Auto | NotAuto(code: int)

  /** The two measurement modes this driver selects itself. */
  datatype MeasurementMode = SpotC | CvDcSweep

  /** The commands the modelled operations send, before `MessageBuilder` formats them. */
  datatype Command =
    | Wmdcv(abort: AbortSetting, post: Option<Post>)
    | Rc(chnum: int, rangingMode: RangingMode, measurementRange: Option<int>)
    | Mm(mode: MeasurementMode, chnum: int)
    | Tc(chnum: int, tcMode: RangingMode)
    | Xe

  const NO_ERROR := "+0,\"No Error.\""
  const POST_WARNING := "Enable auto abort before setting post sweep volatge."
  const SETUP_WARNING := "Sweep setup has not yet been run successfully"

  /** The connection to the mainframe: every `write` and every `ask` sends one command. */
  class Link {
    var sent: seq<Command>

    constructor()
      ensures sent == []
    {
      sent := [];
    }

    method Write(c: Command)
      modifies this
      ensures sent == old(sent) + [c]
    {
      sent := sent + [c];
    }
  }

  /** The `cv_sweep` submodule. */
  class CVSweep {
    var abort: AbortSetting
    var post: Post
    const link: Link

    constructor(link: Link)
      ensures this.link == link
      ensures abort == Flag(true) && post == Start
    {
      this.link := link;
      abort := Flag(true);
      post := Start;
    }

    /** `_set_sweep_auto_abort`: stores the flag and sends it alone in a WMDCV command. */
    method SetSweepAutoAbort(v: AbortSetting)
      modifies this, link
      ensures abort == v && post == old(post)
      ensures link.sent == old(link.sent) + [Wmdcv(v, None)]
    {
      abort := v;
      link.Write(Wmdcv(abort, None));
    }

    /** `_set_post_sweep_voltage_cond`: refused with a Warning while auto abort is off, and
        then nothing is stored or sent; otherwise stored and sent together with the current
        abort flag. */
    method SetPostSweepVoltageCond(v: Post) returns (r: Result<(), Error>)
      modifies this, link
      ensures r.Err? <==> !old(abort).Truthy()
      ensures r.Err? ==> r.error == Warning(POST_WARNING)
      ensures abort == old(abort)
      ensures r.Err? ==> post == old(post) && link.sent == old(link.sent)
      ensures r.Ok? ==> post == v && link.sent == old(link.sent) + [Wmdcv(abort, Some(v))]
    {
      if !abort.Truthy() {
        return Err(Warning(POST_WARNING));
      }
      post := v;
      link.Write(Wmdcv(abort, Some(post)));
      return Ok(());
    }
  }

  /** The B1520A module with its fixed channel `slot` (`ChNr(slot_nr)`). */
  class B1520A {
    const link: Link
    const channel: int
    const cvSweep: CVSweep
    var setupFncAlreadyRun: bool
    var rangingMode: RangingMode
    var measurementRangeForNonAuto: Option<int>

    /** The submodule talks over the module's own link. */
    ghost predicate Valid()
      reads this, cvSweep
    {
      cvSweep.link == link
    }

    constructor(slot: int)
      ensures Valid() && fresh(link) && fresh(cvSweep)
      ensures channel == slot && link.sent == []
      ensures !setupFncAlreadyRun && rangingMode == Auto && measurementRangeForNonAuto == None
      ensures cvSweep.abort == Flag(true) && cvSweep.post == Start
    {
      var l := new Link();
      link := l;
      channel := slot;
      cvSweep := new CVSweep(l);
      setupFncAlreadyRun := false;
      rangingMode := Auto;
      measurementRangeForNonAuto := None;
    }

    /** `_set_ranging_mode`: AUTO clears the fixed range, any other mode keeps it; the RC
        command carries the new pair. */
    method SetRangingMode(v: RangingMode)
      requires Valid()
      modifies this, link
      ensures Valid()
      ensures rangingMode == v
      ensures measurementRangeForNonAuto == (if v == Auto then None else old(measurementRangeForNonAuto))
      ensures setupFncAlreadyRun == old(setupFncAlreadyRun)
      ensures link.sent == old(link.sent) + [Rc(channel, rangingMode, measurementRangeForNonAuto)]
    {
      rangingMode := v;
      if v == Auto {
        measurementRangeForNonAuto := None;
      }
      link.Write(Rc(channel, rangingMode, measurementRangeForNonAuto));
    }

    /** `_set_measurement_range_for_non_auto`: stores the range, never touches the mode. */
    method SetMeasurementRangeForNonAuto(v: Option<int>)
      requires Valid()
      modifies this, link
      ensures Valid()
      ensures measurementRangeForNonAuto == v && rangingMode == old(rangingMode)
      ensures setupFncAlreadyRun == old(setupFncAlreadyRun)
      ensures link.sent == old(link.sent) + [Rc(channel, rangingMode, v)]
    {
      measurementRangeForNonAuto := v;
      link.Write(Rc(channel, rangingMode, measurementRangeForNonAuto));
    }

    /** `_set_measurement_mode` for this module's channel. */
    method SetMeasurementMode(mode: MeasurementMode)
      modifies link
      ensures link.sent == old(link.sent) + [Mm(mode, channel)]
    {
      link.Write(Mm(mode, channel));
    }

    /** `_get_capacitance`: selects spot C measurement, asks for a measurement with auto
        ranging, and accepts the `reading` (the response's tokens) only when it is one C and
        one Y value, in that order. */
    method GetCapacitance(reading: seq<SpotToken>) returns (r: Result<(real, real), Error>)
      modifies link
      ensures link.sent == old(link.sent) + [Mm(SpotC, channel), Tc(channel, Auto)]
      ensures r.Ok? <==> |reading| == 2 && DType(reading[0]) == Some('C')
                         && DType(reading[1]) == Some('Y')
      ensures r.Ok? ==> r.value == (reading[0].value, reading[1].value)
      ensures r.Err? ==> r.error == ValueError("Result format not supported.")
    {
      SetMeasurementMode(SpotC);
      link.Write(Tc(channel, Auto));
      r := SpotCapacitance(reading);
    }

    /** The part of `setup_staircase_cv` that touches the modelled state, in the source's
        order: auto abort, post-sweep condition, CV sweep measurement mode, ranging mode, fixed
        range; then the instrument's error message `err` decides the flag. A refused
        post-sweep condition ends the setup with its Warning. The flag only ever turns on. */
    method SetupStaircaseCv(abortEnabled: AbortSetting, postCond: Post, ranging: RangingMode,
                            fixedRange: Option<int>, err: string)
      returns (r: Result<string, Error>)
      requires Valid()
      modifies this, link, cvSweep
      ensures Valid()
      ensures setupFncAlreadyRun == (old(setupFncAlreadyRun) || (r.Ok? && err == NO_ERROR))
      ensures cvSweep.abort == abortEnabled
      ensures r.Err? <==> !abortEnabled.Truthy()
      ensures r.Err? ==> r.error == Warning(POST_WARNING)
                         && cvSweep.post == old(cvSweep.post)
                         && rangingMode == old(rangingMode)
                         && measurementRangeForNonAuto == old(measurementRangeForNonAuto)
                         && link.sent == old(link.sent) + [Wmdcv(abortEnabled, None)]
      ensures r.Ok? ==> r.value == err && cvSweep.post == postCond
                        && rangingMode == ranging && measurementRangeForNonAuto == fixedRange
      ensures r.Ok? ==> link.sent == old(link.sent) + [
                          Wmdcv(abortEnabled, None),
                          Wmdcv(abortEnabled, Some(postCond)),
                          Mm(CvDcSweep, channel),
                          Rc(channel, ranging,
                             if ranging == Auto then None else old(measurementRangeForNonAuto)),
                          Rc(channel, ranging, fixedRange)]
    {
      cvSweep.SetSweepAutoAbort(abortEnabled);
      var posted := cvSweep.SetPostSweepVoltageCond(postCond);
      if posted.Err? {
        return Err(posted.error);
      }
      SetMeasurementMode(CvDcSweep);
      SetRangingMode(ranging);
      SetMeasurementRangeForNonAuto(fixedRange);
      if err == NO_ERROR {
        setupFncAlreadyRun := true;
      }
      return Ok(err);
    }

    /** `CVSweepMeasurement.get_raw`: refused with a Warning, sending nothing, until a setup
        has succeeded; then the setpoints are the sweep voltages of the current sweep settings
        and the answer `raw` to the XE command is split into the two parameters. */
    method RunSweep(sp: Spacing, nm: Numerals, mode: int, start: real, end: real, steps: int,
                    raw: string)
      returns (r: Result<(seq<real>, seq<real>, seq<real>), Error>)
      requires Sized(sp)
      modifies link
      ensures !setupFncAlreadyRun ==> r == Err(Warning(SETUP_WARNING)) && link.sent == old(link.sent)
      ensures setupFncAlreadyRun && CvSweepVoltages(sp, mode, start, end, steps).Err? ==>
                r == Err(CvSweepVoltages(sp, mode, start, end, steps).error)
                && link.sent == old(link.sent)
      ensures setupFncAlreadyRun && CvSweepVoltages(sp, mode, start, end, steps).Ok? ==>
                link.sent == old(link.sent) + [Xe]
                && (r.Ok? <==> SweepData(nm, raw).Ok?)
                && (r.Ok? ==> r.value == (CvSweepVoltages(sp, mode, start, end, steps).value,
                                          SweepData(nm, raw).value.0, SweepData(nm, raw).value.1))
                && (r.Err? ==> r.error == SweepData(nm, raw).error)
    {
      if !setupFncAlreadyRun {
        return Err(Warning(SETUP_WARNING));
      }
      var setpoints :- CvSweepVoltages(sp, mode, start, end, steps);
      link.Write(Xe);
      var params :- ParseSweepData(nm, raw);
      return Ok((setpoints, params.0, params.1));
    }
  }
}
