/** Settings of the low-light spectrum fitter (SiPMCalc/src/SiPMLowLightFit.cc):
    the defaults, the update from options and the gating of the estimation
    results by the "ignore" flags. The fit parameters are RooFit variables;
    here each is a value with a range and a constant flag. */
module LowLight {
  import opened Options
  import opened CInt

  /** A fit parameter: current value, range and whether it is held fixed. */
  datatype RealVar = RealVar(value: real, lo: real, hi: real, constant: bool)

  /** A floating parameter created with a range starts in the middle of it. */
  function NewVar(lo: real, hi: real): (v: RealVar)
    ensures v.lo == lo && v.hi == hi && !v.constant
    ensures lo <= hi ==> lo <= v.value <= hi
  {
    RealVar((lo + hi) / 2.0, lo, hi, false)
  }

  /** Smallest positive normalised double, 2^-1022. */
  function Pow2(n: nat): (p: nat)
    ensures p >= 1
  {
    if n == 0 then 1 else 2 * Pow2(n - 1)
  }

  const DBL_MIN: real := 1.0 / (Pow2(1022) as real)

  /** The one-, two- or three-value parameter option: one value fixes the
      parameter to it; two values set the range and release it; three values
      set the value and the range and release it. No option or any other
      number of values leaves the parameter alone. */
  function UpdateArg(x: RealVar, a: Args, name: string): (y: RealVar)
    ensures var l := ArgList(a, name);
      && y.value == (if CheckArg(a, name) && (|l| == 1 || |l| == 3) then l[0] else x.value)
      && (y.lo, y.hi) == (if CheckArg(a, name) && |l| == 2 then (l[0], l[1])
                          else if CheckArg(a, name) && |l| == 3 then (l[1], l[2])
                          else (x.lo, x.hi))
      && y.constant == (if CheckArg(a, name) && |l| == 1 then true
                        else if CheckArg(a, name) && (|l| == 2 || |l| == 3) then false
                        else x.constant)
  {
    if !CheckArg(a, name) then x
    else
      var vec := ArgList(a, name);
      if |vec| == 1 then x.(value := vec[0], constant := true)
      else if |vec| == 2 then x.(lo := vec[0], hi := vec[1], constant := false)
      else if |vec| == 3 then x.(value := vec[0], lo := vec[1], hi := vec[2], constant := false)
      else x
  }

  /** The estimation lock of one parameter: set exactly when the option gives
      one or three values, cleared otherwise. */
  predicate Lock(a: Args, name: string)
  {
    CheckArg(a, name) && (|ArgList(a, name)| == 1 || |ArgList(a, name)| == 3)
  }

  /** A parameter is locked against estimation exactly when the user set its
      value: locked means `UpdateArg` assigned the first option value, unlocked
      means the value was left as it was. */
  lemma LockIffValueSet(x: RealVar, a: Args, name: string)
    ensures Lock(a, name) ==> UpdateArg(x, a, name).value == ArgList(a, name)[0]
    ensures !Lock(a, name) ==> UpdateArg(x, a, name).value == x.value
    ensures Lock(a, name) && |ArgList(a, name)| == 1 ==> UpdateArg(x, a, name).constant
  {
  }

  /** Results of the peak-based estimation fits: the gain fit's offset and
      slope, the width fit's two parameters and the height fit's mean and
      crosstalk parameter. */
  datatype Estimates = Estimates(gainOffset: real, gainSlope: real,
                                 width0: real, width1: real,
                                 height1: real, height2: real)

  /** Options for reading the data (`_inputfile` … `_maxarea`). */
  datatype DataOptions = DataOptions(inputfile: string, waveform: bool, binwidth: real,
                                     intstart: nat, intstop: nat, pedstart: nat, pedstop: nat,
                                     pedrms: real, maxarea: real)

  /** The readout variable and the ten model parameters. */
  datatype Params = Params(x: RealVar, ped: RealVar, gain: RealVar, s0: RealVar, s1: RealVar,
                           mean: RealVar, lambda: RealVar, alpha: RealVar, beta: RealVar,
                           dcfrac: RealVar, eps: RealVar)

  /** The six `ignore_*_est` flags. */
  datatype Ignore = Ignore(ped: bool, gain: bool, s0: bool, s1: bool, mean: bool, lambda: bool)

  /** Peak-finding options of the estimation. */
  datatype EstOptions = EstOptions(minpeak: real, gausswindow: int, maxgausswidth: int)

  /** Descriptive operation parameters. */
  datatype OpOptions = OpOptions(intwindow: real, sipmtime: real,
                                 sipmtype: string, lumitype: string, biasv: string)

  /** The "no pedestal" sentinel, `unsigned(-1)`, in either window bound. */
  predicate NoPedestal(d: DataOptions)
  {
    d.pedstart == UINT_MAX || d.pedstop == UINT_MAX
  }

  function ReadData(d: DataOptions, a: Args): (r: DataOptions)
    ensures r.inputfile == ArgOptWord(a, "input", d.inputfile)
    ensures r.waveform == ArgOptSwitch(a, "waveform", d.waveform)
    ensures r.binwidth == ArgOpt(a, "binwidth", d.binwidth)
    ensures r.intstart == ArgOptCount(a, "intstart", d.intstart)
    ensures r.intstop == ArgOptCount(a, "intstop", d.intstop)
    ensures r.pedstart == ArgOptCount(a, "pedstart", d.pedstart)
    ensures r.pedstop == ArgOptCount(a, "pedstop", d.pedstop)
    ensures r.maxarea == ArgOpt(a, "maxarea", d.maxarea)
    ensures r.pedrms == d.pedrms
  {
    DataOptions(ArgOptWord(a, "input", d.inputfile), ArgOptSwitch(a, "waveform", d.waveform),
                ArgOpt(a, "binwidth", d.binwidth),
                ArgOptCount(a, "intstart", d.intstart), ArgOptCount(a, "intstop", d.intstop),
                ArgOptCount(a, "pedstart", d.pedstart), ArgOptCount(a, "pedstop", d.pedstop),
                d.pedrms, ArgOpt(a, "maxarea", d.maxarea))
  }

  class SiPMLowLightFit {
    var data: DataOptions
    var params: Params
    var ignore: Ignore
    var est: EstOptions
    var ops: OpOptions

    /** `set_all_defaults`. */
    constructor ()
      ensures data == DataOptions("", true, 16.0, 0, UINT_MAX, UINT_MAX, UINT_MAX,
                                  0.5, 2147483647.0)
      ensures NoPedestal(data)
      ensures params == Params(NewVar(-1000.0, 200000.0), NewVar(-300.0, 300.0),
                               NewVar(0.0, 1000.0), NewVar(DBL_MIN, 15.0), NewVar(0.0, 5.0),
                               NewVar(DBL_MIN, 50.0), NewVar(0.0, 0.2), NewVar(0.0, 0.2),
                               NewVar(10.0, 20000.0), NewVar(0.0, 0.4), NewVar(0.00001, 0.1))
      ensures ignore == Ignore(false, false, false, false, false, false)
      ensures est == EstOptions(0.05, 3, 6)
      ensures ops == OpOptions(90.0, 30.0, "Generic SiPM", "Generic Lightsource",
                               "Generic nominal bias")
    {
      data := DataOptions("", true, 16.0, 0, UINT_MAX, UINT_MAX, UINT_MAX, 0.5, 2147483647.0);
      params := Params(NewVar(-1000.0, 200000.0), NewVar(-300.0, 300.0),
                       NewVar(0.0, 1000.0), NewVar(DBL_MIN, 15.0), NewVar(0.0, 5.0),
                       NewVar(DBL_MIN, 50.0), NewVar(0.0, 0.2), NewVar(0.0, 0.2),
                       NewVar(10.0, 20000.0), NewVar(0.0, 0.4), NewVar(0.00001, 0.1));
      ignore := Ignore(false, false, false, false, false, false);
      est := EstOptions(0.05, 3, 6);
      ops := OpOptions(90.0, 30.0, "Generic SiPM", "Generic Lightsource", "Generic nominal bias");
    }

    /** Reads every option the fitter knows; an absent option keeps the
        current setting. `pedrms` is never read, so it keeps its value. The
        estimation window sizes are read as doubles and truncated to `int`.
        The ignore flags are recomputed from scratch. */
    method UpdateSettings(a: Args)
      modifies this
      ensures data == ReadData(old(data), a)
      ensures var p := old(params);
        params == Params(p.x,
                         UpdateArg(p.ped, a, "ped"), UpdateArg(p.gain, a, "gain"),
                         UpdateArg(p.s0, a, "s0"), UpdateArg(p.s1, a, "s1"),
                         UpdateArg(p.mean, a, "mean"), UpdateArg(p.lambda, a, "lambda"),
                         UpdateArg(p.alpha, a, "alpha"), UpdateArg(p.beta, a, "beta"),
                         UpdateArg(p.dcfrac, a, "dcfrac"), UpdateArg(p.eps, a, "epsilon"))
      ensures ignore == Ignore(Lock(a, "ped"), Lock(a, "gain"), Lock(a, "s0"),
                               Lock(a, "s1"), Lock(a, "mean"), Lock(a, "lambda"))
      ensures est == EstOptions(ArgOpt(a, "estminpeak", old(est).minpeak),
                       TruncReal(ArgOpt(a, "estgausswindow", old(est).gausswindow as real)),
                       TruncReal(ArgOpt(a, "estmaxgausswidth", old(est).maxgausswidth as real)))
      ensures ops == OpOptions(ArgOpt(a, "intwindow", old(ops).intwindow),
                               ArgOpt(a, "sipmtime", old(ops).sipmtime),
                               ArgOptWord(a, "sipmtype", old(ops).sipmtype),
                               ArgOptWord(a, "lumitype", old(ops).lumitype),
                               ArgOptWord(a, "biasv", old(ops).biasv))
    {
      data := ReadData(data, a);

      var p := params;
      params := Params(p.x,
                       UpdateArg(p.ped, a, "ped"), UpdateArg(p.gain, a, "gain"),
                       UpdateArg(p.s0, a, "s0"), UpdateArg(p.s1, a, "s1"),
                       UpdateArg(p.mean, a, "mean"), UpdateArg(p.lambda, a, "lambda"),
                       UpdateArg(p.alpha, a, "alpha"), UpdateArg(p.beta, a, "beta"),
                       UpdateArg(p.dcfrac, a, "dcfrac"), UpdateArg(p.eps, a, "epsilon"));

      ignore := Ignore(Lock(a, "ped"), Lock(a, "gain"), Lock(a, "s0"),
                       Lock(a, "s1"), Lock(a, "mean"), Lock(a, "lambda"));

      est := EstOptions(ArgOpt(a, "estminpeak", est.minpeak),
                        TruncReal(ArgOpt(a, "estgausswindow", est.gausswindow as real)),
                        TruncReal(ArgOpt(a, "estmaxgausswidth", est.maxgausswidth as real)));

      ops := OpOptions(ArgOpt(a, "intwindow", ops.intwindow), ArgOpt(a, "sipmtime", ops.sipmtime),
                       ArgOptWord(a, "sipmtype", ops.sipmtype),
                       ArgOptWord(a, "lumitype", ops.lumitype),
                       ArgOptWord(a, "biasv", ops.biasv));
    }

    /** The write-back step of the estimation: with fewer than two fitted
        peaks nothing is written; otherwise each of ped, gain, s0, s1, mean and
        lambda takes its estimate unless its ignore flag is set. Ranges and
        constant flags are never touched. */
    method ApplyEstimates(npeaks: nat, e: Estimates)
      modifies this
      ensures npeaks < 2 ==> params == old(params)
      ensures npeaks >= 2 ==> params == Estimated(old(params), ignore, e)
      ensures ignore == old(ignore) && data == old(data) && est == old(est) && ops == old(ops)
    {
      if npeaks < 2 {
        return;
      }
      var p := params;
      if !ignore.ped {
        p := p.(ped := p.ped.(value := e.gainOffset));
      }
      if !ignore.gain {
        p := p.(gain := p.gain.(value := e.gainSlope));
      }
      if !ignore.s0 {
        p := p.(s0 := p.s0.(value := e.width0));
      }
      if !ignore.s1 {
        p := p.(s1 := p.s1.(value := e.width1));
      }
      if !ignore.mean {
        p := p.(mean := p.mean.(value := e.height1));
      }
      if !ignore.lambda {
        p := p.(lambda := p.lambda.(value := e.height2));
      }
      params := p;
    }
  }

  /** A parameter's value after estimation: the estimate unless locked. */
  function Gate(v: RealVar, locked: bool, estimate: real): (r: RealVar)
    ensures r.lo == v.lo && r.hi == v.hi && r.constant == v.constant
    ensures r.value == (if locked then v.value else estimate)
  {
    if locked then v else v.(value := estimate)
  }

  /** The parameters after a successful estimation: each of the six estimated
      parameters gated by its ignore flag, the other five untouched. */
  function Estimated(p: Params, ig: Ignore, e: Estimates): Params
  {
    p.(ped := Gate(p.ped, ig.ped, e.gainOffset), gain := Gate(p.gain, ig.gain, e.gainSlope),
       s0 := Gate(p.s0, ig.s0, e.width0), s1 := Gate(p.s1, ig.s1, e.width1),
       mean := Gate(p.mean, ig.mean, e.height1), lambda := Gate(p.lambda, ig.lambda, e.height2))
  }

  /** Options fixing a parameter's value survive estimation: after the update,
      a parameter given one or three values keeps that value whatever the
      estimation produced. */
  lemma LockedValueSurvives(x: RealVar, a: Args, name: string, estimate: real)
    requires Lock(a, name)
    ensures Gate(UpdateArg(x, a, name), Lock(a, name), estimate).value == ArgList(a, name)[0]
  {
    LockIffValueSet(x, a, name);
  }
}
