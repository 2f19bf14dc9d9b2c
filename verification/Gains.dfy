/** Tuner gain control: choosing a supported gain, and the mode cache in front of the device. */
module Gains {
  import opened Types

  datatype Gain = ManualValue(value: i32) | ManualIndex(index: nat) | AutomaticGain

  // ---------- nearest supported gain ----------

  function WrapI32(x: int): i32 { (x + 0x8000_0000) % 0x1_0000_0000 - 0x8000_0000 }

  function Abs(x: int): nat { if x < 0 then -x else x }

  predicate Fits(supported: i32, gain: i32) {
    Abs(supported - gain) < 0x8000_0000
  }

  /** The key `(supported - gain).abs()`; None when computing it panics. */
  function Distance(build: Build, supported: i32, gain: i32): Option<i32> {
    if Fits(supported, gain) then Some(Abs(supported - gain))
    else if build == Checked then None
    else
      var d := WrapI32(supported - gain);
      Some(if d < 0 && d != -0x8000_0000 then -d else d)
  }

  /** With overflow checks a key exists exactly when neither the difference nor its `abs` leaves i32. */
  lemma CheckedDistance(supported: i32, gain: i32)
    ensures var difference := supported - gain;
            Distance(Checked, supported, gain)
            == if -0x8000_0000 < difference < 0x8000_0000
               then Some(if difference < 0 then -difference else difference) else None
  {
  }

  datatype Choice = NoGains | Overflow | Chosen(index: nat, gain: i32)

  /** `min_by_key`: one pass from the left, keeping the first of equal keys. */
  function Nearest(build: Build, gains: seq<i32>, gain: i32): (c: Choice)
    ensures c.Chosen? ==> c.index < |gains| && c.gain == gains[c.index] && Distance(build, c.gain, gain).Some?
    ensures c.NoGains? <==> gains == []
  {
    if gains == [] then NoGains
    else
      var n := |gains| - 1;
      var last := gains[n];
      match Nearest(build, gains[..n], gain)
      case NoGains => if Distance(build, last, gain).None? then Overflow else Chosen(n, last)
      case Overflow => Overflow
      case Chosen(k, best) =>
        match Distance(build, last, gain)
        case None => Overflow
        case Some(d) => if d < Distance(build, best, gain).value then Chosen(n, last) else Chosen(k, best)
  }

  /** The table entry k is closest to the request, and the first such entry. */
  ghost predicate IsNearest(gains: seq<i32>, gain: i32, k: nat) {
    && k < |gains|
    && (forall j :: 0 <= j < |gains| ==> Abs(gains[k] - gain) <= Abs(gains[j] - gain))
    && (forall j :: 0 <= j < k ==> Abs(gains[k] - gain) < Abs(gains[j] - gain))
  }

  ghost predicate AllFit(gains: seq<i32>, gain: i32) {
    forall j :: 0 <= j < |gains| ==> Fits(gains[j], gain)
  }

  /** No entry has a smaller key than entry k, and none before it an equal one. */
  ghost predicate IsLeast(build: Build, gains: seq<i32>, gain: i32, k: nat)
    requires Computable(build, gains, gain)
  {
    && k < |gains|
    && (forall j :: 0 <= j < |gains| ==> KeyAt(build, gains, gain, k) <= KeyAt(build, gains, gain, j))
    && (forall j :: 0 <= j < k ==> KeyAt(build, gains, gain, k) < KeyAt(build, gains, gain, j))
  }

  ghost predicate Computable(build: Build, gains: seq<i32>, gain: i32) {
    forall j :: 0 <= j < |gains| ==> Distance(build, gains[j], gain).Some?
  }

  ghost function KeyAt(build: Build, gains: seq<i32>, gain: i32, j: nat): i32
    requires Computable(build, gains, gain) && j < |gains|
  {
    Distance(build, gains[j], gain).value
  }

  /** Extending the table by one entry: the new entry wins only if its key is strictly less. */
  lemma LeastOfMore(build: Build, gains: seq<i32>, gain: i32, k: nat)
    requires gains != [] && Computable(build, gains, gain) && Computable(build, gains[..|gains| - 1], gain)
    requires IsLeast(build, gains[..|gains| - 1], gain, k)
    ensures var n := |gains| - 1;
            IsLeast(build, gains, gain, if KeyAt(build, gains, gain, n) < KeyAt(build, gains, gain, k) then n else k)
  {
    hide Distance;
    var front := gains[..|gains| - 1];
    assert forall j :: 0 <= j < |front| ==> KeyAt(build, front, gain, j) == KeyAt(build, gains, gain, j);
  }

  /** The search finds the first least key, whatever the keys are. */
  lemma {:induction false} SearchFindsLeast(build: Build, gains: seq<i32>, gain: i32)
    requires gains != [] && Computable(build, gains, gain)
    ensures Nearest(build, gains, gain).Chosen? && IsLeast(build, gains, gain, Nearest(build, gains, gain).index)
  {
    var n := |gains| - 1;
    var front := gains[..n];
    assert Computable(build, front, gain);
    hide Distance, IsLeast;
    if n > 0 {
      SearchFindsLeast(build, front, gain);
      LeastOfMore(build, gains, gain, Nearest(build, front, gain).index);
    } else {
      OneIsLeast(build, gains, gain);
    }
  }

  lemma OneIsLeast(build: Build, gains: seq<i32>, gain: i32)
    requires |gains| == 1 && Computable(build, gains, gain)
    ensures Nearest(build, gains, gain) == Chosen(0, gains[0]) && IsLeast(build, gains, gain, 0)
  {
    assert Nearest(build, gains[..0], gain) == NoGains;
  }

  lemma NearestIsNearest(build: Build, gains: seq<i32>, gain: i32)
    requires gains != [] && AllFit(gains, gain)
    ensures Nearest(build, gains, gain).Chosen? && IsNearest(gains, gain, Nearest(build, gains, gain).index)
  {
    assert forall j :: 0 <= j < |gains| ==> Distance(build, gains[j], gain) == Some(Abs(gains[j] - gain));
    SearchFindsLeast(build, gains, gain);
    assert forall j :: 0 <= j < |gains| ==> KeyAt(build, gains, gain, j) == Abs(gains[j] - gain);
  }

  /** With overflow checks the search panics exactly when some difference leaves i32. */
  lemma {:induction false} CheckedSearch(gains: seq<i32>, gain: i32)
    requires gains != []
    ensures Nearest(Checked, gains, gain).Overflow? <==> !AllFit(gains, gain)
    ensures Nearest(Checked, gains, gain).Chosen? ==> IsNearest(gains, gain, Nearest(Checked, gains, gain).index)
  {
    var n := |gains| - 1;
    hide IsNearest, Fits;
    if AllFit(gains, gain) {
      NearestIsNearest(Checked, gains, gain);
    } else {
      LastFits(gains, gain);
      hide AllFit;
      if n > 0 {
        CheckedSearch(gains[..n], gain);
      }
    }
  }

  lemma LastFits(gains: seq<i32>, gain: i32)
    requires gains != []
    ensures var n := |gains| - 1; AllFit(gains, gain) <==> AllFit(gains[..n], gain) && Fits(gains[n], gain)
  {
    hide Fits;
    var front := gains[..|gains| - 1];
    if AllFit(front, gain) && Fits(gains[|gains| - 1], gain) {
      forall j | 0 <= j < |gains| ensures Fits(gains[j], gain) {
        assert j < |front| ==> front[j] == gains[j];
      }
    }
  }

  /** The key that a wrapping build computes from the true distance d. */
  function WrappedKey(d: nat): int {
    if d < 0x8000_0000 then d else if d == 0x8000_0000 then -0x8000_0000 else 0x1_0000_0000 - d
  }

  lemma WrappedDistance(supported: i32, gain: i32)
    ensures Distance(Wrapping, supported, gain) == Some(WrappedKey(Abs(supported - gain)))
  {
  }

  /**
   * A nearest entry at distance d survives a comparison with an entry at distance e >= d of
   * which the key may have wrapped; `later` says that the other entry does not come first.
   */
  predicate Survives(d: nat, e: nat, later: bool) {
    || e < 0x8000_0000
    || d == 0x8000_0000
    || (e > 0x8000_0000 &&
        if d < 0x8000_0000 then d + e < 0x1_0000_0000 || (d + e == 0x1_0000_0000 && later) else d == e)
  }

  /**
   * Without overflow checks: the search still finds the nearest gain exactly when that gain
   * survives against every entry. A request that wraps against no entry is one such case.
   */
  lemma WrappedSearchExact(gains: seq<i32>, gain: i32, k: nat)
    requires IsNearest(gains, gain, k)
    ensures Nearest(Wrapping, gains, gain) == Chosen(k, gains[k]) <==>
            forall j :: 0 <= j < |gains| ==> Survives(Abs(gains[k] - gain), Abs(gains[j] - gain), k <= j)
  {
    forall j | 0 <= j < |gains| ensures Distance(Wrapping, gains[j], gain) == Some(WrappedKey(Abs(gains[j] - gain))) {
      WrappedDistance(gains[j], gain);
    }
    SearchFindsLeast(Wrapping, gains, gain);
    hide Distance, Nearest;
    assert forall j :: 0 <= j < |gains| ==> KeyAt(Wrapping, gains, gain, j) == WrappedKey(Abs(gains[j] - gain));
  }

  /** Every table that is not empty has a nearest entry, so the previous lemma covers every search. */
  lemma {:induction false} NearestExists(gains: seq<i32>, gain: i32) returns (k: nat)
    requires gains != []
    ensures IsNearest(gains, gain, k)
    ensures forall i :: IsNearest(gains, gain, i) ==> i == k
  {
    var n := |gains| - 1;
    k := n;
    if n > 0 {
      var front := gains[..n];
      var best := NearestExists(front, gain);
      assert forall j :: 0 <= j < n ==> front[j] == gains[j];
      if Abs(gains[best] - gain) <= Abs(gains[n] - gain) {
        k := best;
      }
    }
  }

  /** The condition can fail: the difference 2^31 wraps to the least key of all. */
  lemma WrappedSearchMisses()
    ensures Nearest(Wrapping, [0, -10], -0x8000_0000) != Chosen(1, -10)
    ensures IsNearest([0, -10], -0x8000_0000, 1)
  {
    var gains: seq<i32> := [0, -10];
    var request: i32 := -0x8000_0000;
    WrappedSearchExact(gains, request, 1);
    assert !Survives(Abs(gains[1] - request), Abs(gains[0] - request), false);
  }

  // ---------- the device and the cache ----------

  datatype Device = Device(mode: TunerGainMode, gain: int)

  /**
   * How the library answers one setting: whether the mode call and the gain call succeed, and
   * which gain a failed gain call leaves behind. A failed mode call leaves the mode alone.
   */
  datatype Answer = Answer(modeOk: bool, gainOk: bool, gainAfterFailure: int)

  datatype Outcome = Done | NoSupportedGains | InvalidGainIndex(index: nat)
                   | ModeFailed | GainFailed | Panicked | ControlThreadDead

  /** The locked handle as a value: the device, and the mode set previously if there was one. */
  datatype Handle = Handle(device: Device, cache: Option<TunerGainMode>)

  function SetMode(h: Handle, mode: TunerGainMode, ok: bool): (Handle, bool) {
    if h.cache == Some(mode) then (h, true)
    else if ok then (Handle(h.device.(mode := mode), Some(mode)), true)
    else (h, false)
  }

  function SetGain(d: Device, gain: int, answer: Answer): (Device, bool) {
    if answer.gainOk then (d.(gain := gain), true) else (d.(gain := answer.gainAfterFailure), false)
  }

  /** What a setting asks of the device, or why it is refused before the device is touched. */
  function ResolveGain(build: Build, gains: seq<i32>, gain: Gain): Result<Option<i32>, Outcome> {
    match gain
    case AutomaticGain => Ok(None)
    case ManualIndex(index) => if index < |gains| then Ok(Some(gains[index])) else Err(InvalidGainIndex(index))
    case ManualValue(value) =>
      match Nearest(build, gains, value)
      case NoGains => Err(NoSupportedGains)
      case Overflow => Err(Panicked)
      case Chosen(_, nearest) => Ok(Some(nearest))
  }

  /** `set_tuner_gain` of the control thread. */
  function ControlSetGain(build: Build, gains: seq<i32>, h: Handle, gain: Gain, answer: Answer): (Handle, Outcome) {
    match ResolveGain(build, gains, gain)
    case Err(outcome) => (h, outcome)
    case Ok(None) =>
      var (h', ok) := SetMode(h, Auto, answer.modeOk);
      (h', if ok then Done else ModeFailed)
    case Ok(Some(value)) =>
      var (h', ok) := SetMode(h, Manual, answer.modeOk);
      if !ok then (h', ModeFailed)
      else
        var (d, gainOk) := SetGain(h'.device, value, answer);
        (h'.(device := d), if gainOk then Done else GainFailed)
  }

  /** The same setting by an implementation that always calls the library. */
  function UncachedSetGain(build: Build, gains: seq<i32>, d: Device, gain: Gain, answer: Answer): (Device, Outcome) {
    match ResolveGain(build, gains, gain)
    case Err(outcome) => (d, outcome)
    case Ok(value) =>
      if !answer.modeOk then (d, ModeFailed)
      else if value.None? then (d.(mode := Auto), Done)
      else
        var (d', gainOk) := SetGain(d.(mode := Manual), value.value, answer);
        (d', if gainOk then Done else GainFailed)
  }

  /** A cached mode is the mode the device is in. */
  ghost predicate CacheOk(h: Handle) {
    h.cache.Some? ==> h.cache.value == h.device.mode
  }

  /** The setting gets as far as a mode call, and the cache answers that call. */
  predicate CacheHit(build: Build, gains: seq<i32>, h: Handle, gain: Gain) {
    var r := ResolveGain(build, gains, gain);
    r.Ok? && h.cache == Some(if r.value.None? then Auto else Manual)
  }

  /**
   * One setting through the cache and one without it have the same result exactly when a
   * call saved by the cache would have succeeded; then they leave the same device.
   */
  lemma SettingAgrees(build: Build, gains: seq<i32>, h: Handle, gain: Gain, answer: Answer)
    requires CacheOk(h)
    ensures CacheOk(ControlSetGain(build, gains, h, gain, answer).0)
    ensures var (h', r) := ControlSetGain(build, gains, h, gain, answer);
            var (d', r') := UncachedSetGain(build, gains, h.device, gain, answer);
            && (r == r' <==> (CacheHit(build, gains, h, gain) ==> answer.modeOk))
            && (r == r' ==> h'.device == d')
  {
  }

  // ---------- what a setting does ----------

  /** The search finds entry k: no difference leaves i32, or the wrapped comparisons come out right. */
  ghost predicate Finds(build: Build, gains: seq<i32>, value: i32, k: nat)
    requires IsNearest(gains, value, k)
  {
    || AllFit(gains, value)
    || (build == Wrapping &&
        forall j :: 0 <= j < |gains| ==> Survives(Abs(gains[k] - value), Abs(gains[j] - value), k <= j))
  }

  /** The library has to be asked for the mode, and refuses. */
  predicate ModeRefused(h: Handle, mode: TunerGainMode, answer: Answer) {
    h.cache != Some(mode) && !answer.modeOk
  }

  /** The device and the cache after manual mode was enabled and the library was given this gain. */
  ghost predicate GainWasSet(h: Handle, supported: i32, answer: Answer, h': Handle, r: Outcome) {
    && h'.cache == Some(Manual) && h'.device.mode == Manual
    && (answer.gainOk ==> h'.device.gain == supported && r == Done)
    && (!answer.gainOk ==> h'.device.gain == answer.gainAfterFailure && r == GainFailed)
  }

  /** An index sets manual mode and exactly the gain at that place of the table. */
  lemma IndexSetsGain(build: Build, gains: seq<i32>, h: Handle, index: nat, answer: Answer)
    requires CacheOk(h)
    ensures var (h', r) := ControlSetGain(build, gains, h, ManualIndex(index), answer);
            if index >= |gains| then h' == h && r == InvalidGainIndex(index)
            else if ModeRefused(h, Manual, answer) then h' == h && r == ModeFailed
            else GainWasSet(h, gains[index], answer, h', r)
  {
  }

  /** A value sets manual mode and exactly the first nearest gain of the table, where the search finds it. */
  lemma ValueSetsNearest(build: Build, gains: seq<i32>, h: Handle, value: i32, k: nat, answer: Answer)
    requires CacheOk(h) && IsNearest(gains, value, k)
    ensures var (h', r) := ControlSetGain(build, gains, h, ManualValue(value), answer);
            if build == Checked && !AllFit(gains, value) then h' == h && r == Panicked
            else if ModeRefused(h, Manual, answer) then h' == h && r == ModeFailed
            else Finds(build, gains, value, k) ==> GainWasSet(h, gains[k], answer, h', r)
  {
    if AllFit(gains, value) {
      NearestIsNearest(build, gains, value);
    }
    CheckedSearch(gains, value);
    WrappedSearchExact(gains, value, k);
    var other := NearestExists(gains, value);
    forall j | 0 <= j < |gains| ensures Distance(Wrapping, gains[j], value).Some? {
      WrappedDistance(gains[j], value);
    }
    SearchFindsLeast(Wrapping, gains, value);
    hide Nearest, IsNearest, Distance, IsLeast, Survives;
  }

  /** Without a table no value can be set; automatic gain sets the mode and leaves the gain. */
  lemma OtherSettings(build: Build, gains: seq<i32>, h: Handle, value: i32, answer: Answer)
    requires CacheOk(h)
    ensures gains == [] ==> ControlSetGain(build, gains, h, ManualValue(value), answer) == (h, NoSupportedGains)
    ensures ControlSetGain(build, gains, h, AutomaticGain, answer)
         == if ModeRefused(h, Auto, answer) then (h, ModeFailed)
            else (Handle(Device(Auto, h.device.gain), Some(Auto)), Done)
  {
  }

  // ---------- whole histories of settings ----------

  /** The control thread: its handle, the settings served, and whether a panic has ended it. */
  datatype Control = Control(handle: Handle, served: nat, alive: bool)

  /** A setting sent to the control thread; `answers(k)` is the library's answer to the k-th. */
  function Setting(build: Build, gains: seq<i32>, answers: nat -> Answer, c: Control, gain: Gain): (Control, Outcome) {
    if !c.alive then (c, ControlThreadDead)
    else
      var (h, r) := ControlSetGain(build, gains, c.handle, gain, answers(c.served));
      (Control(h, c.served + 1, r != Panicked), r)
  }

  function Settings(build: Build, gains: seq<i32>, answers: nat -> Answer,
                    c: Control, settings: seq<Gain>): (r: Control)
    decreases |settings|
  {
    if settings == [] then c
    else Settings(build, gains, answers, Setting(build, gains, answers, c, settings[0]).0, settings[1..])
  }

  /** What a caller is told: a panic of the control thread drops the sender of the answer. */
  function Told(r: Outcome): Outcome {
    if r == Panicked then ControlThreadDead else r
  }

  /** What the callers are told along the history. */
  function Outcomes(build: Build, gains: seq<i32>, answers: nat -> Answer,
                    c: Control, settings: seq<Gain>): (r: seq<Outcome>)
    decreases |settings|
  {
    if settings == [] then []
    else
      var (next, r) := Setting(build, gains, answers, c, settings[0]);
      [Told(r)] + Outcomes(build, gains, answers, next, settings[1..])
  }

  function Dead(n: nat): seq<Outcome> {
    seq(n, _ => ControlThreadDead)
  }

  /** A setting that panics ends the control thread: its caller and all later ones hear that it is dead. */
  lemma PanicEndsControl(build: Build, gains: seq<i32>, answers: nat -> Answer, c: Control, settings: seq<Gain>)
    requires c.alive && settings != []
    requires build == Checked && settings[0].ManualValue? && gains != [] && !AllFit(gains, settings[0].value)
    ensures Outcomes(build, gains, answers, c, settings) == Dead(|settings|)
    ensures Settings(build, gains, answers, c, settings).handle == c.handle
  {
    CheckedSearch(gains, settings[0].value);
    DeadStaysDead(build, gains, answers, Setting(build, gains, answers, c, settings[0]).0, settings[1..]);
    assert [ControlThreadDead] + Dead(|settings| - 1) == Dead(|settings|);
  }

  lemma {:induction false} DeadStaysDead(build: Build, gains: seq<i32>, answers: nat -> Answer,
                                         c: Control, settings: seq<Gain>)
    requires !c.alive
    ensures Outcomes(build, gains, answers, c, settings) == Dead(|settings|)
    ensures Settings(build, gains, answers, c, settings) == c
    decreases |settings|
  {
    if settings != [] {
      DeadStaysDead(build, gains, answers, c, settings[1..]);
      assert [ControlThreadDead] + Dead(|settings| - 1) == Dead(|settings|);
    }
  }

  /** The uncached reference over the same history. */
  function UncachedSettings(build: Build, gains: seq<i32>, answers: nat -> Answer,
                            d: Device, served: nat, alive: bool, settings: seq<Gain>): (Device, seq<Outcome>)
    decreases |settings|
  {
    if settings == [] then (d, [])
    else if !alive then
      var (last, rest) := UncachedSettings(build, gains, answers, d, served, false, settings[1..]);
      (last, [ControlThreadDead] + rest)
    else
      var (d', r) := UncachedSetGain(build, gains, d, settings[0], answers(served));
      var (last, rest) := UncachedSettings(build, gains, answers, d', served + 1, r != Panicked, settings[1..]);
      (last, [Told(r)] + rest)
  }

  /** Along the history, asking the library for the mode the device is already in succeeds. */
  predicate RepeatedModeCallsSucceed(build: Build, gains: seq<i32>, answers: nat -> Answer,
                                     c: Control, settings: seq<Gain>)
    decreases |settings|
  {
    settings == [] ||
    (&& (c.alive && CacheHit(build, gains, c.handle, settings[0]) ==> answers(c.served).modeOk)
     && RepeatedModeCallsSucceed(build, gains, answers,
                                 Setting(build, gains, answers, c, settings[0]).0, settings[1..]))
  }

  /** Over every history, whatever the library answers, a cached mode is the device's mode. */
  lemma {:induction false} CacheStaysTrue(build: Build, gains: seq<i32>, answers: nat -> Answer,
                                          c: Control, settings: seq<Gain>)
    requires CacheOk(c.handle)
    ensures CacheOk(Settings(build, gains, answers, c, settings).handle)
    decreases |settings|
  {
    if settings != [] {
      SettingAgrees(build, gains, c.handle, settings[0], answers(c.served));
      CacheStaysTrue(build, gains, answers, Setting(build, gains, answers, c, settings[0]).0, settings[1..]);
    }
  }

  /**
   * Over every history the callers see with the cache what they would see without it exactly
   * when every mode call that the cache saves would have succeeded; then mode and gain of the
   * device are those of the implementation that always calls the library.
   */
  lemma {:induction false} ModeCacheRefines(build: Build, gains: seq<i32>, answers: nat -> Answer,
                                            c: Control, settings: seq<Gain>)
    requires CacheOk(c.handle)
    ensures var (d, outcomes) :=
              UncachedSettings(build, gains, answers, c.handle.device, c.served, c.alive, settings);
            && (Outcomes(build, gains, answers, c, settings) == outcomes
                <==> RepeatedModeCallsSucceed(build, gains, answers, c, settings))
            && (Outcomes(build, gains, answers, c, settings) == outcomes
                ==> Settings(build, gains, answers, c, settings).handle.device == d)
    decreases |settings|
  {
    if settings != [] {
      var (next, r) := Setting(build, gains, answers, c, settings[0]);
      SettingAgrees(build, gains, c.handle, settings[0], answers(c.served));
      ModeCacheRefines(build, gains, answers, next, settings[1..]);
      var rest := Outcomes(build, gains, answers, next, settings[1..]);
      assert ([Told(r)] + rest)[0] == Told(r) && ([Told(r)] + rest)[1..] == rest;
    }
  }

  // ---------- the handle in place ----------

  class LockedHandle {
    var device: Device
    var tunerGainMode: Option<TunerGainMode>

    ghost function Value(): Handle
      reads this
    {
      Handle(device, tunerGainMode)
    }

    constructor (device: Device)
      ensures Value() == Handle(device, None) && CacheOk(Value())
    {
      this.device := device;
      tunerGainMode := None;
    }

    method SetTunerGainMode(mode: TunerGainMode, libraryOk: bool) returns (ok: bool)
      modifies this
      ensures (Value(), ok) == SetMode(old(Value()), mode, libraryOk)
      ensures ok ==> tunerGainMode == Some(mode)
    {
      if tunerGainMode == Some(mode) {
        return true;
      }
      if libraryOk {
        device := device.(mode := mode);
        tunerGainMode := Some(mode);
      }
      ok := libraryOk;
    }

    method SetTunerGain(gain: i32, answer: Answer) returns (ok: bool)
      modifies this`device
      ensures (device, ok) == SetGain(old(device), gain, answer)
      ensures device.mode == old(device.mode) && ok == answer.gainOk
      ensures ok ==> device.gain == gain
    {
      device := device.(gain := if answer.gainOk then gain else answer.gainAfterFailure);
      ok := answer.gainOk;
    }

    /** The control thread's `set_tuner_gain`, on the handle it has locked. */
    method Apply(build: Build, gains: seq<i32>, gain: Gain, answer: Answer) returns (outcome: Outcome)
      modifies this
      ensures (Value(), outcome) == ControlSetGain(build, gains, old(Value()), gain, answer)
      ensures old(CacheOk(Value())) ==> CacheOk(Value())
      ensures old(CacheOk(Value())) && outcome.Done? ==>
        match gain
        case AutomaticGain => device.mode == Auto
        case ManualIndex(index) => index < |gains| && device == Device(Manual, gains[index])
        case ManualValue(value) => device.mode == Manual && exists k :: 0 <= k < |gains| && device.gain == gains[k]
    {
      match ResolveGain(build, gains, gain) {
        case Err(refused) =>
          outcome := refused;
        case Ok(None) =>
          var ok := SetTunerGainMode(Auto, answer.modeOk);
          outcome := if ok then Done else ModeFailed;
        case Ok(Some(value)) =>
          var ok := SetTunerGainMode(Manual, answer.modeOk);
          if !ok {
            return ModeFailed;
          }
          ok := SetTunerGain(value, answer);
          outcome := if ok then Done else GainFailed;
      }
    }
  }
}
