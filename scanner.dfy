/** The barcode input of the inventory page (src/components/ScannerInput.js).
    A scanner gun types the code and either presses Enter or stops typing;
    after a 50 ms pause a timer submits the code. While the parent handles
    a scan the input is disabled; afterwards, on success or failure alike,
    the input is cleared. Focus handling, animation frames and the
    parent's handler itself are outside the model: the handler is the
    trimmed code that a submit hands over. */
module Scanner {
  import opened Wrappers
  import opened Text

  /** The pause, in milliseconds, after which typed input counts as a
      finished scan. */
  const TimerDelay := 50

  /** `productCode.trim() && !processing`: a scan may start, which is
      exactly when the code has a character other than white space and no
      scan is in progress. */
  function CanSubmit(code: string, processing: bool): (r: bool)
    ensures r <==> !AllSpace(code) && !processing
  {
    TrimEmptyIffAllSpace(code);
    Trim(code) != [] && !processing
  }

  /** The guard inside the timer set by an input change: the captured value
      is not blank, no scan is in progress, and at least 50 ms have passed
      since the last keystroke. */
  function TimerShouldScan(value: string, processing: bool, now: int, lastInputTime: int): (r: bool)
    ensures r <==> !AllSpace(value) && !processing && now - lastInputTime >= TimerDelay
  {
    CanSubmit(value, processing) && now - lastInputTime >= TimerDelay
  }

  /** A timer that fires on schedule, 50 ms or more after the keystroke
      that set it, submits exactly when a click on the button would. */
  lemma {:induction false} TimerOnSchedule(value: string, processing: bool, now: int, lastInputTime: int)
    requires now >= lastInputTime + TimerDelay
    ensures TimerShouldScan(value, processing, now, lastInputTime) <==> !ButtonDisabled(value, processing)
  {
    ButtonDisabledMeaning(value, processing);
  }

  /** `disabled={processing}` on the input. */
  function InputDisabled(processing: bool): bool {
    processing
  }

  /** `disabled={!productCode.trim() || processing}` on the button. */
  function ButtonDisabled(code: string, processing: bool): bool {
    Trim(code) == [] || processing
  }

  /** The button is disabled exactly when the code is all white space or
      a scan is in progress, that is, exactly when a click would do
      nothing; and whenever the input is disabled, so is the button. */
  lemma {:induction false} ButtonDisabledMeaning(code: string, processing: bool)
    ensures ButtonDisabled(code, processing) <==> AllSpace(code) || processing
    ensures ButtonDisabled(code, processing) <==> !CanSubmit(code, processing)
    ensures InputDisabled(processing) ==> ButtonDisabled(code, processing)
  {
    TrimEmptyIffAllSpace(code);
  }

  /** The timeout an input change sets: the new value, and the
      `productCode` and `processing` of the render that set it, which is
      what the `handleScan` its callback calls reads. */
  datatype Pending = Pending(value: string, code: string, processing: bool)

  class ScannerInput {
    var productCode: string
    var isScanning: bool
    var processing: bool
    var lastInputTime: int
    /** The pending timeout, with what its callback captured. */
    var timer: Option<Pending>

    /** The "listening" and "processing" looks never show together, a
        scan in progress always has a non-blank code and no pending timer
        (the effect keyed on `processing` cancels it when a scan starts),
        and a pending timer captured the text now in the box. */
    predicate Valid()
      reads this
    {
      && (processing ==> !isScanning && !AllSpace(productCode) && timer == None)
      && (timer.Some? ==> timer.value.value == productCode)
    }

    constructor ()
      ensures Valid()
      ensures productCode == [] && !isScanning && !processing
      ensures lastInputTime == 0 && timer == None
    {
      productCode := [];
      isScanning := false;
      processing := false;
      lastInputTime := 0;
      timer := None;
    }

    /** `handleInputChange`: take the new value, show the listening look,
        record the time and replace any pending timer by a new one. The
        input is disabled while a scan is processing, so no change arrives
        then. */
    method InputChange(value: string, now: int)
      requires Valid() && !processing
      modifies this
      ensures Valid()
      ensures productCode == value && isScanning && !processing
      ensures lastInputTime == now && timer == Some(Pending(value, old(productCode), old(processing)))
    {
      var captured := Pending(value, productCode, processing);
      productCode := value;
      isScanning := true;
      processing := false;
      lastInputTime := now;
      timer := None;
      timer := Some(captured);
    }

    /** `handleScan`, up to the call of the parent's handler: when a scan
        may start, mark it in progress and hand over the trimmed code;
        otherwise do nothing. Starting a scan changes `processing`, so the
        effect's cleanup cancels any pending timer. */
    method HandleScan() returns (submitted: Option<string>)
      requires Valid()
      modifies this
      ensures Valid()
      ensures submitted.Some? <==> old(CanSubmit(productCode, processing))
      ensures submitted.Some? ==>
        && submitted.value == Trim(old(productCode))
        && submitted.value != [] && IsTrimmed(submitted.value)
        && processing && !isScanning
        && productCode == old(productCode)
        && lastInputTime == old(lastInputTime) && timer == None
      ensures submitted.None? ==> unchanged(this)
    {
      var code := Trim(productCode);
      if code == [] || processing {
        return None;
      }
      TrimEmptyIffAllSpace(productCode);
      TrimFacts(productCode);
      processing := true;
      isScanning := false;
      timer := None;
      submitted := Some(code);
    }

    /** `resetInputFocus`, run after the parent's handler for a scan that
        `handleScan` started returns or throws: the outcome makes no
        difference. Ending the scan changes `processing`, so the effect's
        cleanup cancels any pending timer. */
    method FinishScan(handlerFailed: bool)
      requires Valid() && processing
      modifies this
      ensures Valid()
      ensures productCode == [] && !processing && !isScanning
      ensures lastInputTime == old(lastInputTime) && timer == None
    {
      productCode := [];
      processing := false;
      isScanning := false;
      timer := None;
    }

    /** The pending timeout fires at time `now`, as intended: it is spent,
        and when its guard holds it scans as `handleScan` does on the
        current state, so the code handed over is the one typed. */
    method TimerFires(now: int) returns (submitted: Option<string>)
      requires Valid() && timer.Some?
      modifies this
      ensures Valid() && timer == None
      ensures productCode == old(productCode) && lastInputTime == old(lastInputTime)
      ensures submitted.Some? <==>
        old(TimerShouldScan(timer.value.value, processing, now, lastInputTime) && CanSubmit(productCode, processing))
      ensures submitted.Some? ==>
        submitted.value == Trim(old(productCode)) && processing && !isScanning
      ensures submitted.None? ==> processing == old(processing) && isScanning == old(isScanning)
    {
      var value := timer.value.value;
      timer := None;
      if TimerShouldScan(value, processing, now, lastInputTime) {
        submitted := HandleScan();
      } else {
        submitted := None;
      }
    }

    /** The pending timeout fires at time `now`, as the component runs it:
        its guard reads the `processing` of the render that set it, and the
        `handleScan` it calls reads that render's `productCode` and
        `processing`, which are the values from before the keystroke. The
        box itself still holds the text typed, which the guard found not
        blank, so the invariant is kept. */
    method TimerFiresAsWritten(now: int) returns (submitted: Option<string>)
      requires Valid() && timer.Some?
      modifies this
      ensures Valid() && timer == None
      ensures productCode == old(productCode) && lastInputTime == old(lastInputTime)
      ensures submitted.Some? <==>
        old(TimerShouldScan(timer.value.value, timer.value.processing, now, lastInputTime)
            && CanSubmit(timer.value.code, timer.value.processing))
      ensures submitted.Some? ==>
        submitted.value == Trim(old(timer.value.code)) && processing && !isScanning
      ensures submitted.None? ==> processing == old(processing) && isScanning == old(isScanning)
    {
      var p := timer.value;
      timer := None;
      if TimerShouldScan(p.value, p.processing, now, lastInputTime) && CanSubmit(p.code, p.processing) {
        processing := true;
        isScanning := false;
        submitted := Some(Trim(p.code));
      } else {
        submitted := None;
      }
    }

    /** `handleKeyDown`: Enter with a submittable code cancels the timer
        and submits; any other key, or Enter otherwise, changes nothing. */
    method KeyDown(key: string) returns (submitted: Option<string>)
      requires Valid()
      modifies this
      ensures Valid()
      ensures submitted.Some? <==> key == "Enter" && old(CanSubmit(productCode, processing))
      ensures submitted.Some? ==>
        submitted.value == Trim(old(productCode)) && processing && !isScanning && timer == None
      ensures productCode == old(productCode) && lastInputTime == old(lastInputTime)
      ensures submitted.None? ==> unchanged(this)
    {
      if key == "Enter" && CanSubmit(productCode, processing) {
        timer := None;
        submitted := HandleScan();
      } else {
        submitted := None;
      }
    }
  }

  /** Two keystrokes, `prev` then `value`, on a fresh input, and a pause of
      50 ms or more: as written the timer hands over the code from before
      the last keystroke (nothing when that was blank), while the intended
      timer hands over the code typed. Typing "1" then "12" submits "1". */
  method StaleTimerSubmitsPrevious(prev: string, value: string, t0: int, t1: int, now: int)
    returns (asWritten: Option<string>, intended: Option<string>)
    requires now - t1 >= TimerDelay && !AllSpace(value)
    ensures asWritten == if AllSpace(prev) then None else Some(Trim(prev))
    ensures intended == Some(Trim(value))
    ensures prev == "1" && value == "12" ==> asWritten == Some("1") && intended == Some("12")
  {
    var a := new ScannerInput();
    a.InputChange(prev, t0);
    a.InputChange(value, t1);
    asWritten := a.TimerFiresAsWritten(now);
    var b := new ScannerInput();
    b.InputChange(prev, t0);
    b.InputChange(value, t1);
    intended := b.TimerFires(now);
    if prev == "1" && value == "12" {
      assert !IsSpace('1') && !IsSpace('2');
      assert IsTrimmed("1") && IsTrimmed("12");
      TrimTrimmed("1");
      TrimTrimmed("12");
    }
  }

  /** Two keystrokes and a click on the button before the pause: the code
      typed is submitted once, and starting the scan cancels the pending
      timer, so no second submission can follow. */
  method ClickBeforePauseSubmitsOnce(prev: string, value: string, t0: int, t1: int)
    returns (submitted: Option<string>, pending: Option<Pending>)
    requires !AllSpace(value)
    ensures submitted == Some(Trim(value)) && pending == None
  {
    var a := new ScannerInput();
    a.InputChange(prev, t0);
    a.InputChange(value, t1);
    submitted := a.HandleScan();
    pending := a.timer;
  }
}
