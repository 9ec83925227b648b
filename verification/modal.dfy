/**
 * The "Start Your Project" modal: a three-step wizard (input, generating,
 * success). Generation is a fake: an interval adds a random amount below 15
 * to a private accumulator every 200 ms, clamps it at 100, and 400 ms after
 * reaching 100 a timeout switches the wizard to success.
 *
 * Timer callbacks are transitions here: `Tick(k, inc)` is one firing of the
 * k-th live interval with the random increment `inc`, `Finish()` is the
 * firing of a scheduled success timeout. Wall-clock time is not modelled.
 */
module AiModal {

  datatype Step = Input | Generating | Success

  /** The wizard's order: input before generating before success. */
  function Rank(s: Step): (k: nat) {
    match s
    case Input => 0
    case Generating => 1
    case Success => 2
  }

  /** Largest random increment per interval firing (exclusive). */
  const MaxIncrement: real := 15.0

  /** Progress is clamped here and the success timeout scheduled. */
  const Complete: real := 100.0

  /**
   * The characters `String.prototype.trim` strips: ECMAScript's WhiteSpace
   * (tab, vertical tab, form feed, space, no-break space, byte order mark and
   * the Unicode space separators) and LineTerminator (LF, CR, U+2028, U+2029).
   */
  const Whitespace: set<char> := {
    '\t', '\U{000B}', '\U{000C}', ' ', '\U{00A0}', '\U{FEFF}',
    '\U{1680}', '\U{2000}', '\U{2001}', '\U{2002}', '\U{2003}', '\U{2004}',
    '\U{2005}', '\U{2006}', '\U{2007}', '\U{2008}', '\U{2009}', '\U{200A}',
    '\U{202F}', '\U{205F}', '\U{3000}',
    '\n', '\r', '\U{2028}', '\U{2029}'
  }

  predicate IsWhitespace(c: char) {
    c in Whitespace
  }

  /** The string without its leading whitespace. */
  function TrimStart(s: string): (r: string)
    ensures |r| <= |s|
  {
    if s != [] && IsWhitespace(s[0]) then TrimStart(s[1..]) else s
  }

  /** The string without its trailing whitespace. */
  function TrimEnd(s: string): (r: string)
    ensures |r| <= |s|
  {
    if s != [] && IsWhitespace(s[|s| - 1]) then TrimEnd(s[..|s| - 1]) else s
  }

  /** TrimStart drops exactly the leading run of whitespace: what it returns is a suffix that does not start with whitespace. */
  lemma {:induction false} TrimStartDropsLeadingWhitespace(s: string)
    ensures var r := TrimStart(s);
      && |r| <= |s| && r == s[|s| - |r|..]
      && (forall i :: 0 <= i < |s| - |r| ==> IsWhitespace(s[i]))
      && (r == [] || !IsWhitespace(r[0]))
  {
    if s != [] && IsWhitespace(s[0]) {
      TrimStartDropsLeadingWhitespace(s[1..]);
    }
  }

  /** TrimEnd drops exactly the trailing run of whitespace: what it returns is a prefix that does not end with whitespace. */
  lemma {:induction false} TrimEndDropsTrailingWhitespace(s: string)
    ensures var r := TrimEnd(s);
      && |r| <= |s| && r == s[..|r|]
      && (forall i :: |r| <= i < |s| ==> IsWhitespace(s[i]))
      && (r == [] || !IsWhitespace(r[|r| - 1]))
  {
    if s != [] && IsWhitespace(s[|s| - 1]) {
      TrimEndDropsTrailingWhitespace(s[..|s| - 1]);
    }
  }

  /** `s.trim()`. */
  function Trim(s: string): (r: string)
    ensures |r| <= |s|
  {
    TrimEnd(TrimStart(s))
  }

  /** `!prompt.trim()`: the trimmed prompt is the empty string, which is falsy. */
  predicate IsBlank(s: string): (blank: bool)
    ensures s == [] ==> blank
  {
    Trim(s) == []
  }

  /**
   * Trimming removes whitespace from both ends only: the result is a slice of
   * the input, everything cut off before and after it is whitespace, and it
   * neither starts nor ends with whitespace.
   */
  lemma TrimIsInnerSlice(s: string)
    ensures exists i, j :: && 0 <= i <= j <= |s| && Trim(s) == s[i..j]
                           && (forall k :: 0 <= k < i ==> IsWhitespace(s[k]))
                           && (forall k :: j <= k < |s| ==> IsWhitespace(s[k]))
    ensures Trim(s) == [] || (!IsWhitespace(Trim(s)[0]) && !IsWhitespace(Trim(s)[|Trim(s)| - 1]))
  {
    var i, j := TrimBounds(s);
    assert 0 <= i <= j <= |s| && Trim(s) == s[i..j];
  }

  /** Where the trimmed prompt sits in the prompt: from `i` up to `j`, with whitespace outside. */
  lemma TrimBounds(s: string) returns (i: nat, j: nat)
    ensures 0 <= i <= j <= |s| && Trim(s) == s[i..j]
    ensures forall k :: 0 <= k < i ==> IsWhitespace(s[k])
    ensures forall k :: j <= k < |s| ==> IsWhitespace(s[k])
    ensures Trim(s) == [] || (!IsWhitespace(Trim(s)[0]) && !IsWhitespace(Trim(s)[|Trim(s)| - 1]))
  {
    var t := TrimStart(s);
    TrimStartDropsLeadingWhitespace(s);
    TrimEndDropsTrailingWhitespace(t);
    i := |s| - |t|;
    j := i + |TrimEnd(t)|;
    assert Trim(s) == s[i..j];
    forall k | j <= k < |s| ensures IsWhitespace(s[k]) {
      assert s[k] == t[k - i];
    }
    if Trim(s) != [] {
      assert Trim(s)[0] == t[0];
    }
  }

  /** A prompt is blank exactly when every character of it is whitespace (the empty prompt included). */
  lemma BlankIffAllWhitespace(s: string)
    ensures IsBlank(s) <==> forall i :: 0 <= i < |s| ==> IsWhitespace(s[i])
  {
    var t := TrimStart(s);
    TrimStartDropsLeadingWhitespace(s);
    TrimEndDropsTrailingWhitespace(t);
    if t != [] {
      assert !IsWhitespace(t[0]);
      assert TrimEnd(t) != [];
    }
  }

  /**
   * The modal's React state (`isOpen` is the parent's prop) together with the
   * timers it has started: `intervals` holds the accumulator `p` of each
   * interval that is still running, oldest first, and `pendingSuccess` counts
   * success timeouts scheduled but not yet fired.
   */
  class Modal {
    var isOpen: bool
    var step: Step
    var prompt: string
    var progress: real
    var intervals: seq<real>
    var pendingSuccess: nat

    /** Bounds that hold in every reachable state: progress and accumulators stay within [0, 100]. */
    ghost predicate Valid()
      reads this
    {
      && 0.0 <= progress <= Complete
      && forall i :: 0 <= i < |intervals| ==> 0.0 <= intervals[i] < Complete
    }

    /**
     * The wizard's intended invariant: at most one generation in flight, and
     * only while generating; progress is 0 on the input step and exactly 100
     * on the success step; a prompt past the input step is never blank.
     */
    ghost predicate Consistent()
      reads this
    {
      && Valid()
      && |intervals| + pendingSuccess <= 1
      && (step == Input ==> progress == 0.0 && intervals == [] && pendingSuccess == 0)
      && (step == Generating ==>
            && !IsBlank(prompt)
            && |intervals| + pendingSuccess == 1
            && (intervals != [] ==> progress == intervals[0])
            && (pendingSuccess == 1 ==> progress == Complete))
      && (step == Success ==>
            !IsBlank(prompt) && progress == Complete && intervals == [] && pendingSuccess == 0)
    }

    /** Mounting: the initial state; when mounted open, the open effect resets it to the same values. */
    constructor (open: bool)
      ensures Consistent()
      ensures isOpen == open && step == Input && prompt == [] && progress == 0.0
      ensures intervals == [] && pendingSuccess == 0
    {
      isOpen := open;
      step, prompt, progress := Input, [], 0.0;
      intervals, pendingSuccess := [], 0;
    }

    /**
     * The open effect as written: on the change to open it resets step,
     * prompt and progress, but leaves any running interval and any scheduled
     * success timeout alone.
     */
    method OpenAsWritten()
      requires Valid()
      modifies this
      ensures Valid() && isOpen
      ensures intervals == old(intervals) && pendingSuccess == old(pendingSuccess)
      ensures !old(isOpen) ==> step == Input && prompt == [] && progress == 0.0
      ensures old(isOpen) ==> step == old(step) && prompt == old(prompt) && progress == old(progress)
    {
      if !isOpen {
        isOpen := true;
        step, prompt, progress := Input, [], 0.0;
      }
    }

    /**
     * The open effect with the stale generation cancelled: besides the reset,
     * it clears the interval and the success timeout of an earlier opening.
     * Opening a closed modal always yields a consistent input step.
     */
    method Open()
      requires Valid()
      modifies this
      ensures Valid() && isOpen
      ensures !old(isOpen) ==> step == Input && prompt == [] && progress == 0.0 && intervals == [] && pendingSuccess == 0
      ensures old(isOpen) ==> step == old(step) && prompt == old(prompt) && progress == old(progress)
                              && intervals == old(intervals) && pendingSuccess == old(pendingSuccess)
      ensures !old(isOpen) || old(Consistent()) ==> Consistent()
    {
      if !isOpen {
        isOpen := true;
        step, prompt, progress := Input, [], 0.0;
        intervals, pendingSuccess := [], 0;
      }
    }

    /** `onClose`: the parent hides the modal; the component stays mounted and its timers keep running. */
    method Close()
      requires Valid()
      modifies this`isOpen
      ensures Valid() && !isOpen
      ensures old(Consistent()) ==> Consistent()
    {
      isOpen := false;
    }

    /** The textarea's `onChange`; the textarea exists only on the input step of an open modal. */
    method SetPrompt(s: string)
      requires Valid() && isOpen && step == Input
      modifies this`prompt
      ensures Valid() && prompt == s
      ensures old(Consistent()) ==> Consistent()
    {
      prompt := s;
    }

    /**
     * `handleGenerate`, reachable only from the input step's button: a blank
     * prompt changes nothing; otherwise the wizard moves to generating and a
     * new interval starts with its accumulator at 0.
     */
    method Generate()
      requires Valid() && isOpen && step == Input
      modifies this`step, this`intervals
      ensures Valid()
      ensures IsBlank(prompt) ==> step == Input && intervals == old(intervals)
      ensures !IsBlank(prompt) ==> step == Generating && intervals == old(intervals) + [0.0]
      ensures Rank(step) >= Rank(old(step))
      ensures old(Consistent()) ==> Consistent()
    {
      if IsBlank(prompt) {
        return;
      }
      ghost var wasConsistent := Consistent();
      assert wasConsistent ==> intervals == [] && pendingSuccess == 0 && progress == 0.0;
      step := Generating;
      intervals := intervals + [0.0];
      assert wasConsistent ==> intervals == [0.0];
    }

    /**
     * One firing of the k-th live interval with increment `inc`: the
     * accumulator grows by `inc`; on reaching 100 it is clamped to exactly
     * 100, the interval is cleared and a success timeout scheduled. Either
     * way the accumulator is published as the progress.
     */
    method Tick(k: nat, inc: real)
      requires Valid() && k < |intervals|
      requires 0.0 <= inc < MaxIncrement
      modifies this`progress, this`intervals, this`pendingSuccess
      ensures Valid()
      ensures old(intervals[k]) + inc >= Complete ==>
                && progress == Complete
                && intervals == old(intervals[..k]) + old(intervals[k + 1..])
                && pendingSuccess == old(pendingSuccess) + 1
      ensures old(intervals[k]) + inc < Complete ==>
                && progress == old(intervals[k]) + inc
                && intervals == old(intervals)[k := progress]
                && pendingSuccess == old(pendingSuccess)
      ensures old(Consistent()) ==> Consistent() && progress >= old(progress)
    {
      var p := intervals[k] + inc;
      if p >= Complete {
        p := Complete;
        intervals := intervals[..k] + intervals[k + 1..];
        pendingSuccess := pendingSuccess + 1;
      } else {
        intervals := intervals[k := p];
      }
      progress := p;
    }

    /** A scheduled success timeout fires: the wizard shows success. */
    method Finish()
      requires Valid() && pendingSuccess > 0
      modifies this`step, this`pendingSuccess
      ensures Valid()
      ensures step == Success && pendingSuccess == old(pendingSuccess) - 1
      ensures Rank(step) >= Rank(old(step))
      ensures old(Consistent()) ==> Consistent() && old(step) == Generating && progress == Complete
    {
      step := Success;
      pendingSuccess := pendingSuccess - 1;
    }
  }

  /**
   * The stale-interval run of the modal as written: open, type a prompt,
   * generate, close before success, reopen. The reopened wizard shows the
   * input step with an empty prompt, yet the first generation's interval
   * keeps firing and its timeout switches the wizard to success, with a
   * blank prompt and without passing through generating.
   */
  method StaleIntervalScenario(typed: string) returns (reopenedStep: Step, finalStep: Step, finalPrompt: string)
    requires !IsBlank(typed)
    ensures reopenedStep == Input
    ensures finalStep == Success && IsBlank(finalPrompt)
  {
    var m := new Modal(false);
    m.OpenAsWritten();
    GenerateThenClose(m, typed);
    m.OpenAsWritten();
    reopenedStep := m.step;
    FireUntilComplete(m);
    assert m.prompt == [] && IsBlank([]);
    m.Finish();
    finalStep, finalPrompt := m.step, m.prompt;
  }

  /** Type a non-blank prompt into a fresh input step, generate, and close the modal before anything fires. */
  method GenerateThenClose(m: Modal, typed: string)
    requires m.Valid() && m.isOpen && m.step == Input && m.intervals == [] && m.pendingSuccess == 0
    requires !IsBlank(typed)
    modifies m
    ensures m.Valid() && !m.isOpen && m.step == Generating && m.prompt == typed
    ensures m.intervals == [0.0] && m.pendingSuccess == 0
  {
    m.SetPrompt(typed);
    m.Generate();
    m.Close();
  }

  /**
   * Seven firings of 14.5 take a fresh interval to 101.5, which is clamped
   * to 100: the interval is cleared and the success timeout scheduled.
   */
  method FireUntilComplete(m: Modal)
    requires m.Valid() && m.intervals == [0.0] && m.pendingSuccess == 0
    modifies m
    ensures m.Valid() && m.intervals == [] && m.pendingSuccess == 1 && m.progress == Complete
    ensures m.step == old(m.step) && m.prompt == old(m.prompt) && m.isOpen == old(m.isOpen)
  {
    m.Tick(0, 14.5);
    assert m.intervals == [14.5];
    m.Tick(0, 14.5);
    assert m.intervals == [29.0];
    m.Tick(0, 14.5);
    assert m.intervals == [43.5];
    m.Tick(0, 14.5);
    assert m.intervals == [58.0];
    m.Tick(0, 14.5);
    assert m.intervals == [72.5];
    m.Tick(0, 14.5);
    assert m.intervals == [87.0];
    m.Tick(0, 14.5);
    assert m.pendingSuccess == 1;
  }

  /** The same run with the corrected open effect: the reopened wizard holds no stale timer to fire. */
  method CancelledIntervalScenario(typed: string) returns (reopenedStep: Step, liveTimers: nat)
    requires !IsBlank(typed)
    ensures reopenedStep == Input && liveTimers == 0
  {
    var m := new Modal(false);
    m.Open();
    GenerateThenClose(m, typed);
    m.Open();
    reopenedStep := m.step;
    liveTimers := |m.intervals| + m.pendingSuccess;
  }
}
