/**
  The `Typewriter` component: reveals `text` one character per timer tick.

  Its state is `displayedText` and `currentIndex`.  One effect resets both
  whenever `text` changes.  A second effect runs after every render in which
  `currentIndex` or `text` changed.  Its cleanup first cancels the timer it
  scheduled last time.  Then it does nothing for empty text, schedules one
  tick while characters remain, and otherwise calls `onComplete`.

  Timers are discrete: the timer scheduled by the last effect run is kept as
  the `pending` closure (the text and index it captured), and `Tick` fires
  it.  `notify` says whether an `onComplete` callback was passed, and
  `completions` counts the calls made to it.
*/
module Typewriter {
  import opened Wrappers

  /** A scheduled `setTimeout`: what its closure captured from the render that scheduled it. */
  datatype Timer = Timer(text: string, index: nat)

  datatype RevealState = RevealState(
    text: string,
    displayedText: string,
    currentIndex: nat,
    pending: Option<Timer>,
    completions: nat)

  /** What is shown is the prefix of `text` of length `currentIndex`. */
  predicate ShowsPrefix(r: RevealState)
  {
    r.currentIndex <= |r.text| && r.displayedText == r.text[..r.currentIndex]
  }

  /**
    The invariant of every state between events: the prefix property, and a
    tick is pending exactly while characters remain, with a closure that
    captured the current text and index.
  */
  predicate Consistent(r: RevealState)
  {
    && ShowsPrefix(r)
    && (r.pending.Some? <==> r.currentIndex < |r.text|)
    && (r.pending.Some? ==> r.pending.value == Timer(r.text, r.currentIndex))
  }

  /** The reveal is over: every character is shown. */
  predicate IsComplete(r: RevealState)
  {
    r.currentIndex >= |r.text|
  }

  /** The blinking cursor is rendered while characters remain. */
  predicate ShowsCursor(r: RevealState)
  {
    r.currentIndex < |r.text|
  }

  /**
    One run of the tick effect, after its cleanup cancelled the previous
    timer: schedule the next character, or call `onComplete` once the end is
    reached, or (empty text) do nothing at all.
  */
  function AfterEffect(r: RevealState, notify: bool): (r': RevealState)
    requires ShowsPrefix(r)
    ensures Consistent(r')
    ensures r'.text == r.text && r'.displayedText == r.displayedText && r'.currentIndex == r.currentIndex
    ensures r'.completions == r.completions + 1 <==> notify && r.text != "" && IsComplete(r)
    ensures r'.completions == r.completions || r'.completions == r.completions + 1
  {
    if r.text == "" then r.(pending := None)
    else if r.currentIndex < |r.text| then r.(pending := Some(Timer(r.text, r.currentIndex)))
    else if notify then r.(pending := None, completions := r.completions + 1)
    else r.(pending := None)
  }

  /** The state after the first render: nothing shown, index 0, effects run once. */
  function Mounted(text: string, notify: bool): (r: RevealState)
    ensures Consistent(r)
    ensures r.text == text && r.displayedText == "" && r.currentIndex == 0
    ensures r.completions == 0
    ensures r.pending.Some? <==> text != ""
  {
    AfterEffect(RevealState(text, "", 0, None, 0), notify)
  }

  /**
    A new `text` prop.  The same string changes no dependency, so nothing
    happens; a different one cancels the pending tick, resets the state and
    re-runs the tick effect for the new text.
  */
  function AfterTextChange(r: RevealState, text: string, notify: bool): (r': RevealState)
    requires Consistent(r)
    ensures Consistent(r')
    ensures r'.text == text
    ensures text == r.text ==> r' == r
    ensures text != r.text ==> r'.displayedText == "" && r'.currentIndex == 0
    ensures r'.completions == r.completions
  {
    if text == r.text then r
    else AfterEffect(RevealState(text, "", 0, None, r.completions), notify)
  }

  /**
    The pending timer fires: it appends the character its closure captured,
    increments the index, and the tick effect runs again.  Without a pending
    timer nothing happens.
  */
  function AfterTick(r: RevealState, notify: bool): (r': RevealState)
    requires Consistent(r)
    ensures Consistent(r')
    ensures r'.text == r.text
    ensures r.pending.None? ==> r' == r
    ensures r.pending.Some? ==>
              r'.displayedText == r.displayedText + [r.text[r.currentIndex]] &&
              r'.currentIndex == r.currentIndex + 1
    ensures r'.completions == r.completions + 1 <==>
              notify && r.pending.Some? && r.currentIndex + 1 == |r.text|
    ensures r'.completions == r.completions || r'.completions == r.completions + 1
  {
    match r.pending
    case None => r
    case Some(timer) =>
      var shown := r.displayedText + [timer.text[timer.index]];
      assert shown == r.text[..r.currentIndex + 1];
      AfterEffect(r.(displayedText := shown, currentIndex := r.currentIndex + 1, pending := None), notify)
  }

  /** `n` consecutive timer events. */
  function AfterTicks(r: RevealState, n: nat, notify: bool): (r': RevealState)
    requires Consistent(r)
    ensures Consistent(r')
    ensures r'.text == r.text
    decreases n
  {
    if n == 0 then r else AfterTicks(AfterTick(r, notify), n - 1, notify)
  }

  /** A tick is pending exactly while the cursor is shown. */
  lemma CursorWhilePending(r: RevealState)
    requires Consistent(r)
    ensures ShowsCursor(r) <==> r.pending.Some?
    ensures !ShowsCursor(r) <==> IsComplete(r)
  {
  }

  /**
    From any consistent state, `k` ticks (no more than the characters left)
    reveal `k` more characters, and `onComplete` is called once if and only
    if they reach the end of the text.
  */
  lemma {:induction false} TicksReveal(r: RevealState, k: nat, notify: bool)
    requires Consistent(r)
    requires r.currentIndex + k <= |r.text|
    ensures AfterTicks(r, k, notify).currentIndex == r.currentIndex + k
    ensures AfterTicks(r, k, notify).displayedText == r.text[..r.currentIndex + k]
    ensures AfterTicks(r, k, notify).completions ==
              r.completions + (if notify && k > 0 && r.currentIndex + k == |r.text| then 1 else 0)
    decreases k
  {
    if k > 0 {
      var next := AfterTick(r, notify);
      TicksReveal(next, k - 1, notify);
    }
  }

  /** Once the reveal is complete no timer is pending, and further ticks change nothing. */
  lemma {:induction false} TicksAfterCompletion(r: RevealState, n: nat, notify: bool)
    requires Consistent(r)
    requires IsComplete(r)
    ensures AfterTicks(r, n, notify) == r
    decreases n
  {
    if n > 0 {
      TicksAfterCompletion(AfterTick(r, notify), n - 1, notify);
    }
  }

  /**
    Driving a freshly mounted Typewriter for at least `|text|` ticks shows
    exactly `text`, leaves no tick pending, and calls `onComplete` exactly
    once; for empty text it is never called.
  */
  lemma FullReveal(text: string, n: nat, notify: bool)
    requires n >= |text|
    ensures AfterTicks(Mounted(text, notify), n, notify).displayedText == text
    ensures AfterTicks(Mounted(text, notify), n, notify).pending == None
    ensures AfterTicks(Mounted(text, notify), n, notify).completions ==
              (if notify && text != "" then 1 else 0)
  {
    var start := Mounted(text, notify);
    TicksReveal(start, |text|, notify);
    var done := AfterTicks(start, |text|, notify);
    TicksAfterCompletion(done, n - |text|, notify);
    TicksSplit(start, |text|, n - |text|, notify);
  }

  /** `a + b` ticks are `a` ticks followed by `b` ticks. */
  lemma {:induction false} TicksSplit(r: RevealState, a: nat, b: nat, notify: bool)
    requires Consistent(r)
    ensures AfterTicks(r, a + b, notify) == AfterTicks(AfterTicks(r, a, notify), b, notify)
    decreases a
  {
    if a > 0 {
      TicksSplit(AfterTick(r, notify), a - 1, b, notify);
    }
  }

  /**
    A text change mid-reveal cancels the old timer: the next tick appends the
    first character of the NEW text, never a character of the old one.
  */
  lemma NoStaleTickAfterTextChange(r: RevealState, text: string, notify: bool)
    requires Consistent(r)
    requires text != r.text && text != ""
    ensures AfterTick(AfterTextChange(r, text, notify), notify).displayedText == [text[0]]
    ensures AfterTick(AfterTextChange(r, text, notify), notify).currentIndex == 1
  {
  }

  /** The component instance.  Its methods update the fields step by step. */
  class Typewriter {
    const notify: bool
    var text: string
    var displayedText: string
    var currentIndex: nat
    var pending: Option<Timer>
    var completions: nat

    function State(): RevealState
      reads this
    {
      RevealState(text, displayedText, currentIndex, pending, completions)
    }

    ghost predicate Valid()
      reads this
    {
      Consistent(State())
    }

    /** Mounting: the initial `useState` values, then the first run of the tick effect. */
    constructor (initialText: string, hasOnComplete: bool)
      ensures Valid()
      ensures notify == hasOnComplete
      ensures State() == Mounted(initialText, hasOnComplete)
    {
      notify := hasOnComplete;
      text := initialText;
      displayedText := "";
      currentIndex := 0;
      pending := None;
      completions := 0;
      new;
      RunTickEffect();
    }

    /** The tick effect after its cleanup: schedule, complete, or return early. */
    method RunTickEffect()
      requires ShowsPrefix(State())
      modifies this
      ensures State() == AfterEffect(old(State()), notify)
    {
      pending := None;
      if text == "" {
        return;
      }
      if currentIndex < |text| {
        pending := Some(Timer(text, currentIndex));
      } else if notify {
        completions := completions + 1;
      }
    }

    /** The parent renders with a new `text` prop. */
    method SetText(newText: string)
      requires Valid()
      modifies this
      ensures Valid()
      ensures State() == AfterTextChange(old(State()), newText, notify)
    {
      if newText == text {
        return;
      }
      pending := None;
      text := newText;
      displayedText := "";
      currentIndex := 0;
      RunTickEffect();
    }

    /** A timer event: the pending timeout, if any, fires. */
    method Tick() returns (fired: bool)
      requires Valid()
      modifies this
      ensures Valid()
      ensures fired <==> old(pending).Some?
      ensures State() == AfterTick(old(State()), notify)
    {
      fired := pending.Some?;
      if !fired {
        return;
      }
      var timer := pending.value;
      pending := None;
      displayedText := displayedText + [timer.text[timer.index]];
      currentIndex := currentIndex + 1;
      RunTickEffect();
    }

    /** True once every character is shown. */
    function IsComplete(): (done: bool)
      reads this
      requires Valid()
      ensures done <==> displayedText == text
      ensures done <==> pending.None?
    {
      currentIndex >= |text|
    }

    /** Whether the blinking cursor is rendered after the text. */
    function ShowsCursor(): (shown: bool)
      reads this
      requires Valid()
      ensures shown <==> pending.Some?
      ensures shown <==> |displayedText| < |text|
    {
      currentIndex < |text|
    }
  }
}
