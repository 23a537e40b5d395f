/**
 * The PIN lock: a four-digit keypad with auto-submit, three attempts before a
 * five-minute lockout, a once-a-second countdown, and the host application's
 * `isLocked` flag (cleared on unlock, set again by the inactivity timeout).
 *
 * Time is milliseconds since the epoch, supplied by the caller of each event.
 * The pure transition functions specify the `PinPad` class, whose handlers
 * update the fields in place as the component's state setters do.
 */
module LockScreen {
  import opened Wrappers
  import opened Decimal

  const CorrectPin: string := "1022"
  const MaxAttempts: nat := 3
  const LockoutDuration: nat := 5 * 60 * 1000
  const PinLength: nat := 4

  /** What a keypad button sends: one of "0".."9". */
  type Digit = c: char | '0' <= c <= '9' witness '0'

  /**
   * The component state plus the host's flag. `lockoutUntil` is the deadline in
   * milliseconds, or None for `null`; `timeLeft` is the countdown in seconds.
   */
  datatype LockState = LockState(
    pin: string,
    attempts: nat,
    lockoutUntil: Option<nat>,
    timeLeft: nat,
    isLocked: bool)

  /** A freshly mounted lock screen in a freshly locked application. */
  const Initial: LockState := LockState("", 0, None, 0, true)

  /**
   * The invariant the handlers keep: a partial PIN of at most three digits, at
   * most three attempts, a lockout exactly when all three are spent (with an
   * empty PIN and a truthy deadline), and an unlocked application only with a
   * clean lock state.
   */
  ghost predicate Inv(s: LockState)
  {
    && |s.pin| < PinLength
    && AllDigits(s.pin)
    && s.attempts <= MaxAttempts
    && (s.lockoutUntil.Some? <==> s.attempts == MaxAttempts)
    && (s.lockoutUntil.Some? ==> s.pin == "" && s.lockoutUntil.value > 0)
    && (!s.isLocked ==> s.pin == "" && s.attempts == 0 && s.lockoutUntil.None?)
  }

  /** The keypad takes input only while it is on screen and not locked out. */
  predicate AcceptsInput(s: LockState)
  {
    s.isLocked && s.lockoutUntil.None?
  }

  /** `validatePin`: the PIN is cleared either way; success unlocks, failure counts. */
  function Validate(s: LockState, input: string, now: nat): (r: LockState)
    ensures r.pin == ""
    ensures r.timeLeft == s.timeLeft
    ensures input == CorrectPin ==> r.attempts == 0 && !r.isLocked && r.lockoutUntil == s.lockoutUntil
    ensures input != CorrectPin ==> r.attempts == s.attempts + 1 && r.isLocked == s.isLocked
    ensures input != CorrectPin && r.attempts >= MaxAttempts ==> r.lockoutUntil == Some(now + LockoutDuration)
    ensures input != CorrectPin && r.attempts < MaxAttempts ==> r.lockoutUntil == s.lockoutUntil
  {
    if input == CorrectPin then
      s.(pin := "", attempts := 0, isLocked := false)
    else
      var newAttempts := s.attempts + 1;
      var r := s.(pin := "", attempts := newAttempts);
      if newAttempts >= MaxAttempts then r.(lockoutUntil := Some(now + LockoutDuration)) else r
  }

  /** `handlePress`: append a digit while the PIN is short; the fourth digit submits it. */
  function Press(s: LockState, d: Digit, now: nat): (r: LockState)
    ensures !AcceptsInput(s) ==> r == s
    ensures AcceptsInput(s) && |s.pin| + 1 < PinLength ==> r == s.(pin := s.pin + [d])
    ensures AcceptsInput(s) && |s.pin| + 1 == PinLength ==> r == Validate(s, s.pin + [d], now)
  {
    if !s.isLocked || s.lockoutUntil.Some? then s
    else if |s.pin| < PinLength then
      var newPin := s.pin + [d];
      var typed := s.(pin := newPin);
      if |newPin| == PinLength then Validate(typed, newPin, now) else typed
    else s
  }

  /** `handleBackspace`: `pin.slice(0, -1)`. */
  function Backspace(s: LockState): (r: LockState)
    ensures s.pin == "" ==> r == s
    ensures s.pin != "" ==> r.pin + [s.pin[|s.pin| - 1]] == s.pin
    ensures r.(pin := s.pin) == s
  {
    if s.pin == "" then s else s.(pin := s.pin[..|s.pin| - 1])
  }

  /** `Math.ceil(ms / 1000)`, exact on integer milliseconds. */
  function CeilSeconds(ms: int): (r: int)
    ensures (r - 1) * 1000 < ms <= r * 1000
  {
    -((-ms) / 1000)
  }

  /** The interval body: count down while the deadline is ahead, clear the lockout once it has passed. */
  function Tick(s: LockState, now: nat): (r: LockState)
    ensures s.lockoutUntil.None? ==> r == s
    ensures r.pin == s.pin && r.isLocked == s.isLocked
  {
    match s.lockoutUntil
    case None => s
    case Some(until) =>
      var remaining := CeilSeconds(until - now);
      if remaining <= 0 then s.(lockoutUntil := None, attempts := 0)
      else s.(timeLeft := remaining)
  }

  /** The inactivity timeout: an unlocked application locks again, which mounts a fresh lock screen. */
  function Relock(s: LockState): (r: LockState)
    ensures r.isLocked
    ensures s.isLocked ==> r == s
    ensures !s.isLocked ==> r == Initial
  {
    if s.isLocked then s else Initial
  }

  /** Everything that can happen to the lock, in the order it happens. */
  datatype Event = KeyPress(digit: Digit, at: nat) | Erase | TimerTick(at: nat) | Inactivity

  function Step(s: LockState, e: Event): LockState
  {
    match e
    case KeyPress(d, now) => Press(s, d, now)
    case Erase => Backspace(s)
    case TimerTick(now) => Tick(s, now)
    case Inactivity => Relock(s)
  }

  function Run(s: LockState, es: seq<Event>): LockState
    decreases |es|
  {
    if es == [] then s else Run(Step(s, es[0]), es[1..])
  }

  /** The four key presses that enter `pin`, all at time `now`. */
  function Typed(pin: seq<Digit>, now: nat): (es: seq<Event>)
    ensures |es| == |pin|
    ensures forall i :: 0 <= i < |pin| ==> es[i] == KeyPress(pin[i], now)
  {
    if pin == [] then [] else [KeyPress(pin[0], now)] + Typed(pin[1..], now)
  }

  // ---------------------------------------------------------------------------
  // The invariant
  // ---------------------------------------------------------------------------

  lemma InitialState()
    ensures Inv(Initial)
    ensures Initial.pin == "" && Initial.attempts == 0 && Initial.lockoutUntil.None? && Initial.isLocked
  {
  }

  lemma PressKeepsInv(s: LockState, d: Digit, now: nat)
    requires Inv(s)
    ensures Inv(Press(s, d, now))
  {
    if AcceptsInput(s) {
      assert AllDigits(s.pin + [d]) by {
        assert forall i :: 0 <= i < |s.pin| ==> (s.pin + [d])[i] == s.pin[i];
      }
    }
  }

  lemma BackspaceKeepsInv(s: LockState)
    requires Inv(s)
    ensures Inv(Backspace(s))
  {
    if s.pin != "" {
      assert forall i :: 0 <= i < |s.pin| - 1 ==> s.pin[..|s.pin| - 1][i] == s.pin[i];
    }
  }

  lemma TickKeepsInv(s: LockState, now: nat)
    requires Inv(s)
    ensures Inv(Tick(s, now))
  {
  }

  lemma RelockKeepsInv(s: LockState)
    requires Inv(s)
    ensures Inv(Relock(s))
  {
  }

  lemma StepKeepsInv(s: LockState, e: Event)
    requires Inv(s)
    ensures Inv(Step(s, e))
  {
    match e
    case KeyPress(d, now) => PressKeepsInv(s, d, now);
    case Erase => BackspaceKeepsInv(s);
    case TimerTick(now) => TickKeepsInv(s, now);
    case Inactivity => RelockKeepsInv(s);
  }

  /** Every sequence of events from a valid state ends in a valid state. */
  lemma {:induction false} RunKeepsInv(s: LockState, es: seq<Event>)
    requires Inv(s)
    ensures Inv(Run(s, es))
    decreases |es|
  {
    if es != [] {
      StepKeepsInv(s, es[0]);
      RunKeepsInv(Step(s, es[0]), es[1..]);
    }
  }

  // ---------------------------------------------------------------------------
  // Key presses
  // ---------------------------------------------------------------------------

  /** During a lockout, and while the application is unlocked, a key press changes nothing. */
  lemma PressIgnoredWhenLockedOut(s: LockState, d: Digit, now: nat)
    requires s.lockoutUntil.Some? || !s.isLocked
    ensures Press(s, d, now) == s
  {
  }

  /** Below four digits a press appends; the fourth digit validates once, and the PIN is empty after. */
  lemma PressAppendsOrSubmits(s: LockState, d: Digit, now: nat)
    requires Inv(s) && AcceptsInput(s)
    ensures |s.pin| < PinLength - 1 ==> Press(s, d, now) == s.(pin := s.pin + [d])
    ensures |s.pin| == PinLength - 1 ==> Press(s, d, now) == Validate(s, s.pin + [d], now)
    ensures |s.pin| == PinLength - 1 ==> Press(s, d, now).pin == ""
    ensures |Press(s, d, now).pin| <= PinLength - 1
  {
  }

  lemma {:induction false} RunTyped(s: LockState, pin: seq<Digit>, now: nat, k: nat)
    requires Inv(s) && AcceptsInput(s) && s.pin == "" && |pin| == PinLength
    requires k <= PinLength - 1
    ensures Run(s, Typed(pin, now)[..k]) == s.(pin := pin[..k])
  {
    if k > 0 {
      RunTyped(s, pin, now, k - 1);
      var es := Typed(pin, now);
      RunSnoc(s, es[..k - 1], es[k - 1]);
      assert es[..k] == es[..k - 1] + [es[k - 1]];
      var t := s.(pin := pin[..k - 1]);
      assert Step(t, es[k - 1]) == Press(t, pin[k - 1], now);
      assert t.pin + [pin[k - 1]] == pin[..k];
    }
  }

  lemma {:induction false} RunSnoc(s: LockState, es: seq<Event>, e: Event)
    ensures Run(s, es + [e]) == Step(Run(s, es), e)
    decreases |es|
  {
    if es != [] {
      assert (es + [e])[1..] == es[1..] + [e];
      RunSnoc(Step(s, es[0]), es[1..], e);
    }
  }

  /** Typing four digits on an empty keypad runs exactly one validation of those digits. */
  lemma TypingFourDigits(s: LockState, pin: seq<Digit>, now: nat)
    requires Inv(s) && AcceptsInput(s) && s.pin == "" && |pin| == PinLength
    ensures Run(s, Typed(pin, now)) == Validate(s, pin, now)
  {
    var es := Typed(pin, now);
    RunTyped(s, pin, now, 3);
    RunSnoc(s, es[..3], es[3]);
    assert es == es[..3] + [es[3]];
    assert pin[..3] + [pin[3]] == pin;
  }

  /** "1022" unlocks and resets the attempt counter. */
  lemma CorrectPinUnlocks(s: LockState, now: nat)
    requires Inv(s) && AcceptsInput(s) && s.pin == ""
    ensures var r := Run(s, Typed(['1', '0', '2', '2'], now));
      !r.isLocked && r.attempts == 0 && r.pin == "" && r.lockoutUntil.None?
  {
    TypingFourDigits(s, ['1', '0', '2', '2'], now);
  }

  /** Any other four digits count one failed attempt; the third failure locks out for five minutes. */
  lemma WrongPinCounts(s: LockState, pin: seq<Digit>, now: nat)
    requires Inv(s) && AcceptsInput(s) && s.pin == "" && |pin| == PinLength && pin != CorrectPin
    ensures var r := Run(s, Typed(pin, now));
      && r.isLocked && r.pin == "" && r.attempts == s.attempts + 1
      && (r.lockoutUntil.Some? <==> s.attempts + 1 == MaxAttempts)
      && (r.lockoutUntil.Some? ==> r.lockoutUntil.value == now + LockoutDuration)
  {
    TypingFourDigits(s, pin, now);
  }

  /** From a fresh lock screen, three wrong PINs lock the keypad until five minutes after the third. */
  lemma ThreeWrongPinsLockOut(p1: seq<Digit>, p2: seq<Digit>, p3: seq<Digit>, t1: nat, t2: nat, t3: nat)
    requires |p1| == PinLength && |p2| == PinLength && |p3| == PinLength
    requires p1 != CorrectPin && p2 != CorrectPin && p3 != CorrectPin
    ensures var r := Run(Run(Run(Initial, Typed(p1, t1)), Typed(p2, t2)), Typed(p3, t3));
      r.attempts == MaxAttempts && r.lockoutUntil == Some(t3 + LockoutDuration) && !AcceptsInput(r)
  {
    var s1 := Run(Initial, Typed(p1, t1));
    WrongPinCounts(Initial, p1, t1);
    var s2 := Run(s1, Typed(p2, t2));
    WrongPinCounts(s1, p2, t2);
    WrongPinCounts(s2, p3, t3);
  }

  lemma BackspaceDropsLast(s: LockState)
    ensures s.pin == "" ==> Backspace(s) == s
    ensures s.pin != "" ==> Backspace(s).pin == s.pin[..|s.pin| - 1]
  {
  }

  /** The code does not guard backspace during a lockout, but the PIN is empty then, so it does nothing. */
  lemma BackspaceIdleWhenLockedOut(s: LockState)
    requires Inv(s) && s.lockoutUntil.Some?
    ensures Backspace(s) == s
  {
  }

  /** Relocking twice is relocking once, and an unlocked application comes back to a fresh lock screen. */
  lemma RelockIdempotent(s: LockState)
    ensures Relock(Relock(s)) == Relock(s)
    ensures !s.isLocked ==> Relock(s) == Initial && Inv(Relock(s))
  {
  }

  // ---------------------------------------------------------------------------
  // The countdown
  // ---------------------------------------------------------------------------

  /** Before the deadline a tick only sets `timeLeft`, to the whole seconds left, at least 1. */
  lemma TickBeforeDeadline(s: LockState, now: nat)
    requires s.lockoutUntil.Some? && now < s.lockoutUntil.value
    ensures Tick(s, now) == s.(timeLeft := Tick(s, now).timeLeft)
    ensures var t := Tick(s, now).timeLeft;
      t >= 1 && (t - 1) * 1000 < s.lockoutUntil.value - now <= t * 1000
    ensures now + LockoutDuration >= s.lockoutUntil.value ==> Tick(s, now).timeLeft <= LockoutDuration / 1000
  {
  }

  /** At or after the deadline a tick clears the lockout and the attempt counter. */
  lemma TickAfterDeadline(s: LockState, now: nat)
    requires s.lockoutUntil.Some? && now >= s.lockoutUntil.value
    ensures Tick(s, now) == s.(lockoutUntil := None, attempts := 0)
  {
  }

  /** Once a tick has cleared an expired lockout, the keypad takes input again. */
  lemma LockoutExpires(s: LockState, now: nat)
    requires Inv(s) && s.isLocked && s.lockoutUntil.Some? && now >= s.lockoutUntil.value
    ensures AcceptsInput(Tick(s, now)) && Tick(s, now).attempts == 0
  {
    TickAfterDeadline(s, now);
  }

  /** `${Math.floor(t / 60)}:${(t % 60).toString().padStart(2, '0')}` */
  function CountdownText(t: nat): (txt: string)
    ensures |txt| >= 4 && txt[|txt| - 3] == ':'
    ensures txt[..|txt| - 3] == Digits(t / 60) && txt[|txt| - 2..] == Pad2(t % 60)
  {
    var txt := Digits(t / 60) + ":" + Pad2(t % 60);
    assert txt[..|txt| - 3] == Digits(t / 60);
    assert txt[|txt| - 2..] == Pad2(t % 60);
    txt
  }

  /** Reads "m:ss" back into seconds; the inverse of `CountdownText`. */
  function ReadCountdown(txt: string): (r: Option<nat>)
    ensures r.Some? ==> |txt| >= 4 && txt[|txt| - 3] == ':'
  {
    if |txt| >= 4 && txt[|txt| - 3] == ':' && AllDigits(txt[..|txt| - 3]) && AllDigits(txt[|txt| - 2..])
    then Some(Value(txt[..|txt| - 3]) * 60 + Value(txt[|txt| - 2..]))
    else None
  }

  lemma CountdownRoundTrip(t: nat)
    ensures ReadCountdown(CountdownText(t)) == Some(t)
  {
    ValueOfDigits(t / 60);
  }

  /** Distinct countdowns show distinct text. */
  lemma CountdownTextInjective(t: nat, u: nat)
    requires CountdownText(t) == CountdownText(u)
    ensures t == u
  {
    CountdownRoundTrip(t);
    CountdownRoundTrip(u);
  }

  lemma CountdownExamples()
    ensures CountdownText(300) == "5:00"
    ensures CountdownText(65) == "1:05"
  {
    assert Digits(5) == "5" && Pad2(0) == "00";
    assert Digits(1) == "1" && Pad2(5) == "05";
  }

  /** The subtitle: the countdown while locked out, the product name otherwise. */
  function StatusText(s: LockState): (txt: string)
    ensures s.lockoutUntil.None? ==> txt == "Secure Financial Tracker"
    ensures s.lockoutUntil.Some? ==> txt == "Too many attempts. Try again in " + CountdownText(s.timeLeft)
  {
    if s.lockoutUntil.Some? then "Too many attempts. Try again in " + CountdownText(s.timeLeft)
    else "Secure Financial Tracker"
  }

  /** "Incorrect PIN (n/3)" shows only between a failed attempt and the lockout. */
  predicate ShowsAttemptError(s: LockState)
  {
    s.lockoutUntil.None? && s.attempts > 0
  }

  lemma AttemptErrorBelowLimit(s: LockState)
    requires Inv(s) && ShowsAttemptError(s)
    ensures 1 <= s.attempts < MaxAttempts
  {
  }

  // ---------------------------------------------------------------------------
  // The component, its fields updated in place
  // ---------------------------------------------------------------------------

  class PinPad {
    var pin: string
    var attempts: nat
    var lockoutUntil: Option<nat>
    var timeLeft: nat
    var isLocked: bool

    function State(): LockState
      reads this
    {
      LockState(pin, attempts, lockoutUntil, timeLeft, isLocked)
    }

    ghost predicate Valid()
      reads this
    {
      Inv(State())
    }

    constructor ()
      ensures State() == Initial && Valid()
    {
      pin, attempts, lockoutUntil, timeLeft, isLocked := "", 0, None, 0, true;
    }

    method ValidatePin(input: string, now: nat)
      modifies this
      ensures State() == Validate(old(State()), input, now)
    {
      if input == CorrectPin {
        pin := "";
        attempts := 0;
        isLocked := false;
      } else {
        pin := "";
        var newAttempts := attempts + 1;
        attempts := newAttempts;
        if newAttempts >= MaxAttempts {
          lockoutUntil := Some(now + LockoutDuration);
        }
      }
    }

    method HandlePress(d: Digit, now: nat)
      requires Valid()
      modifies this
      ensures State() == Press(old(State()), d, now)
      ensures Valid()
    {
      ghost var was := State();
      PressKeepsInv(was, d, now);
      if !isLocked || lockoutUntil.Some? {
        return;
      }
      if |pin| < PinLength {
        var newPin := pin + [d];
        pin := newPin;
        if |newPin| == PinLength {
          ValidatePin(newPin, now);
        }
      }
    }

    method HandleBackspace()
      requires Valid()
      modifies this
      ensures State() == Backspace(old(State()))
      ensures Valid()
    {
      BackspaceKeepsInv(State());
      if pin != "" {
        pin := pin[..|pin| - 1];
      }
    }

    method OnTick(now: nat)
      requires Valid()
      modifies this
      ensures State() == Tick(old(State()), now)
      ensures Valid()
    {
      TickKeepsInv(State(), now);
      if lockoutUntil.Some? {
        var remaining := CeilSeconds(lockoutUntil.value - now);
        if remaining <= 0 {
          lockoutUntil := None;
          attempts := 0;
        } else {
          timeLeft := remaining;
        }
      }
    }

    method OnInactivity()
      requires Valid()
      modifies this
      ensures State() == Relock(old(State()))
      ensures Valid()
    {
      RelockKeepsInv(State());
      if !isLocked {
        pin, attempts, lockoutUntil, timeLeft, isLocked := "", 0, None, 0, true;
      }
    }
  }
}
