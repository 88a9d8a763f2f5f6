/**
 The lockout of a code: it should stop accepting guesses after maxAttempts wrong ones. It does exactly
 as long as the verify limiter of the phone lets those guesses through to the attempt counter.
 */
module OtpLockout {
  import opened Wrappers
  import opened FixedWindow
  import opened OtpModel
  import opened OtpChecking
  import opened OtpSending

  /* ---------- guessing at one moment ---------- */

  /** A stored code that still takes guesses. */
  predicate Open(cfg: Config, s: State, p: Phone) {
    HasRecord(s, p) && s.records[p].attempts < cfg.maxAttempts && s.records[p].hash.0 == p
  }

  /** The attempts left to the code. */
  function Left(cfg: Config, s: State, p: Phone): nat
    requires Open(cfg, s, p)
  {
    cfg.maxAttempts - s.records[p].attempts
  }

  /** The verify counter of the phone, 0 when it has expired. */
  function CountNow(s: State, p: Phone): nat {
    var c := CounterOf(s, VerifyAttempts(p));
    if Alive(c, s.now) then c.value.count else 0
  }

  predicate AllWrong(s: State, p: Phone, codes: seq<string>)
    requires p in s.records
  {
    forall i | 0 <= i < |codes| :: s.records[p].hash != (p, codes[i])
  }

  /** The codes are tried one after the other. */
  function Guess(cfg: Config, s: State, p: Phone, codes: seq<string>): State {
    if codes == [] then s
    else Verify(cfg, Guess(cfg, s, p, codes[..|codes| - 1]), p, codes[|codes| - 1]).0
  }

  function Min(a: int, b: int): int {
    if a < b then a else b
  }

  /** How many of n wrong guesses cost an attempt. */
  function Spent(cfg: Config, s: State, p: Phone, n: nat): nat
    requires Open(cfg, s, p)
  {
    var all := Min(n, Left(cfg, s, p));
    if !CountsVerifies(cfg) then all
    else if cfg.verifyLimit <= CountNow(s, p) then 0
    else Min(all, cfg.verifyLimit - CountNow(s, p))
  }

  /** The verify counter after n wrong guesses. */
  function Counted(cfg: Config, s: State, p: Phone, n: nat): Counter {
    var c := CounterOf(s, VerifyAttempts(p));
    Counter(CountNow(s, p) + n, if Alive(c, s.now) then c.value.expires else s.now + cfg.verifyWindow)
  }

  /** The state after n wrong guesses. */
  ghost predicate Guessed(cfg: Config, s: State, s': State, p: Phone, n: nat)
    requires Open(cfg, s, p)
  {
    && s'.now == s.now && s'.cooldowns == s.cooldowns
    && CounterOf(s', SendCount(p)) == CounterOf(s, SendCount(p))
    && p in s'.records
    && s'.records[p] == s.records[p].(attempts := s.records[p].attempts + Spent(cfg, s, p, n))
    && (n == 0 ==> CounterOf(s', VerifyAttempts(p)) == CounterOf(s, VerifyAttempts(p)))
    && (CountsVerifies(cfg) && n > 0 && (n <= Left(cfg, s, p) || Spent(cfg, s, p, n) < Left(cfg, s, p)) ==>
          CounterOf(s', VerifyAttempts(p)) == Some(Counted(cfg, s, p, n)))
  }

  lemma OneMoreGuess(cfg: Config, s: State, s': State, p: Phone, n: nat, code: string)
    requires Open(cfg, s, p) && Guessed(cfg, s, s', p, n) && s.records[p].hash != (p, code)
    ensures Guessed(cfg, s, Verify(cfg, s', p, code).0, p, n + 1)
  {
    VerifyFrame(cfg, s', p, code);
  }

  /** What n wrong guesses do, whatever they are. */
  lemma {:induction false} GuessEffect(cfg: Config, s: State, p: Phone, codes: seq<string>)
    requires Open(cfg, s, p) && AllWrong(s, p, codes)
    ensures Guessed(cfg, s, Guess(cfg, s, p, codes), p, |codes|)
  {
    if codes != [] {
      var n := |codes| - 1;
      GuessEffect(cfg, s, p, codes[..n]);
      OneMoreGuess(cfg, s, Guess(cfg, s, p, codes[..n]), p, n, codes[n]);
    }
  }

  /** Once a code has taken as many wrong guesses as it has attempts left, no code is accepted any more,
      exactly if the verify counter and these attempts together stay within the verify limit. */
  lemma LockedOutIff(cfg: Config, s: State, p: Phone, codes: seq<string>)
    requires Open(cfg, s, p) && AllWrong(s, p, codes) && |codes| >= Left(cfg, s, p)
    ensures (forall code :: !Check(cfg, Guess(cfg, s, p, codes), p, code).1.Verified?)
       <==> !CountsVerifies(cfg) || CountNow(s, p) + Left(cfg, s, p) <= cfg.verifyLimit
  {
    GuessEffect(cfg, s, p, codes);
    if CountsVerifies(cfg) && CountNow(s, p) + Left(cfg, s, p) > cfg.verifyLimit {
      UnboundedGuessing(cfg, s, p, codes, s.records[p].hash.1);
    }
  }

  /** Otherwise the right code is still accepted after any number of wrong guesses. */
  lemma UnboundedGuessing(cfg: Config, s: State, p: Phone, codes: seq<string>, code: string)
    requires Open(cfg, s, p) && AllWrong(s, p, codes) && s.records[p].hash == (p, code)
    requires CountsVerifies(cfg) && CountNow(s, p) + Left(cfg, s, p) > cfg.verifyLimit
    ensures Check(cfg, Guess(cfg, s, p, codes), p, code).1 == Verified(s.records[p].requestId)
  {
    GuessEffect(cfg, s, p, codes);
  }

  /* ---------- a run that guesses without bound ---------- */

  /** The defaults of the service. */
  const DEFAULTS := Config(120, 30, 5, 10, 30, 3600, 10, 900)

  function Repeat(code: string, n: nat): (codes: seq<string>)
    ensures |codes| == n && forall i | 0 <= i < n :: codes[i] == code
  {
    seq(n, i => code)
  }

  lemma RunThen(cfg: Config, es: seq<Event>, e: Event)
    ensures Run(cfg, es + [e]) == Step(cfg, Run(cfg, es), e)
  {
    assert (es + [e])[..|es|] == es;
  }

  lemma GuessAgain(cfg: Config, s: State, p: Phone, wrong: string, n: nat)
    requires n > 0
    ensures Guess(cfg, s, p, Repeat(wrong, n)) == Step(cfg, Guess(cfg, s, p, Repeat(wrong, n - 1)), VerifyOtp(p, wrong))
  {
    assert Repeat(wrong, n)[..n - 1] == Repeat(wrong, n - 1);
  }

  lemma BurstAgain(es: seq<Event>, e: Event, n: nat)
    requires n > 0
    ensures es + Burst(e, n) == es + Burst(e, n - 1) + [e]
  {
  }

  lemma {:induction false} RunGuesses(cfg: Config, es: seq<Event>, p: Phone, wrong: string, n: nat)
    ensures Run(cfg, es + Burst(VerifyOtp(p, wrong), n)) == Guess(cfg, Run(cfg, es), p, Repeat(wrong, n))
  {
    var e := VerifyOtp(p, wrong);
    if n == 0 {
      assert es + Burst(e, 0) == es;
    } else {
      RunGuesses(cfg, es, p, wrong, n - 1);
      BurstAgain(es, e, n);
      RunThen(cfg, es + Burst(e, n - 1), e);
      GuessAgain(cfg, Run(cfg, es), p, wrong, n);
    }
  }

  /** Before the save of round i: i codes were sent and 5 * i guesses counted. */
  ghost predicate Ready(s: State, p: Phone, i: nat) {
    && s.now == 30 * i && !Cooling(DEFAULTS, s, p)
    && CounterOf(s, SendCount(p)) == (if i == 0 then None else Some(Counter(i, 3600)))
    && CounterOf(s, VerifyAttempts(p)) == (if i == 0 then None else Some(Counter(5 * i, 900)))
  }

  /** After the save of round i. */
  ghost predicate Sent(s: State, p: Phone, code: string, i: nat) {
    && s.now == 30 * i
    && p in s.records && s.records[p] == Record((p, code), 0, "", 30 * i + 120)
    && p in s.cooldowns && s.cooldowns[p] == 30 * i + 30
    && CounterOf(s, SendCount(p)) == Some(Counter(i + 1, 3600))
    && CounterOf(s, VerifyAttempts(p)) == (if i == 0 then None else Some(Counter(5 * i, 900)))
  }

  lemma SaveRound(s: State, p: Phone, code: string, i: nat)
    requires Ready(s, p, i) && i <= 2
    ensures Sent(Save(DEFAULTS, s, p, code, "", "").0, p, code, i)
  {
  }

  lemma GuessRound(s: State, p: Phone, code: string, wrong: string, i: nat)
    requires Sent(s, p, code, i) && i <= 1 && wrong != code
    ensures Ready(Step(DEFAULTS, Guess(DEFAULTS, s, p, Repeat(wrong, 5)), Tick(30)), p, i + 1)
  {
    GuessEffect(DEFAULTS, s, p, Repeat(wrong, 5));
  }

  /** A code, n guesses, half a minute. */
  function Round(p: Phone, code: string, wrong: string, n: nat): seq<Event> {
    [SaveOtp(p, code, "", "")] + Burst(VerifyOtp(p, wrong), n) + [Tick(30)]
  }

  lemma RunRound(cfg: Config, es: seq<Event>, p: Phone, code: string, wrong: string, n: nat)
    ensures Run(cfg, es + Round(p, code, wrong, n)) ==
              Step(cfg, Guess(cfg, Save(cfg, Run(cfg, es), p, code, "", "").0, p, Repeat(wrong, n)), Tick(30))
  {
    var save, guesses := SaveOtp(p, code, "", ""), Burst(VerifyOtp(p, wrong), n);
    RunThen(cfg, es, save);
    RunGuesses(cfg, es + [save], p, wrong, n);
    RunThen(cfg, es + [save] + guesses, Tick(30));
    assert es + Round(p, code, wrong, n) == es + [save] + guesses + [Tick(30)];
  }

  lemma RoundEffect(es: seq<Event>, p: Phone, code: string, wrong: string, i: nat)
    requires Ready(Run(DEFAULTS, es), p, i) && i <= 1 && wrong != code
    ensures Ready(Run(DEFAULTS, es + Round(p, code, wrong, 5)), p, i + 1)
  {
    var s := Run(DEFAULTS, es);
    RunRound(DEFAULTS, es, p, code, wrong, 5);
    SaveRound(s, p, code, i);
    GuessRound(Save(DEFAULTS, s, p, code, "", "").0, p, code, wrong, i);
  }

  lemma ThirdCode(s: State, p: Phone, code: string, wrong: string, n: nat)
    requires Sent(s, p, code, 2) && wrong != code
    ensures Check(DEFAULTS, Guess(DEFAULTS, s, p, Repeat(wrong, n)), p, code).1 == Verified("")
  {
    UnboundedGuessing(DEFAULTS, s, p, Repeat(wrong, n), code);
  }

  /** With the default settings, from the empty store: after two codes of five wrong guesses each, the
      third code takes any number n of wrong guesses and then accepts the right one. */
  lemma DefaultsGuessWithoutBound(p: Phone, code: string, wrong: string, n: nat)
    requires wrong != code
    ensures
      var round, save := Round(p, code, wrong, 5), SaveOtp(p, code, "", "");
      var before := round + round + [save] + Burst(VerifyOtp(p, wrong), n);
      Check(DEFAULTS, Run(DEFAULTS, before), p, code).1 == Verified("")
  {
    var round, save := Round(p, code, wrong, 5), SaveOtp(p, code, "", "");
    assert [] + round == round;
    RoundEffect([], p, code, wrong, 0);
    RoundEffect(round, p, code, wrong, 1);
    RunThen(DEFAULTS, round + round, save);
    SaveRound(Run(DEFAULTS, round + round), p, code, 2);
    RunGuesses(DEFAULTS, round + round + [save], p, wrong, n);
    ThirdCode(Run(DEFAULTS, round + round + [save]), p, code, wrong, n);
  }

  /* ---------- all wrong guesses of a run ---------- */

  /** Answers that cost an attempt: ErrOTPInvalid, and ErrOTPMaxAttempts the first time. */
  predicate CostsAttempt(log: seq<Entry>, e: Entry, p: Phone) {
    IsAnswer(e, p, Invalid) || (IsAnswer(e, p, MaxAttempts) && !Exhausted(log, p))
  }

  /** Wrong guesses since the last save of p, however they were answered. */
  function WrongGuesses(log: seq<Entry>, p: Phone): nat {
    if log == [] || IsSave(log[|log| - 1], p) then 0
    else
      var before, e := log[..|log| - 1], log[|log| - 1];
      WrongGuesses(before, p) + if CostsAttempt(before, e, p) || IsAnswer(e, p, VerifyRateLimited) then 1 else 0
  }

  /** Those of them that the verify limiter turned away. */
  function TurnedAway(log: seq<Entry>, p: Phone): nat {
    if log == [] || IsSave(log[|log| - 1], p) then 0
    else TurnedAway(log[..|log| - 1], p) + if IsAnswer(log[|log| - 1], p, VerifyRateLimited) then 1 else 0
  }

  lemma GuessAppended(log: seq<Entry>, e: Entry, p: Phone)
    ensures WrongGuesses(log + [e], p) == if IsSave(e, p) then 0
              else WrongGuesses(log, p) + if CostsAttempt(log, e, p) || IsAnswer(e, p, VerifyRateLimited) then 1 else 0
    ensures TurnedAway(log + [e], p) == if IsSave(e, p) then 0
              else TurnedAway(log, p) + if IsAnswer(e, p, VerifyRateLimited) then 1 else 0
  {
    assert (log + [e])[..|log|] == log;
  }

  /** Every wrong guess is on the attempt counter or was turned away. */
  ghost predicate AllCounted(cfg: Config, s: State, p: Phone) {
    && (p in s.records ==>
          && WrongGuesses(s.log, p) == s.records[p].attempts + TurnedAway(s.log, p)
          && s.records[p].attempts <= cfg.maxAttempts
          && (Exhausted(s.log, p) <==> s.records[p].attempts == cfg.maxAttempts))
    && WrongGuesses(s.log, p) <= cfg.maxAttempts + TurnedAway(s.log, p)
    && (!CountsVerifies(cfg) ==> TurnedAway(s.log, p) == 0)
  }

  lemma SaveAllCounted(cfg: Config, s: State, phone: Phone, code: string, requestId: string, ip: string, p: Phone)
    requires cfg.maxAttempts >= 1 && AllCounted(cfg, s, p)
    ensures AllCounted(cfg, Save(cfg, s, phone, code, requestId, ip).0, p)
  {
    SaveFrame(cfg, s, phone, code, requestId, ip);
    Appended(s.log, Saved(phone, ip, code, requestId, s.now), p);
    GuessAppended(s.log, Saved(phone, ip, code, requestId, s.now), p);
  }

  lemma VerifyAllCounted(cfg: Config, s: State, phone: Phone, code: string, p: Phone)
    requires cfg.maxAttempts >= 1 && AllCounted(cfg, s, p)
    ensures AllCounted(cfg, Verify(cfg, s, phone, code).0, p)
  {
    VerifyFrame(cfg, s, phone, code);
    var e := Answered(phone, code, Check(cfg, s, phone, code).1, s.now);
    Appended(s.log, e, p);
    GuessAppended(s.log, e, p);
  }

  lemma {:induction false} RunAllCounted(cfg: Config, es: seq<Event>, p: Phone)
    requires cfg.maxAttempts >= 1
    ensures AllCounted(cfg, Run(cfg, es), p)
  {
    if es != [] {
      var s := Run(cfg, es[..|es| - 1]);
      RunAllCounted(cfg, es[..|es| - 1], p);
      match es[|es| - 1]
      case SaveOtp(phone, code, requestId, ip) => SaveAllCounted(cfg, s, phone, code, requestId, ip, p);
      case VerifyOtp(phone, code) => VerifyAllCounted(cfg, s, phone, code, p);
      case Tick(_) =>
    }
  }

  /** What is counted: a code other than the stored one, tried while the code takes guesses. */
  lemma WrongGuessesAreCounted(cfg: Config, es: seq<Event>, p: Phone, code: string)
    requires cfg.maxAttempts >= 1
    ensures
      var s := Run(cfg, es);
      WrongGuesses(Verify(cfg, s, p, code).0.log, p) ==
        WrongGuesses(s.log, p)
        + if HasRecord(s, p) && s.records[p].attempts < cfg.maxAttempts && s.records[p].hash != (p, code) then 1 else 0
  {
    var s := Run(cfg, es);
    RunAllCounted(cfg, es, p);
    VerifyFrame(cfg, s, p, code);
    GuessAppended(s.log, Answered(p, code, Check(cfg, s, p, code).1, s.now), p);
  }

  lemma {:induction false} SuccessFollowsFewGuesses(cfg: Config, es: seq<Event>, p: Phone, j: nat)
    requires cfg.maxAttempts >= 1 && j < |Run(cfg, es).log| && IsSuccess(Run(cfg, es).log[j], p)
    ensures
      var before := Run(cfg, es).log[..j];
      WrongGuesses(before, p) < cfg.maxAttempts + TurnedAway(before, p)
      && (!CountsVerifies(cfg) ==> TurnedAway(before, p) == 0)
  {
    if es != [] {
      var s, e := Run(cfg, es[..|es| - 1]), es[|es| - 1];
      StepAppends(cfg, s, e);
      if j < |s.log| {
        SuccessFollowsFewGuesses(cfg, es[..|es| - 1], p, j);
        assert Run(cfg, es).log[..j] == s.log[..j];
      } else {
        assert Run(cfg, es).log[..j] == s.log;
        RunAllCounted(cfg, es[..|es| - 1], p);
      }
    }
  }

  lemma StepAppends(cfg: Config, s: State, e: Event)
    ensures Step(cfg, s, e).log == s.log || exists x :: Step(cfg, s, e).log == s.log + [x]
    ensures |Step(cfg, s, e).log| > |s.log| && Step(cfg, s, e).log[|s.log|].Answered? ==>
              && e.VerifyOtp?
              && Step(cfg, s, e).log[|s.log|] == Answered(e.phone, e.code, Check(cfg, s, e.phone, e.code).1, s.now)
  {
    match e
    case SaveOtp(phone, code, requestId, ip) =>
      SaveFrame(cfg, s, phone, code, requestId, ip);
    case VerifyOtp(phone, code) =>
      VerifyFrame(cfg, s, phone, code);
    case Tick(_) =>
  }

  /** All wrong guesses since a save, however answered, are at most maxAttempts and those turned away.
      Without the verify limiter they are at most maxAttempts, and a code is only ever accepted after
      fewer: there the lockout holds in every run. */
  lemma WrongGuessesAreBounded(cfg: Config, es: seq<Event>, p: Phone, j: nat)
    requires cfg.maxAttempts >= 1
    ensures WrongGuesses(Run(cfg, es).log, p) <= cfg.maxAttempts + TurnedAway(Run(cfg, es).log, p)
    ensures !CountsVerifies(cfg) ==> WrongGuesses(Run(cfg, es).log, p) <= cfg.maxAttempts
    ensures !CountsVerifies(cfg) && j < |Run(cfg, es).log| && IsSuccess(Run(cfg, es).log[j], p) ==>
              WrongGuesses(Run(cfg, es).log[..j], p) < cfg.maxAttempts
  {
    RunAllCounted(cfg, es, p);
    if j < |Run(cfg, es).log| && IsSuccess(Run(cfg, es).log[j], p) {
      SuccessFollowsFewGuesses(cfg, es, p, j);
    }
  }
}
