/** What SaveOTP and Verify answer, told from the history of a run. */
module OtpVerifying {
  import opened Wrappers
  import opened FixedWindow
  import opened OtpModel
  import opened OtpChecking
  import opened OtpLockout

  /* ---------- Verify ---------- */

  /** The wrong guesses since the last save that were counted on its code. */
  function CountedGuesses(log: seq<Entry>, p: Phone): int {
    WrongGuesses(log, p) - TurnedAway(log, p)
  }

  /** The last save of p, if it is not yet redeemed and younger than the TTL. */
  function Current(cfg: Config, log: seq<Entry>, p: Phone, now: nat): Option<Entry> {
    match OpenSave(log, p)
    case None => None
    case Some(i) => if now < log[i].at + cfg.ttl then Some(log[i]) else None
  }

  lemma AnswerOfRecord(cfg: Config, s: State, p: Phone, code: string)
    requires cfg.maxAttempts >= 1 && Tracked(cfg, s, p) && AllCounted(cfg, s, p)
    ensures
      var save, answer := Current(cfg, s.log, p, s.now), Check(cfg, s, p, code).1;
      && (answer == Expired <==> save.None?)
      && (forall id :: answer == Verified(id) <==>
            save.Some? && save.value.code == code && save.value.requestId == id
            && CountedGuesses(s.log, p) < cfg.maxAttempts)
      && (answer == VerifyRateLimited <==>
            save.Some? && save.value.code != code && CountedGuesses(s.log, p) < cfg.maxAttempts
            && CountsVerifies(cfg) && CountNow(s, p) + 1 > cfg.verifyLimit)
      && (answer == Invalid <==>
            save.Some? && save.value.code != code && CountedGuesses(s.log, p) + 1 < cfg.maxAttempts
            && !(CountsVerifies(cfg) && CountNow(s, p) + 1 > cfg.verifyLimit))
  {
  }

  /** In every run Verify(p, code) is answered with success, and with the request id of the save, if and
      only if the last save of p is not redeemed, is younger than the TTL, was made with this code, and
      fewer than maxAttempts wrong guesses were counted on it. */
  lemma VerifiedIff(cfg: Config, es: seq<Event>, p: Phone, code: string, id: string)
    requires cfg.maxAttempts >= 1
    ensures
      var s, s' := Run(cfg, es), Run(cfg, es + [VerifyOtp(p, code)]);
      && |s'.log| == |s.log| + 1
      && (s'.log[|s.log|] == Answered(p, code, Verified(id), s.now) <==>
            && OpenSave(s.log, p).Some?
            && var save := s.log[OpenSave(s.log, p).value];
            && save.code == code && save.requestId == id
            && s.now < save.at + cfg.ttl
            && WrongGuesses(s.log, p) - TurnedAway(s.log, p) < cfg.maxAttempts)
  {
    RunTracked(cfg, es, p);
    RunAllCounted(cfg, es, p);
    OtpLockout.RunThen(cfg, es, VerifyOtp(p, code));
    AnswerOfRecord(cfg, Run(cfg, es), p, code);
    VerifyFrame(cfg, Run(cfg, es), p, code);
  }

  /** The other answers of the same run: expired without a current save; turned away or invalid for a
      wrong code, depending on the verify counter; and otherwise the maximum of attempts. */
  lemma RefusedAnswers(cfg: Config, es: seq<Event>, p: Phone, code: string)
    requires cfg.maxAttempts >= 1
    ensures
      var s := Run(cfg, es);
      var save := Current(cfg, s.log, p, s.now);
      var answer := Run(cfg, es + [VerifyOtp(p, code)]).log[|s.log|].answer;
      && (answer == Expired <==> save.None?)
      && (answer == VerifyRateLimited <==>
            save.Some? && save.value.code != code && CountedGuesses(s.log, p) < cfg.maxAttempts
            && cfg.verifyLimit > 0 && cfg.verifyWindow > 0 && CountNow(s, p) + 1 > cfg.verifyLimit)
      && (answer == Invalid <==>
            save.Some? && save.value.code != code && CountedGuesses(s.log, p) + 1 < cfg.maxAttempts
            && (cfg.verifyLimit <= 0 || cfg.verifyWindow == 0 || CountNow(s, p) + 1 <= cfg.verifyLimit))
  {
    RunTracked(cfg, es, p);
    RunAllCounted(cfg, es, p);
    OtpLockout.RunThen(cfg, es, VerifyOtp(p, code));
    AnswerOfRecord(cfg, Run(cfg, es), p, code);
    VerifyFrame(cfg, Run(cfg, es), p, code);
  }

  /** An ordinary login: a code that was just stored is accepted at once. */
  lemma FreshCodeIsAccepted(cfg: Config, es: seq<Event>, p: Phone, code: string, id: string, ip: string)
    requires cfg.maxAttempts >= 1 && cfg.ttl > 0
    requires Save(cfg, Run(cfg, es), p, code, id, ip).1 == SaveOk
    ensures
      var before := es + [SaveOtp(p, code, id, ip)];
      var s := Run(cfg, before);
      |Run(cfg, before + [VerifyOtp(p, code)]).log| == |s.log| + 1
      && Run(cfg, before + [VerifyOtp(p, code)]).log[|s.log|] == Answered(p, code, Verified(id), s.now)
  {
    var s0, before := Run(cfg, es), es + [SaveOtp(p, code, id, ip)];
    OtpLockout.RunThen(cfg, es, SaveOtp(p, code, id, ip));
    SaveFrame(cfg, s0, p, code, id, ip);
    Appended(s0.log, Saved(p, ip, code, id, s0.now), p);
    GuessAppended(s0.log, Saved(p, ip, code, id, s0.now), p);
    VerifiedIff(cfg, before, p, code, id);
  }

  /* ---------- SaveOTP ---------- */

  /** When p was last sent a code. */
  function LastSent(log: seq<Entry>, p: Phone): Option<nat> {
    if log == [] then None
    else if IsSave(log[|log| - 1], p) then Some(log[|log| - 1].at)
    else LastSent(log[..|log| - 1], p)
  }

  /** The cooldown key of p is that of its last code. */
  ghost predicate CooldownTracked(cfg: Config, s: State, p: Phone) {
    && (p in s.cooldowns <==> cfg.cooldown > 0 && LastSent(s.log, p).Some?)
    && (p in s.cooldowns ==> s.cooldowns[p] == LastSent(s.log, p).value + cfg.cooldown)
  }

  lemma LastSentAppended(log: seq<Entry>, e: Entry, p: Phone)
    ensures LastSent(log + [e], p) == if IsSave(e, p) then Some(e.at) else LastSent(log, p)
  {
    assert (log + [e])[..|log|] == log;
  }

  lemma SaveCooldownTracked(cfg: Config, s: State, phone: Phone, code: string, id: string, ip: string, p: Phone)
    requires CooldownTracked(cfg, s, p)
    ensures CooldownTracked(cfg, Save(cfg, s, phone, code, id, ip).0, p)
  {
    if Save(cfg, s, phone, code, id, ip).1 == SaveOk {
      SaveFrame(cfg, s, phone, code, id, ip);
      LastSentAppended(s.log, Saved(phone, ip, code, id, s.now), p);
      SavedCooldowns(cfg, s, phone, code, id, ip);
    } else {
      SaveFrame(cfg, s, phone, code, id, ip);
    }
  }

  lemma SavedCooldowns(cfg: Config, s: State, phone: Phone, code: string, id: string, ip: string)
    requires Save(cfg, s, phone, code, id, ip).1 == SaveOk
    ensures Save(cfg, s, phone, code, id, ip).0.cooldowns ==
              if cfg.cooldown > 0 then s.cooldowns[phone := s.now + cfg.cooldown] else s.cooldowns
  {
  }

  lemma {:induction false} RunCooldownTracked(cfg: Config, es: seq<Event>, p: Phone)
    ensures CooldownTracked(cfg, Run(cfg, es), p)
  {
    if es != [] {
      var s := Run(cfg, es[..|es| - 1]);
      RunCooldownTracked(cfg, es[..|es| - 1], p);
      match es[|es| - 1]
      case SaveOtp(phone, code, id, ip) => SaveCooldownTracked(cfg, s, phone, code, id, ip, p);
      case VerifyOtp(phone, code) =>
        VerifyFrame(cfg, s, phone, code);
        LastSentAppended(s.log, Answered(phone, code, Check(cfg, s, phone, code).1, s.now), p);
      case Tick(_) =>
    }
  }

  /** The requests counted in the life of a limiter key, 0 when it has expired. */
  function Live(s: State, k: Key): nat {
    var c := CounterOf(s, k);
    if Alive(c, s.now) then c.value.count else 0
  }

  /** Whether one more request exceeds a limit that is switched on. */
  predicate Full(s: State, k: Key, limit: int) {
    limit > 0 && Live(s, k) + 1 > limit
  }

  /** In every run SaveOTP is refused for the cooldown exactly if the last code of the phone is younger
      than it; for a rate exactly if otherwise the phone's or the address's counter is full; and it is
      stored in all other cases, for the TTL and without attempts. */
  lemma SaveAnswers(cfg: Config, es: seq<Event>, p: Phone, code: string, id: string, ip: string)
    ensures
      var s := Run(cfg, es);
      var (s', answer) := Save(cfg, s, p, code, id, ip);
      var last := LastSent(s.log, p);
      var early := cfg.cooldown > 0 && last.Some? && s.now < last.value + cfg.cooldown;
      var full := Full(s, SendCount(p), cfg.phoneLimit) || (ip != "" && Full(s, SendCountIP(ip), cfg.ipLimit));
      && (answer == Cooldown <==> early)
      && (answer == RateLimited <==> !early && full)
      && (answer == SaveOk <==> !early && !full)
      && (answer == SaveOk ==> p in s'.records && s'.records[p] == Record((p, code), 0, id, s.now + cfg.ttl))
      && (answer != SaveOk ==> s'.records == s.records)
  {
    RunCooldownTracked(cfg, es, p);
    SaveFrame(cfg, Run(cfg, es), p, code, id, ip);
  }

  /** Every request that is not refused for the cooldown counts on the phone, also one that is refused for
      its rate; the counter lives for one window from its first request. */
  lemma SaveCountsRequest(cfg: Config, s: State, p: Phone, code: string, id: string, ip: string)
    requires cfg.phoneLimit > 0 && cfg.sendWindow > 0 && !Cooling(cfg, s, p)
    ensures
      var s' := Save(cfg, s, p, code, id, ip).0;
      && Live(s', SendCount(p)) == Live(s, SendCount(p)) + 1
      && (Live(s, SendCount(p)) == 0 && !Alive(CounterOf(s, SendCount(p)), s.now) ==>
            CounterOf(s', SendCount(p)).value.expires == s.now + cfg.sendWindow)
  {
  }
}
