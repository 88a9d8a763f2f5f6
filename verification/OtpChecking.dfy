/** What Verify grants: single use, expiry and the attempt limit over whole runs. */
module OtpChecking {
  import opened Wrappers
  import opened OtpModel

  predicate IsSave(e: Entry, p: Phone) {
    e.Saved? && e.phone == p
  }

  predicate IsAnswer(e: Entry, p: Phone, a: Answer) {
    e.Answered? && e.phone == p && e.answer == a
  }

  predicate IsSuccess(e: Entry, p: Phone) {
    e.Answered? && e.phone == p && e.answer.Verified?
  }

  /** The index of the last save for p, unless a successful check came after it. */
  function OpenSave(log: seq<Entry>, p: Phone): (i: Option<nat>)
    ensures i.Some? ==> i.value < |log| && IsSave(log[i.value], p)
  {
    if log == [] then None
    else if IsSave(log[|log| - 1], p) then Some(|log| - 1)
    else if IsSuccess(log[|log| - 1], p) then None
    else OpenSave(log[..|log| - 1], p)
  }

  /** How often p was told ErrOTPInvalid since its last save. */
  function Invalids(log: seq<Entry>, p: Phone): nat {
    if log == [] || IsSave(log[|log| - 1], p) then 0
    else Invalids(log[..|log| - 1], p) + if IsAnswer(log[|log| - 1], p, Invalid) then 1 else 0
  }

  /** Whether p was told ErrOTPMaxAttempts since its last save. */
  predicate Exhausted(log: seq<Entry>, p: Phone) {
    if log == [] || IsSave(log[|log| - 1], p) then false
    else IsAnswer(log[|log| - 1], p, MaxAttempts) || Exhausted(log[..|log| - 1], p)
  }

  lemma Appended(log: seq<Entry>, e: Entry, p: Phone)
    ensures OpenSave(log + [e], p) ==
              if IsSave(e, p) then Some(|log|) else if IsSuccess(e, p) then None else OpenSave(log, p)
    ensures Invalids(log + [e], p) ==
              if IsSave(e, p) then 0 else Invalids(log, p) + if IsAnswer(e, p, Invalid) then 1 else 0
    ensures Exhausted(log + [e], p) == (!IsSave(e, p) && (IsAnswer(e, p, MaxAttempts) || Exhausted(log, p)))
  {
    assert (log + [e])[..|log|] == log;
  }

  /** The stored record is the open save, and the attempt counter covers the wrong answers. */
  ghost predicate Tracked(cfg: Config, s: State, p: Phone) {
    && (p in s.records <==> OpenSave(s.log, p).Some?)
    && (p in s.records ==>
          var r, save := s.records[p], s.log[OpenSave(s.log, p).value];
          && r.hash == (p, save.code) && r.requestId == save.requestId && r.expires == save.at + cfg.ttl
          && Invalids(s.log, p) <= r.attempts <= cfg.maxAttempts
          && (Exhausted(s.log, p) ==> r.attempts == cfg.maxAttempts))
    && Invalids(s.log, p) <= cfg.maxAttempts - 1
  }

  /** Every success in the log answers the code of its open save, in time, before exhaustion. */
  ghost predicate Granted(cfg: Config, log: seq<Entry>, j: nat, p: Phone)
    requires j < |log|
  {
    IsSuccess(log[j], p) ==>
      var open := OpenSave(log[..j], p);
      && open.Some?
      && log[open.value].code == log[j].code
      && log[open.value].requestId == log[j].answer.requestId
      && log[j].at < log[open.value].at + cfg.ttl
      && !Exhausted(log[..j], p)
  }

  ghost predicate AllGranted(cfg: Config, log: seq<Entry>, p: Phone) {
    forall j | 0 <= j < |log| :: Granted(cfg, log, j, p)
  }

  lemma AppendGranted(cfg: Config, log: seq<Entry>, e: Entry, p: Phone)
    requires AllGranted(cfg, log, p)
    requires Granted(cfg, log + [e], |log|, p)
    ensures AllGranted(cfg, log + [e], p)
  {
    forall j | 0 <= j < |log + [e]| ensures Granted(cfg, log + [e], j, p) {
      if j < |log| {
        assert (log + [e])[..j] == log[..j];
        assert Granted(cfg, log, j, p);
      }
    }
  }

  lemma SaveTracked(cfg: Config, s: State, phone: Phone, code: string, requestId: string, ip: string, p: Phone)
    requires cfg.maxAttempts >= 1 && Tracked(cfg, s, p) && AllGranted(cfg, s.log, p)
    ensures Tracked(cfg, Save(cfg, s, phone, code, requestId, ip).0, p)
    ensures AllGranted(cfg, Save(cfg, s, phone, code, requestId, ip).0.log, p)
  {
    SaveFrame(cfg, s, phone, code, requestId, ip);
    if Save(cfg, s, phone, code, requestId, ip).1 == SaveOk {
      var e := Saved(phone, ip, code, requestId, s.now);
      Appended(s.log, e, p);
      AppendGranted(cfg, s.log, e, p);
    }
  }

  /** Checking the code of one phone, seen from its own record. */
  lemma VerifySelfTracked(cfg: Config, s: State, p: Phone, code: string)
    requires cfg.maxAttempts >= 1 && Tracked(cfg, s, p)
    ensures Tracked(cfg, Verify(cfg, s, p, code).0, p)
  {
    var (s', a) := Verify(cfg, s, p, code);
    var e := Answered(p, code, a, s.now);
    assert s'.log == s.log + [e];
    Appended(s.log, e, p);
    if OpenSave(s.log, p).Some? {
      assert s'.log[OpenSave(s.log, p).value] == s.log[OpenSave(s.log, p).value];
    }
  }

  lemma VerifyGranted(cfg: Config, s: State, phone: Phone, code: string, p: Phone)
    requires cfg.maxAttempts >= 1 && Tracked(cfg, s, phone) && AllGranted(cfg, s.log, p)
    ensures AllGranted(cfg, Verify(cfg, s, phone, code).0.log, p)
  {
    VerifyFrame(cfg, s, phone, code);
    var e := Answered(phone, code, Check(cfg, s, phone, code).1, s.now);
    assert (s.log + [e])[..|s.log|] == s.log;
    AppendGranted(cfg, s.log, e, p);
  }

  lemma VerifyTracked(cfg: Config, s: State, phone: Phone, code: string, p: Phone)
    requires cfg.maxAttempts >= 1 && Tracked(cfg, s, p)
    ensures Tracked(cfg, Verify(cfg, s, phone, code).0, p)
  {
    if p == phone {
      VerifySelfTracked(cfg, s, p, code);
    } else {
      VerifyFrame(cfg, s, phone, code);
      Appended(s.log, Answered(phone, code, Check(cfg, s, phone, code).1, s.now), p);
    }
  }

  /** Time passes: neither the records nor the log move. */
  lemma SameTracked(cfg: Config, s: State, s': State, p: Phone)
    requires Tracked(cfg, s, p) && s'.records == s.records && s'.log == s.log
    ensures Tracked(cfg, s', p)
  {
  }

  lemma StepTracked(cfg: Config, s: State, e: Event, p: Phone)
    requires cfg.maxAttempts >= 1
    requires forall q :: Tracked(cfg, s, q)
    requires AllGranted(cfg, s.log, p)
    ensures Tracked(cfg, Step(cfg, s, e), p) && AllGranted(cfg, Step(cfg, s, e).log, p)
  {
    match e
    case SaveOtp(phone, code, requestId, ip) => SaveTracked(cfg, s, phone, code, requestId, ip, p);
    case VerifyOtp(phone, code) =>
      VerifyTracked(cfg, s, phone, code, p);
      VerifyGranted(cfg, s, phone, code, p);
    case Tick(_) => SameTracked(cfg, s, Step(cfg, s, e), p);
  }

  lemma {:induction false} RunTracked(cfg: Config, es: seq<Event>, p: Phone)
    requires cfg.maxAttempts >= 1
    ensures Tracked(cfg, Run(cfg, es), p) && AllGranted(cfg, Run(cfg, es).log, p)
  {
    if es != [] {
      var before := es[..|es| - 1];
      forall q ensures Tracked(cfg, Run(cfg, before), q) { RunTracked(cfg, before, q); }
      RunTracked(cfg, before, p);
      StepTracked(cfg, Run(cfg, before), es[|es| - 1], p);
    }
  }

  /* ---------- the statements ---------- */

  lemma {:induction false} OpenSaveIsAfterSuccess(log: seq<Entry>, p: Phone, j: nat)
    requires j < |log| && IsSuccess(log[j], p)
    ensures OpenSave(log, p).Some? ==> j < OpenSave(log, p).value
  {
    var n := |log| - 1;
    if j < n && !IsSave(log[n], p) {
      OpenSaveIsAfterSuccess(log[..n], p, j);
    }
  }

  /** In every run each success belongs to an earlier save of the same phone and code that is younger
      than the TTL, and two successes never belong to the same save. */
  lemma SuccessesMatchSaves(cfg: Config, es: seq<Event>, p: Phone, j: nat)
    requires cfg.maxAttempts >= 1 && j < |Run(cfg, es).log| && IsSuccess(Run(cfg, es).log[j], p)
    ensures
      var log := Run(cfg, es).log;
      var save := OpenSave(log[..j], p);
      && save.Some?
      && log[save.value].Saved? && log[save.value].phone == p && log[save.value].code == log[j].code
      && log[j].at < log[save.value].at + cfg.ttl
      && (forall k | j < k < |log| && IsSuccess(log[k], p) :: OpenSave(log[..k], p) != save)
  {
    RunTracked(cfg, es, p);
    var log := Run(cfg, es).log;
    assert Granted(cfg, log, j, p);
    forall k | j < k < |log| && IsSuccess(log[k], p) ensures OpenSave(log[..k], p) != OpenSave(log[..j], p) {
      OpenSaveIsAfterSuccess(log[..k], p, j);
      assert Granted(cfg, log, k, p);
    }
  }

  /** Between two saves a phone hears ErrOTPInvalid at most maxAttempts - 1 times, the stored counter
      never passes the maximum, and after ErrOTPMaxAttempts no code succeeds before a new save. */
  lemma AttemptsAreBounded(cfg: Config, es: seq<Event>, p: Phone, j: nat)
    requires cfg.maxAttempts >= 1
    ensures Invalids(Run(cfg, es).log, p) <= cfg.maxAttempts - 1
    ensures p in Run(cfg, es).records ==> Run(cfg, es).records[p].attempts <= cfg.maxAttempts
    ensures j < |Run(cfg, es).log| && IsSuccess(Run(cfg, es).log[j], p) ==> !Exhausted(Run(cfg, es).log[..j], p)
  {
    RunTracked(cfg, es, p);
    if j < |Run(cfg, es).log| { assert Granted(cfg, Run(cfg, es).log, j, p); }
  }
}
