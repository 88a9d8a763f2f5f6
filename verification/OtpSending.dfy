/** How often codes can be sent: the send limits and the cooldown over whole runs. */
module OtpSending {
  import opened Wrappers
  import opened FixedWindow
  import opened OtpModel

  /** Whether a log entry is a successful save that counts against this key. */
  predicate CountsFor(e: Entry, k: Key) {
    && e.Saved?
    && match k
       case SendCount(phone) => e.phone == phone
       case SendCountIP(ip) => e.ip == ip
       case VerifyAttempts(_) => false
  }

  /** The moments of the successful saves for a phone or for an address. */
  function SavesOf(log: seq<Entry>, k: Key): seq<nat> {
    if log == [] then []
    else SavesOf(log[..|log| - 1], k) + if CountsFor(log[|log| - 1], k) then [log[|log| - 1].at] else []
  }

  lemma SavesOfAppend(log: seq<Entry>, e: Entry, k: Key)
    ensures SavesOf(log + [e], k) == if CountsFor(e, k) then SavesOf(log, k) + [e.at] else SavesOf(log, k)
  {
    assert SavesOf(log, k) + [] == SavesOf(log, k);
    assert (log + [e])[..|log|] == log;
  }

  function LimitOf(cfg: Config, k: Key): int {
    match k
    case SendCount(_) => cfg.phoneLimit
    case SendCountIP(ip) => if ip == "" then 0 else cfg.ipLimit
    case VerifyAttempts(_) => 0
  }

  ghost predicate KeyLimited(cfg: Config, s: State, k: Key) {
    LimitOf(cfg, k) > 0 ==> Limits(CounterOf(s, k), SavesOf(s.log, k), s.now, LimitOf(cfg, k), cfg.sendWindow)
  }

  lemma SaveBumps(cfg: Config, s: State, phone: Phone, code: string, requestId: string, ip: string, k: Key)
    requires (k == SendCount(phone) || k == SendCountIP(ip)) && LimitOf(cfg, k) > 0
    ensures
      var (s', a) := Save(cfg, s, phone, code, requestId, ip);
      var c := Bump(CounterOf(s, k), s.now, cfg.sendWindow);
      && (a == SaveOk ==> CounterOf(s', k) == Some(c) && c.count <= LimitOf(cfg, k))
      && (a != SaveOk ==> CounterOf(s', k) == Some(c) || CounterOf(s', k) == CounterOf(s, k))
  {
  }

  lemma SaveKeepsLimits(cfg: Config, s: State, phone: Phone, code: string, requestId: string, ip: string, k: Key)
    requires cfg.sendWindow > 0 && KeyLimited(cfg, s, k)
    ensures KeyLimited(cfg, Save(cfg, s, phone, code, requestId, ip).0, k)
  {
    SaveFrame(cfg, s, phone, code, requestId, ip);
    SavesOfAppend(s.log, Saved(phone, ip, code, requestId, s.now), k);
    var limit := LimitOf(cfg, k);
    if limit > 0 && (k == SendCount(phone) || k == SendCountIP(ip)) {
      SaveBumps(cfg, s, phone, code, requestId, ip, k);
      if Save(cfg, s, phone, code, requestId, ip).1 == SaveOk {
        PassKeepsLimits(CounterOf(s, k), SavesOf(s.log, k), s.now, limit, cfg.sendWindow);
      } else {
        RefusalKeepsLimits(CounterOf(s, k), SavesOf(s.log, k), s.now, limit, cfg.sendWindow);
      }
    }
  }

  lemma VerifyKeepsLimits(cfg: Config, s: State, phone: Phone, code: string, k: Key)
    requires KeyLimited(cfg, s, k)
    ensures KeyLimited(cfg, Verify(cfg, s, phone, code).0, k)
  {
    VerifyFrame(cfg, s, phone, code);
    SavesOfAppend(s.log, Answered(phone, code, Check(cfg, s, phone, code).1, s.now), k);
  }

  lemma StepKeepsLimits(cfg: Config, s: State, e: Event, k: Key)
    requires cfg.sendWindow > 0 && KeyLimited(cfg, s, k)
    ensures KeyLimited(cfg, Step(cfg, s, e), k)
  {
    match e
    case SaveOtp(phone, code, requestId, ip) => SaveKeepsLimits(cfg, s, phone, code, requestId, ip, k);
    case VerifyOtp(phone, code) => VerifyKeepsLimits(cfg, s, phone, code, k);
    case Tick(seconds) =>
      if LimitOf(cfg, k) > 0 {
        TickKeepsLimits(CounterOf(s, k), SavesOf(s.log, k), s.now, s.now + seconds, LimitOf(cfg, k), cfg.sendWindow);
      }
  }

  lemma {:induction false} RunKeepsLimits(cfg: Config, es: seq<Event>, k: Key)
    requires cfg.sendWindow > 0
    ensures KeyLimited(cfg, Run(cfg, es), k)
  {
    if es == [] {
      forall t: nat ensures InWindow([], t, cfg.sendWindow) == 0 {}
    } else {
      RunKeepsLimits(cfg, es[..|es| - 1], k);
      StepKeepsLimits(cfg, Run(cfg, es[..|es| - 1]), es[|es| - 1], k);
    }
  }

  lemma LimitsGive(c: Option<Counter>, hits: seq<nat>, now: nat, limit: nat, window: nat, t: nat)
    requires Limits(c, hits, now, limit, window)
    ensures InWindow(hits, t, window) <= 2 * limit
    ensures c.Some? ==> CountIn(hits, c.value.expires - window, c.value.expires) <= limit
  {
  }

  /** In any closed interval of one window at most twice the limit of codes is sent to a phone, and
      likewise for an address; within the life of the current counter at most the limit. */
  lemma AtMostTwiceTheLimit(cfg: Config, es: seq<Event>, k: Key, t: nat)
    requires cfg.sendWindow > 0 && LimitOf(cfg, k) > 0
    ensures InWindow(SavesOf(Run(cfg, es).log, k), t, cfg.sendWindow) <= 2 * LimitOf(cfg, k)
    ensures k in Run(cfg, es).counters ==>
              var c := Run(cfg, es).counters[k];
              CountIn(SavesOf(Run(cfg, es).log, k), c.expires - cfg.sendWindow, c.expires) <= LimitOf(cfg, k)
  {
    RunKeepsLimits(cfg, es, k);
    var s := Run(cfg, es);
    LimitsGive(CounterOf(s, k), SavesOf(s.log, k), s.now, LimitOf(cfg, k), cfg.sendWindow, t);
  }

  /** n times the same request. */
  function Burst(e: Event, n: nat): seq<Event> {
    if n == 0 then [] else Burst(e, n - 1) + [e]
  }

  /** After a burst: the counter of the phone and the passes in the window from 0 on. */
  ghost predicate AfterBurst(cfg: Config, s: State, phone: Phone, at: nat, n: nat, passed: nat) {
    && s.now == at
    && (n > 0 ==> CounterOf(s, SendCount(phone)) == Some(Counter(n, at + cfg.sendWindow)))
    && (n == 0 ==> !Alive(CounterOf(s, SendCount(phone)), at))
    && InWindow(SavesOf(s.log, SendCount(phone)), 0, cfg.sendWindow) == passed
  }

  lemma SavePasses(cfg: Config, s: State, phone: Phone, code: string, id: string, n: nat)
    requires cfg.cooldown == 0 && n < cfg.phoneLimit
    requires if n == 0 then !Alive(CounterOf(s, SendCount(phone)), s.now)
             else CounterOf(s, SendCount(phone)) == Some(Counter(n, s.now + cfg.sendWindow)) && cfg.sendWindow > 0
    ensures
      var s' := Save(cfg, s, phone, code, id, "").0;
      && s'.now == s.now
      && s'.log == s.log + [Saved(phone, "", code, id, s.now)]
      && CounterOf(s', SendCount(phone)) == Some(Counter(n + 1, s.now + cfg.sendWindow))
  {
  }

  lemma OneMoreCounted(log: seq<Entry>, phone: Phone, code: string, id: string, at: nat, window: nat)
    requires at <= window
    ensures InWindow(SavesOf(log + [Saved(phone, "", code, id, at)], SendCount(phone)), 0, window)
         == InWindow(SavesOf(log, SendCount(phone)), 0, window) + 1
  {
    SavesOfAppend(log, Saved(phone, "", code, id, at), SendCount(phone));
    CountInAppend(SavesOf(log, SendCount(phone)), at, 0, window + 1);
  }

  lemma OneMorePasses(cfg: Config, s: State, phone: Phone, code: string, id: string, at: nat, n: nat, passed: nat)
    requires cfg.sendWindow > 0 && cfg.cooldown == 0 && n < cfg.phoneLimit && at <= cfg.sendWindow
    requires AfterBurst(cfg, s, phone, at, n, passed)
    ensures AfterBurst(cfg, Save(cfg, s, phone, code, id, "").0, phone, at, n + 1, passed + 1)
  {
    SavePasses(cfg, s, phone, code, id, n);
    OneMoreCounted(s.log, phone, code, id, at, cfg.sendWindow);
  }

  lemma {:induction false} BurstPasses(cfg: Config, es: seq<Event>, phone: Phone, code: string, id: string, at: nat,
                                       n: nat, passed: nat)
    requires cfg.sendWindow > 0 && cfg.cooldown == 0 && n <= cfg.phoneLimit && at <= cfg.sendWindow
    requires AfterBurst(cfg, Run(cfg, es), phone, at, 0, passed)
    ensures AfterBurst(cfg, Run(cfg, es + Burst(SaveOtp(phone, code, id, ""), n)), phone, at, n, passed + n)
    decreases n
  {
    var save := SaveOtp(phone, code, id, "");
    if n == 0 {
      assert es + Burst(save, 0) == es;
    } else {
      var before := es + Burst(save, n - 1);
      var after := es + Burst(save, n);
      BurstPasses(cfg, es, phone, code, id, at, n - 1, passed);
      assert after == before + [save] && after[..|after| - 1] == before;
      OneMorePasses(cfg, Run(cfg, before), phone, code, id, at, n - 1, passed + n - 1);
    }
  }

  /** Twice the limit is reached under every limit without a cooldown: the limit at once, a window of
      waiting, and the limit again. */
  lemma TwiceTheLimitIsReached(cfg: Config, phone: Phone, code: string, id: string)
    requires cfg.sendWindow > 0 && cfg.cooldown == 0 && cfg.phoneLimit > 0
    ensures
      var burst := Burst(SaveOtp(phone, code, id, ""), cfg.phoneLimit);
      InWindow(SavesOf(Run(cfg, burst + [Tick(cfg.sendWindow)] + burst).log, SendCount(phone)), 0, cfg.sendWindow)
        == 2 * cfg.phoneLimit
  {
    var n := cfg.phoneLimit;
    var burst := Burst(SaveOtp(phone, code, id, ""), n);
    BurstPasses(cfg, [], phone, code, id, 0, n, 0);
    assert [] + burst == burst;
    var es := burst + [Tick(cfg.sendWindow)];
    assert es[..|es| - 1] == burst;
    BurstPasses(cfg, es, phone, code, id, cfg.sendWindow, n, n);
  }

  /* ---------- cooldown ---------- */

  /** Successful saves for one phone lie at least a cooldown apart, in the order of the log. */
  ghost predicate Spaced(log: seq<Entry>, cooldown: nat) {
    forall i, j | 0 <= i < j < |log| && log[i].Saved? && log[j].Saved? && log[i].phone == log[j].phone ::
      log[i].at + cooldown <= log[j].at
  }

  ghost predicate CooldownsSet(cfg: Config, s: State) {
    && Spaced(s.log, cfg.cooldown)
    && (forall i | 0 <= i < |s.log| && s.log[i].Saved? ::
          s.log[i].phone in s.cooldowns && s.log[i].at + cfg.cooldown <= s.cooldowns[s.log[i].phone])
  }

  lemma SaveKeepsCooldowns(cfg: Config, s: State, phone: Phone, code: string, requestId: string, ip: string)
    requires cfg.cooldown > 0 && CooldownsSet(cfg, s)
    ensures CooldownsSet(cfg, Save(cfg, s, phone, code, requestId, ip).0)
  {
    SaveFrame(cfg, s, phone, code, requestId, ip);
  }

  lemma StepKeepsCooldowns(cfg: Config, s: State, e: Event)
    requires cfg.cooldown > 0 && CooldownsSet(cfg, s)
    ensures CooldownsSet(cfg, Step(cfg, s, e))
  {
    match e
    case SaveOtp(phone, code, requestId, ip) => SaveKeepsCooldowns(cfg, s, phone, code, requestId, ip);
    case VerifyOtp(phone, code) => VerifyFrame(cfg, s, phone, code);
    case Tick(_) =>
  }

  /** With a cooldown configured, two codes for one phone are never sent closer than that. */
  lemma {:induction false} SavesAreSpaced(cfg: Config, es: seq<Event>)
    requires cfg.cooldown > 0
    ensures CooldownsSet(cfg, Run(cfg, es)) && Spaced(Run(cfg, es).log, cfg.cooldown)
  {
    if es != [] {
      SavesAreSpaced(cfg, es[..|es| - 1]);
      StepKeepsCooldowns(cfg, Run(cfg, es[..|es| - 1]), es[|es| - 1]);
    }
  }
}
