/**
 The one-time-password store: Redis keys with expiry times against a logical clock, and the two
 operations SaveOTP and Verify as atomic steps. The SHA-256 of (phone, code) is kept as the pair
 itself. `State.log` is a history variable that no step reads.
 */
module OtpModel {
  import opened Wrappers
  import opened FixedWindow

  type Phone = string

  /** Durations are in seconds; the constructor guarantees a positive send window. */
  datatype Config = Config(ttl: nat, cooldown: nat, maxAttempts: int, phoneLimit: int, ipLimit: int,
                           sendWindow: nat, verifyLimit: int, verifyWindow: nat)

  datatype Key = SendCount(phone: Phone) | SendCountIP(ip: string) | VerifyAttempts(phone: Phone)

  datatype Record = Record(hash: (Phone, string), attempts: nat, requestId: string, expires: nat)

  datatype SaveAnswer = SaveOk | Cooldown | RateLimited

  datatype Answer = Verified(requestId: string) | Expired | Invalid | MaxAttempts | VerifyRateLimited

  datatype Entry =
    | Saved(phone: Phone, ip: string, code: string, requestId: string, at: nat)
    | Answered(phone: Phone, code: string, answer: Answer, at: nat)

  datatype State = State(
    now: nat,
    records: map<Phone, Record>,
    cooldowns: map<Phone, nat>,      // expiry of otp:cooldown:<phone>
    counters: map<Key, Counter>,
    log: seq<Entry>)

  const EMPTY := State(0, map[], map[], map[], [])

  datatype Event =
    | SaveOtp(phone: Phone, code: string, requestId: string, ip: string)
    | VerifyOtp(phone: Phone, code: string)
    | Tick(seconds: nat)

  function CounterOf(s: State, k: Key): Option<Counter> {
    if k in s.counters then Some(s.counters[k]) else None
  }

  function BumpKey(s: State, k: Key, window: nat): State {
    s.(counters := s.counters[k := Bump(CounterOf(s, k), s.now, window)])
  }

  predicate Cooling(cfg: Config, s: State, phone: Phone) {
    cfg.cooldown > 0 && phone in s.cooldowns && s.now < s.cooldowns[phone]
  }

  /** The limiter on one key; a limit that is not positive switches it off. */
  function Limited(s: State, k: Key, limit: int, window: nat): State {
    if limit > 0 then BumpKey(s, k, window) else s
  }

  predicate Passes(s: State, k: Key, limit: int, window: nat) {
    limit > 0 ==> Bump(CounterOf(s, k), s.now, window).count <= limit
  }

  function Store(cfg: Config, s: State, phone: Phone, code: string, requestId: string, ip: string): State {
    s.(records := s.records[phone := Record((phone, code), 0, requestId, s.now + cfg.ttl)],
       cooldowns := if cfg.cooldown > 0 then s.cooldowns[phone := s.now + cfg.cooldown] else s.cooldowns,
       log := s.log + [Saved(phone, ip, code, requestId, s.now)])
  }

  function Save(cfg: Config, s: State, phone: Phone, code: string, requestId: string, ip: string): (State, SaveAnswer) {
    if Cooling(cfg, s, phone) then (s, Cooldown)
    else
      var s1 := Limited(s, SendCount(phone), cfg.phoneLimit, cfg.sendWindow);
      if !Passes(s, SendCount(phone), cfg.phoneLimit, cfg.sendWindow) then (s1, RateLimited)
      else
        var ipLimit := if ip == "" then 0 else cfg.ipLimit;
        var s2 := Limited(s1, SendCountIP(ip), ipLimit, cfg.sendWindow);
        if !Passes(s1, SendCountIP(ip), ipLimit, cfg.sendWindow) then (s2, RateLimited)
        else (Store(cfg, s2, phone, code, requestId, ip), SaveOk)
  }

  predicate HasRecord(s: State, phone: Phone) {
    phone in s.records && s.now < s.records[phone].expires
  }

  predicate CountsVerifies(cfg: Config) {
    cfg.verifyLimit > 0 && cfg.verifyWindow > 0
  }

  function WrongCode(cfg: Config, s: State, phone: Phone): (State, Answer)
    requires phone in s.records
  {
    var s1 := if CountsVerifies(cfg) then BumpKey(s, VerifyAttempts(phone), cfg.verifyWindow) else s;
    if CountsVerifies(cfg) && s1.counters[VerifyAttempts(phone)].count > cfg.verifyLimit then (s1, VerifyRateLimited)
    else
      var attempts := s.records[phone].attempts + 1;
      (s1.(records := s1.records[phone := s1.records[phone].(attempts := attempts)]),
       if attempts >= cfg.maxAttempts then MaxAttempts else Invalid)
  }

  function Check(cfg: Config, s: State, phone: Phone, code: string): (State, Answer) {
    if !HasRecord(s, phone) then (s, Expired)
    else if s.records[phone].attempts >= cfg.maxAttempts then (s, MaxAttempts)
    else if s.records[phone].hash != (phone, code) then WrongCode(cfg, s, phone)
    else (s.(records := s.records - {phone}), Verified(s.records[phone].requestId))
  }

  /** Verify, with its answer noted in the log. */
  function Verify(cfg: Config, s: State, phone: Phone, code: string): (State, Answer) {
    var (s1, a) := Check(cfg, s, phone, code);
    (s1.(log := s1.log + [Answered(phone, code, a, s.now)]), a)
  }

  lemma VerifyFrame(cfg: Config, s: State, phone: Phone, code: string)
    ensures
      var (s', a) := Verify(cfg, s, phone, code);
      && s'.now == s.now && s'.cooldowns == s.cooldowns
      && s'.log == s.log + [Answered(phone, code, a, s.now)]
      && a == Check(cfg, s, phone, code).1
      && (forall k | k != VerifyAttempts(phone) :: CounterOf(s', k) == CounterOf(s, k))
      && (forall p | p != phone :: (p in s'.records <==> p in s.records) && (p in s.records ==>
            s'.records[p] == s.records[p]))
  {
  }

  lemma SaveCounters(cfg: Config, s: State, phone: Phone, code: string, requestId: string, ip: string, k: Key)
    requires k != SendCount(phone) && k != SendCountIP(ip)
    ensures CounterOf(Save(cfg, s, phone, code, requestId, ip).0, k) == CounterOf(s, k)
  {
  }

  lemma SaveFrame(cfg: Config, s: State, phone: Phone, code: string, requestId: string, ip: string)
    ensures
      var (s', a) := Save(cfg, s, phone, code, requestId, ip);
      && s'.now == s.now
      && (a != SaveOk ==> s'.log == s.log && s'.records == s.records && s'.cooldowns == s.cooldowns)
      && (a == SaveOk ==>
            && s'.log == s.log + [Saved(phone, ip, code, requestId, s.now)]
            && s'.records == s.records[phone := Record((phone, code), 0, requestId, s.now + cfg.ttl)]
            && (cfg.cooldown > 0 ==>
                  s'.cooldowns == s.cooldowns[phone := s.now + cfg.cooldown] && !Cooling(cfg, s, phone)))
      && (forall k | k != SendCount(phone) && k != SendCountIP(ip) :: CounterOf(s', k) == CounterOf(s, k))
  {
    forall k | k != SendCount(phone) && k != SendCountIP(ip)
      ensures CounterOf(Save(cfg, s, phone, code, requestId, ip).0, k) == CounterOf(s, k)
    {
      SaveCounters(cfg, s, phone, code, requestId, ip, k);
    }
  }

  function Step(cfg: Config, s: State, e: Event): State {
    match e
    case SaveOtp(phone, code, requestId, ip) => Save(cfg, s, phone, code, requestId, ip).0
    case VerifyOtp(phone, code) => Verify(cfg, s, phone, code).0
    case Tick(seconds) => s.(now := s.now + seconds)
  }

  function Run(cfg: Config, es: seq<Event>): State {
    if es == [] then EMPTY else Step(cfg, Run(cfg, es[..|es| - 1]), es[|es| - 1])
  }
}
