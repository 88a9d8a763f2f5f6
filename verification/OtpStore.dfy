/** The OTP store as code over Redis keys, command by command. */
module OtpStore {
  import opened FixedWindow
  import opened OtpModel

  class Store {
    const cfg: Config
    var now: nat
    var records: map<Phone, Record>
    var cooldowns: map<Phone, nat>
    var counters: map<Key, Counter>
    ghost var log: seq<Entry>

    ghost function Keys(): State
      reads this
    {
      State(now, records, cooldowns, counters, log)
    }

    /** A window that is not positive becomes one hour. */
    constructor (cfg: Config)
      ensures Keys() == EMPTY
      ensures this.cfg.sendWindow > 0
      ensures cfg.sendWindow > 0 ==> this.cfg == cfg
      ensures cfg.sendWindow == 0 ==> this.cfg == cfg.(sendWindow := 3600)
    {
      this.cfg := if cfg.sendWindow == 0 then cfg.(sendWindow := 3600) else cfg;
      now, records, cooldowns, counters, log := 0, map[], map[], map[], [];
    }

    method Tick(seconds: nat)
      modifies this`now
      ensures Keys() == Step(cfg, old(Keys()), OtpModel.Tick(seconds))
    {
      now := now + seconds;
    }

    /** INCR, then EXPIRE when the counter is new. */
    method Incr(k: Key, window: nat) returns (n: nat)
      modifies this`counters
      ensures Keys() == BumpKey(old(Keys()), k, window)
      ensures n == counters[k].count
    {
      if k in counters && now < counters[k].expires {
        n := counters[k].count + 1;
        counters := counters[k := Counter(n, counters[k].expires)];
      } else {
        n := 1;
        counters := counters[k := Counter(n, now + window)];
      }
    }

    method IncrWithLimit(k: Key, limit: nat, window: nat) returns (ok: bool)
      modifies this`counters
      ensures Keys() == BumpKey(old(Keys()), k, window)
      ensures ok <==> Bump(CounterOf(old(Keys()), k), old(now), window).count <= limit
    {
      var n := Incr(k, window);
      ok := n <= limit;
    }

    method SaveOTP(phone: Phone, code: string, requestId: string, ip: string) returns (a: SaveAnswer)
      modifies this`records, this`cooldowns, this`counters, this`log
      ensures (Keys(), a) == Save(cfg, old(Keys()), phone, code, requestId, ip)
    {
      if cfg.cooldown > 0 {
        if phone in cooldowns && now < cooldowns[phone] {
          return Cooldown;
        }
      }
      if cfg.phoneLimit > 0 {
        var ok := IncrWithLimit(SendCount(phone), cfg.phoneLimit, cfg.sendWindow);
        if !ok {
          return RateLimited;
        }
      }
      if ip != "" && cfg.ipLimit > 0 {
        var ok := IncrWithLimit(SendCountIP(ip), cfg.ipLimit, cfg.sendWindow);
        if !ok {
          return RateLimited;
        }
      }
      records := records[phone := Record((phone, code), 0, requestId, now + cfg.ttl)];
      if cfg.cooldown > 0 {
        cooldowns := cooldowns[phone := now + cfg.cooldown];
      }
      log := log + [Saved(phone, ip, code, requestId, now)];
      return SaveOk;
    }

    method CheckCode(phone: Phone, code: string) returns (a: Answer)
      modifies this`records, this`counters
      ensures (Keys(), a) == Check(cfg, old(Keys()), phone, code)
    {
      if phone !in records || now >= records[phone].expires {
        return Expired;
      }
      var attempts := records[phone].attempts;
      if attempts >= cfg.maxAttempts {
        return MaxAttempts;
      }
      if records[phone].hash != (phone, code) {
        if cfg.verifyLimit > 0 && cfg.verifyWindow > 0 {
          var n := Incr(VerifyAttempts(phone), cfg.verifyWindow);
          if n > cfg.verifyLimit {
            return VerifyRateLimited;
          }
        }
        attempts := attempts + 1;
        records := records[phone := records[phone].(attempts := attempts)];
        if attempts >= cfg.maxAttempts {
          return MaxAttempts;
        }
        return Invalid;
      }
      a := Verified(records[phone].requestId);
      records := records - {phone};
    }

    method Verify(phone: Phone, code: string) returns (a: Answer)
      modifies this`records, this`counters, this`log
      ensures (Keys(), a) == OtpModel.Verify(cfg, old(Keys()), phone, code)
    {
      a := CheckCode(phone, code);
      log := log + [Answered(phone, code, a, now)];
    }
  }
}
