/** The kill-switch service in the source's own form: a stored row, a shared Redis and per-instance cache fields. */
module KillSwitchService {
  import opened Common
  import opened KillSwitch
  import opened KillSwitchCache
  import Cache = RedisCache

  /** The kill_switch table, of which the service uses one row. */
  class Repo {
    var row: Option<Record>

    constructor ()
      ensures row == None
    {
      row := None;
    }
  }

  const KNOWN_SERVICES: seq<string> :=
    ["auth", "trips", "bookings", "payments", "driver", "passenger", "admin", "agent", "notifications", "webhooks",
     "contact-support"]

  class KillSwitchService {
    const repo: Repo
    const redis: Cache.RedisCache<Record>
    /** The configured codes; an empty deactivation code refuses everyone, an empty 2FA code asks for none. */
    const deactivationCode: string
    const twoFaCode: string
    var cachedRecord: Option<Record>
    var cacheExpiry: int

    constructor (repo: Repo, redis: Cache.RedisCache<Record>, deactivationCode: string, twoFaCode: string)
      ensures this.repo == repo && this.redis == redis
      ensures this.deactivationCode == deactivationCode && this.twoFaCode == twoFaCode
      ensures LocalState() == COLD
    {
      this.repo, this.redis := repo, redis;
      this.deactivationCode, this.twoFaCode := deactivationCode, twoFaCode;
      cachedRecord, cacheExpiry := None, 0;
    }

    function LocalState(): Local
      reads this
    {
      Local(cachedRecord, cacheExpiry)
    }

    function Shared(): Option<Cache.Entry<Record>>
      reads redis
    {
      Cache.At(redis.store, KEY)
    }

    predicate CodeOk(code: string) { deactivationCode != "" && code == deactivationCode }

    predicate TwoFaOk(code: Option<string>) { twoFaCode == "" || code == Some(twoFaCode) }

    /** The stored record, or the new one getRecord saves when there is none. */
    function Current(): Record
      reads repo
    {
      if repo.row.Some? then repo.row.value else NEW_RECORD
    }

    method GetRecord() returns (r: Record)
      modifies repo
      ensures r == old(Current()) && repo.row == Some(r)
    {
      if repo.row.None? {
        repo.row := Some(NEW_RECORD);
      }
      return repo.row.value;
    }

    method InvalidateCache(delFails: bool)
      modifies this, redis
      ensures LocalState() == COLD
      ensures Shared() == if redis.isConnected && !delFails then None else old(Shared())
    {
      cacheExpiry := 0;
      cachedRecord := None;
      redis.Del(KEY, delFails);
    }

    method GetCachedRecord(now: int, getFails: bool, setFails: bool) returns (record: Option<Record>)
      modifies this, redis
      ensures ReadResult(LocalState(), Shared(), record)
              == ReadThrough(old(LocalState()), old(Shared()), repo.row, now,
                             getFails || !redis.isConnected, setFails || !redis.isConnected)
    {
      if now < cacheExpiry && cachedRecord.Some? {
        return cachedRecord;
      }
      record := redis.Get(KEY, now, getFails);
      if record.None? {
        record := repo.row;
        if record.Some? {
          redis.Set(KEY, record.value, L2_SECONDS, now, setFails);
        }
      }
      cachedRecord := record;
      cacheExpiry := now + L1_MS;
    }

    method IsServiceKilled(serviceName: string, now: int, getFails: bool, setFails: bool) returns (killed: bool)
      modifies this, redis
      ensures var r := ReadThrough(old(LocalState()), old(Shared()), repo.row, now,
                                   getFails || !redis.isConnected, setFails || !redis.isConnected);
              killed == (r.record.Some? && KillSwitch.IsServiceKilled(r.record.value, serviceName))
    {
      var record := GetCachedRecord(now, getFails, setFails);
      if record.None? { return false; }
      if record.value.isActive && |record.value.killedServices| == 0 { return true; }
      return serviceName in record.value.killedServices;
    }

    method GetServiceStatuses(now: int, getFails: bool, setFails: bool) returns (statuses: map<string, bool>)
      modifies this, redis
      ensures var r := ReadThrough(old(LocalState()), old(Shared()), repo.row, now,
                                   getFails || !redis.isConnected, setFails || !redis.isConnected);
              statuses == ServiceStatuses(r.record, KNOWN_SERVICES)
    {
      var record := GetCachedRecord(now, getFails, setFails);
      return ServiceStatuses(record, KNOWN_SERVICES);
    }

    /** What every mutator does with the outcome: a throw saves nothing, a success is saved and the caches dropped. */
    twostate predicate Mutated(new reply: Result<Record, Fault>, c: Command, authorized: bool, delFails: bool)
      reads this, repo, redis
    {
      if !authorized then
        reply == Failure(Unauthorized) && repo.row == old(repo.row) && LocalState() == old(LocalState()) && Shared() == old(Shared())
      else
        && reply == Apply(old(Current()), c)
        && repo.row == Some(After(old(Current()), c))
        && (reply.Success? ==>
              LocalState() == COLD && Shared() == if redis.isConnected && !delFails then None else old(Shared()))
        && (reply.Failure? ==> LocalState() == old(LocalState()) && Shared() == old(Shared()))
    }

    method Activate(adminEmail: string, code: string, reason: Option<string>, now: int, delFails: bool)
      returns (reply: Result<Record, Fault>)
      modifies this, repo, redis
      ensures Mutated(reply, Command.Activate(adminEmail, reason, now), CodeOk(code), delFails)
      ensures reply == Failure(Unauthorized) <==> !(deactivationCode != "" && code == deactivationCode)
      ensures reply.Success? ==> repo.row == Some(reply.value) && forall s :: KillSwitch.IsServiceKilled(reply.value, s)
    {
      if !CodeOk(code) { return Failure(Unauthorized); }
      var record := GetRecord();
      if record.isActive && |record.killedServices| == 0 { return Failure(Unavailable); }
      record := record.(isActive := true, killedServices := []);
      record := record.(auditLog := record.auditLog + [Event(true, adminEmail, reason, now, None, None)]);
      repo.row := Some(record);
      InvalidateCache(delFails);
      return Success(record);
    }

    method Deactivate(adminEmail: string, code: string, twoFa: Option<string>, now: int, delFails: bool)
      returns (reply: Result<Record, Fault>)
      modifies this, repo, redis
      ensures Mutated(reply, Command.Deactivate(adminEmail, now), CodeOk(code) && TwoFaOk(twoFa), delFails)
      ensures reply == Failure(Unauthorized)
              <==> !(deactivationCode != "" && code == deactivationCode && (twoFaCode == "" || twoFa == Some(twoFaCode)))
      ensures reply.Success? ==>
                repo.row == Some(reply.value) && !reply.value.isActive && forall s :: !KillSwitch.IsServiceKilled(reply.value, s)
    {
      if !CodeOk(code) || !TwoFaOk(twoFa) { return Failure(Unauthorized); }
      var record := GetRecord();
      if !record.isActive { return Failure(Unavailable); }
      record := record.(isActive := false, killedServices := []);
      record := record.(auditLog := record.auditLog + [Event(false, adminEmail, None, now, None, None)]);
      repo.row := Some(record);
      InvalidateCache(delFails);
      return Success(record);
    }

    method KillService(serviceName: string, adminEmail: string, code: string, reason: Option<string>, now: int, delFails: bool)
      returns (reply: Result<Record, Fault>)
      modifies this, repo, redis
      ensures Mutated(reply, Command.KillService(serviceName, adminEmail, reason, now), CodeOk(code), delFails)
      ensures reply == Failure(Unauthorized) <==> !(deactivationCode != "" && code == deactivationCode)
    {
      if !CodeOk(code) { return Failure(Unauthorized); }
      var record := GetRecord();
      var services := AddAll([], record.killedServices);
      AddAllMembers([], record.killedServices);
      if serviceName in services { return Failure(Unavailable); }
      services := Add(services, serviceName);
      var why := ServiceReason(reason, serviceName);
      record := record.(killedServices := services,
                        auditLog := record.auditLog + [Event(true, adminEmail, Some(why), now, Some(serviceName), None)]);
      repo.row := Some(record);
      InvalidateCache(delFails);
      return Success(record);
    }

    method RestoreService(serviceName: string, adminEmail: string, code: string, now: int, delFails: bool)
      returns (reply: Result<Record, Fault>)
      modifies this, repo, redis
      ensures Mutated(reply, Command.RestoreService(serviceName, adminEmail, now), CodeOk(code), delFails)
      ensures reply == Failure(Unauthorized) <==> !(deactivationCode != "" && code == deactivationCode)
    {
      if !CodeOk(code) { return Failure(Unauthorized); }
      var record := GetRecord();
      var services := AddAll([], record.killedServices);
      AddAllMembers([], record.killedServices);
      if serviceName !in services { return Failure(Unavailable); }
      services := Delete(services, serviceName);
      record := record.(killedServices := services,
                        auditLog := record.auditLog + [Event(false, adminEmail, None, now, Some(serviceName), None)]);
      repo.row := Some(record);
      InvalidateCache(delFails);
      return Success(record);
    }

    method KillMultipleServices(names: seq<string>, adminEmail: string, code: string, reason: Option<string>, now: int,
                                delFails: bool)
      returns (reply: Result<Record, Fault>)
      modifies this, repo, redis
      ensures Mutated(reply, KillMultiple(names, adminEmail, reason, now), CodeOk(code), delFails)
      ensures reply == Failure(Unauthorized) <==> !(deactivationCode != "" && code == deactivationCode)
    {
      if !CodeOk(code) { return Failure(Unauthorized); }
      var record := GetRecord();
      var services := AddAll([], record.killedServices);
      for i := 0 to |names|
        invariant services == AddAll(AddAll([], record.killedServices), names[..i])
      {
        assert names[..i + 1][..i] == names[..i];
        services := Add(services, names[i]);
      }
      assert names[..|names|] == names;
      var why := BulkReason(reason, names);
      record := record.(killedServices := services,
                        auditLog := record.auditLog + [Event(true, adminEmail, Some(why), now, None, Some(names))]);
      repo.row := Some(record);
      InvalidateCache(delFails);
      return Success(record);
    }
  }
}
