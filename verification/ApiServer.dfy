/** The API server as an object: its calls, in the order a client makes them. */
module ApiServers {
  import opened Prelude
  import opened Objects
  import Server

  class ApiServer {
    var store: Server.Store
    var schedule: seq<Server.Call>
    ghost var trace: seq<Server.Mark>

    constructor (store: Server.Store, schedule: seq<Server.Call>)
      ensures World() == Server.World(store, schedule, [Server.Mark(Server.Started, store)])
    {
      this.store, this.schedule := store, schedule;
      trace := [Server.Mark(Server.Started, store)];
    }

    ghost function World(): Server.World
      reads this
    {
      Server.World(store, schedule, trace)
    }

    /** Other writers act before the next call. */
    method Arrive() returns (fault: Server.Fault)
      modifies this
      ensures World() == Server.Arrive(old(World()))
      ensures fault == Server.Upcoming(old(World())).fault
    {
      var before: seq<Server.EnvStep> := [];
      fault := Server.NoFault;
      if |schedule| > 0 {
        before, fault := schedule[0].before, schedule[0].fault;
      }
      var i := 0;
      assert before[0..] == before;
      while i < |before|
        invariant 0 <= i <= |before|
        invariant Server.Disturb(World(), before[i..]) == Server.Arrive(old(World()))
      {
        assert before[i..][0] == before[i] && before[i..][1..] == before[i + 1..];
        store := Server.Apply(store, before[i]);
        trace := trace + [Server.Mark(Server.Env(before[i]), store)];
        i := i + 1;
      }
    }

    method Finish(next: Server.Store, ghost act: Server.Act)
      modifies this
      ensures World() == Server.Finish(old(World()), next, act)
    {
      store := next;
      if |schedule| > 0 {
        schedule := schedule[1..];
      }
      trace := trace + [Server.Mark(act, next)];
    }

    method GetNF(k: Key) returns (r: Server.GetResult)
      modifies this
      ensures (World(), r) == Server.GetNF(old(World()), k)
    {
      var fault := Arrive();
      r := if fault != Server.NoFault then Server.Unavailable
           else if k in store.nfs then Server.Found(store.nfs[k]) else Server.NotFound;
      Finish(store, if r.Found? then Server.Saw(Server.NF, k) else Server.Missed(Server.NF, k));
    }

    method GetConfigMap(k: Key) returns (r: Option<ConfigMap>)
      modifies this
      ensures (World(), r) == Server.GetConfigMap(old(World()), k)
    {
      var fault := Arrive();
      r := if fault == Server.NoFault && k in store.configMaps then Some(store.configMaps[k]) else None;
      Finish(store, if r.Some? then Server.Saw(Server.CM, k) else Server.Missed(Server.CM, k));
    }

    method GetService(k: Key) returns (found: bool)
      modifies this
      ensures (World(), found) == Server.GetService(old(World()), k)
    {
      var fault := Arrive();
      found := fault == Server.NoFault && k in store.services;
      Finish(store, if found then Server.Saw(Server.SVC, k) else Server.Missed(Server.SVC, k));
    }

    method GetDeployment(k: Key) returns (r: Option<Deployment>)
      modifies this
      ensures (World(), r) == Server.GetDeployment(old(World()), k)
    {
      var fault := Arrive();
      r := if fault == Server.NoFault && k in store.deployments then Some(store.deployments[k]) else None;
      Finish(store, if r.Some? then Server.Saw(Server.DEP, k) else Server.Missed(Server.DEP, k));
    }

    method GetNad(k: Key) returns (found: bool)
      modifies this
      ensures (World(), found) == Server.GetNad(old(World()), k)
    {
      var fault := Arrive();
      found := fault == Server.NoFault && k in store.nads;
      Finish(store, if found then Server.Saw(Server.NAD, k) else Server.Missed(Server.NAD, k));
    }

    method GetConfig(k: Key) returns (r: Option<Payload>)
      modifies this
      ensures (World(), r) == Server.GetConfig(old(World()), k)
    {
      var fault := Arrive();
      r := if fault == Server.NoFault && k in store.configs then Some(store.configs[k]) else None;
      Finish(store, if r.Some? then Server.Saw(Server.CFG, k) else Server.Missed(Server.CFG, k));
    }

    method CreateConfigMap(k: Key, data: ConfigData) returns (version: Option<Version>)
      modifies this
      ensures (World(), version) == Server.CreateConfigMap(old(World()), k, data)
    {
      var fault := Arrive();
      if k in store.configMaps || fault == Server.Refused {
        Finish(store, Server.NoEffect(Server.CM, k));
        return None;
      }
      var given := Server.Next(store);
      Finish(Server.AddConfigMap(store, k, data, true), Server.Made(Server.CM, k));
      version := if fault == Server.NoFault then Some(Rev(given)) else None;
    }

    method CreateService(k: Key) returns (ok: bool)
      modifies this
      ensures (World(), ok) == Server.CreateService(old(World()), k)
    {
      var fault := Arrive();
      if k in store.services || fault == Server.Refused {
        Finish(store, Server.NoEffect(Server.SVC, k));
        return false;
      }
      Finish(Server.AddService(store, k, true), Server.Made(Server.SVC, k));
      ok := fault == Server.NoFault;
    }

    method CreateDeployment(k: Key, template: Template) returns (ok: bool)
      modifies this
      ensures (World(), ok) == Server.CreateDeployment(old(World()), k, template)
    {
      var fault := Arrive();
      if k in store.deployments || fault == Server.Refused {
        Finish(store, Server.NoEffect(Server.DEP, k));
        return false;
      }
      Finish(Server.AddDeployment(store, k, template), Server.Made(Server.DEP, k));
      ok := fault == Server.NoFault;
    }

    method UpdateDeployment(k: Key, template: Template, owned: bool, expected: Option<nat>) returns (ok: bool)
      modifies this
      ensures (World(), ok) == Server.UpdateDeployment(old(World()), k, template, owned, expected)
    {
      var fault := Arrive();
      if k !in store.deployments || (expected.Some? && expected.value != store.deployments[k].version)
          || fault == Server.Refused {
        Finish(store, Server.NoEffect(Server.DEP, k));
        return false;
      }
      Finish(Server.WriteTemplate(store, k, template, owned), Server.Changed(Server.DEP, k));
      ok := fault == Server.NoFault;
    }

    method UpdateStatus(k: Key, status: NFStatus, expected: nat) returns (ok: bool)
      modifies this
      ensures (World(), ok) == Server.UpdateStatus(old(World()), k, status, expected)
    {
      var fault := Arrive();
      if k !in store.nfs || expected != store.nfs[k].version || fault == Server.Refused {
        Finish(store, Server.NoEffect(Server.NF, k));
        return false;
      }
      Finish(Server.WriteStatus(store, k, status), Server.Changed(Server.NF, k));
      ok := fault == Server.NoFault;
    }
  }
}
