/** The registry object: records updated field by field under its lock. */
module Registry {
  import opened Options
  import opened RegistrySpec

  class Store {
    var services: map<string, Service>
    var tombstones: map<string, Tombstone>

    constructor ()
      ensures State() == RegistrySpec.Registry(map[], map[])
    {
      services, tombstones := map[], map[];
    }

    function State(): RegistrySpec.Registry
      reads this
    {
      RegistrySpec.Registry(services, tombstones)
    }

    method Get(name: string) returns (s: Option<Service>)
      ensures s == RegistrySpec.Get(State(), name)
    {
      if name in services { s := Some(services[name]); } else { s := None; }
    }

    /** Stages a configuration; ports and running state of an existing record survive. */
    method Register(s: Service, now: int)
      modifies this
      ensures State() == RegistrySpec.Register(old(State()), s, now)
    {
      var t := s;
      if s.name in services {
        var existing := services[s.name];
        if existing.stablePorts != map[] {
          t := t.(stablePorts := existing.stablePorts);
        }
        t := t.(internalPorts := existing.internalPorts, status := existing.status, pid := existing.pid);
        t := t.(lastStartedAt := existing.lastStartedAt, startHistory := existing.startHistory);
        t := t.(crashAttempts := existing.crashAttempts, gaveUp := existing.gaveUp);
        t := t.(lastDeployedAt := existing.lastDeployedAt);
        if t.bind == "" {
          t := t.(bind := existing.bind);
        }
        t := t.(deployedAt := existing.deployedAt);
        if t.previous.None? {
          t := t.(previous := Some(TakeSnapshot(existing)));
        }
      } else {
        t := t.(deployedAt := now);
      }
      t := t.(bind := NormalBind(t.bind));
      t := t.(updatedAt := now);
      services := services[s.name := t];
    }

    method Restore(s: Service)
      modifies this
      ensures State() == RegistrySpec.Restore(old(State()), s)
    {
      services := services[s.name := s];
    }

    method UpdateStatus(name: string, status: Status, pid: int, now: int) returns (ok: bool)
      modifies this
      ensures (State(), ok) == RegistrySpec.UpdateStatus(old(State()), name, status, pid, now)
    {
      if name !in services { return false; }
      var s := services[name];
      if s.status == status && s.pid == pid { return true; }
      s := s.(status := status);
      s := s.(pid := pid);
      services := services[name := s.(updatedAt := now)];
      return true;
    }

    method UpdateLastDeployed(name: string, t: int, now: int) returns (ok: bool)
      modifies this
      ensures (State(), ok) == RegistrySpec.UpdateLastDeployed(old(State()), name, t, now)
    {
      if name !in services { return false; }
      services := services[name := services[name].(lastDeployedAt := t, updatedAt := now)];
      return true;
    }

    method UpdateCrashState(name: string, attempts: int, gaveUp: bool, now: int) returns (ok: bool)
      modifies this
      ensures (State(), ok) == RegistrySpec.UpdateCrashState(old(State()), name, attempts, gaveUp, now)
    {
      if name !in services { return false; }
      services := services[name := services[name].(crashAttempts := attempts, gaveUp := gaveUp, updatedAt := now)];
      return true;
    }

    method UpdateProcessStarted(name: string, ports: map<string, int>, startedAt: int, now: int) returns (ok: bool)
      modifies this
      ensures (State(), ok) == RegistrySpec.UpdateProcessStarted(old(State()), name, ports, startedAt, now)
    {
      if name !in services { return false; }
      var s := services[name].(internalPorts := ports, lastStartedAt := startedAt);
      s := s.(startHistory := s.startHistory + [StartEvent(startedAt, STILL_RUNNING, 0)]);
      if |s.startHistory| > MAX_HISTORY {
        s := s.(startHistory := s.startHistory[|s.startHistory| - MAX_HISTORY..]);
      }
      services := services[name := s.(updatedAt := now)];
      return true;
    }

    method MarkRunning(name: string, pid: int, lastDeployedAt: int, now: int) returns (ok: bool)
      modifies this
      ensures (State(), ok) == RegistrySpec.MarkRunning(old(State()), name, pid, lastDeployedAt, now)
    {
      if name !in services { return false; }
      var s := services[name].(status := Running, pid := pid);
      if lastDeployedAt != 0 {
        s := s.(lastDeployedAt := lastDeployedAt);
      }
      services := services[name := s.(crashAttempts := 0, gaveUp := false, updatedAt := now)];
      return true;
    }

    /** Scans the history backwards for the start that ended. */
    method CompleteStart(name: string, startedAt: int, exitCode: int, duration: int, now: int) returns (ok: bool)
      modifies this
      ensures (State(), ok) == RegistrySpec.CompleteStart(old(State()), name, startedAt, exitCode, duration, now)
    {
      if name !in services { return false; }
      var s := services[name];
      var i := |s.startHistory| - 1;
      while i >= 0
        invariant -1 <= i < |s.startHistory|
        invariant LastStart(s.startHistory, startedAt) <= i
        invariant services == old(services) && tombstones == old(tombstones)
      {
        if s.startHistory[i].startedAt == startedAt {
          var e := s.startHistory[i].(exitCode := exitCode, duration := duration);
          services := services[name := s.(startHistory := s.startHistory[i := e], updatedAt := now)];
          return true;
        }
        i := i - 1;
      }
      return false;
    }

    method Archive(name: string, now: int) returns (ok: bool)
      modifies this
      ensures (State(), ok) == RegistrySpec.Archive(old(State()), name, now)
    {
      if name !in services { return false; }
      var s := services[name];
      if s.status == Archived { return false; }
      if s.status == Running { return false; }
      s := s.(archivedFrom := Some(s.status));
      s := s.(status := Archived, archivedAt := now, pid := 0);
      services := services[name := s.(updatedAt := now)];
      return true;
    }

    method RestoreArchived(name: string, now: int) returns (ok: bool)
      modifies this
      ensures (State(), ok) == RegistrySpec.RestoreArchived(old(State()), name, now)
    {
      if name !in services || services[name].status != Archived { return false; }
      var s := services[name].(status := Stopped, archivedFrom := None, archivedAt := 0);
      services := services[name := s.(updatedAt := now)];
      return true;
    }

    method Prune(name: string, now: int) returns (tomb: Option<Tombstone>)
      modifies this
      ensures (State(), tomb) == RegistrySpec.Prune(old(State()), name, now)
    {
      if name !in services || services[name].status != Archived { return None; }
      var t := Tombstone(name, services[name].archivedAt, now, services[name].stablePorts);
      services := services - {name};
      tombstones := tombstones[name := t];
      return Some(t);
    }

    method Remove(name: string)
      modifies this
      ensures State() == RegistrySpec.Remove(old(State()), name)
    {
      services := services - {name};
    }

    /** Collects the non-zero stable ports, record by record. */
    method UsedPorts() returns (ports: set<int>)
      ensures ports == RegistrySpec.UsedPorts(State())
    {
      ports := {};
      var todo := services.Keys;
      while todo != {}
        invariant todo <= services.Keys
        invariant forall p :: p in ports <==> exists n, k :: n in services && n !in todo && k in services[n].stablePorts && services[n].stablePorts[k] == p && p != 0
        decreases todo
      {
        var n :| n in todo;
        ghost var before := ports;
        var names := services[n].stablePorts.Keys;
        while names != {}
          invariant names <= services[n].stablePorts.Keys
          invariant forall p :: p in ports <==> p in before || exists k :: k in services[n].stablePorts && k !in names && services[n].stablePorts[k] == p && p != 0
          decreases names
        {
          var k :| k in names;
          if services[n].stablePorts[k] != 0 {
            ports := ports + {services[n].stablePorts[k]};
          }
          names := names - {k};
        }
        todo := todo - {n};
      }
      assert forall p :: p in ports <==> p in RegistrySpec.UsedPorts(State());
    }
  }
}
