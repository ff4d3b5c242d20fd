/** The reconcilers, step by step against the API server, each proved equal to its pass function. */
module Reconcilers {
  import opened Prelude
  import opened Objects
  import opened Passes
  import opened ApiServers
  import Networks
  import Resources
  import SmfResources
  import Status

  /** Checks that every network of a Deployment's annotation has an attachment definition in its namespace. */
  method ValidateNetworkAttachmentDefinitions(client: ApiServer, namespace: string, annotation: Option<string>)
      returns (valid: bool)
    modifies client
    ensures (client.World(), valid) == Validate(old(client.World()), namespace, annotation)
  {
    if annotation.None? {
      return false;
    }
    var networks := Networks.Unmarshal(annotation.value);
    if networks.None? {
      return false;
    }
    var all := networks.value;
    assert all[0..] == all;
    for i := 0 to |all|
      invariant FindNads(client.World(), namespace, all[i..]) == FindNads(old(client.World()), namespace, all)
    {
      assert all[i..][0] == all[i] && all[i..][1..] == all[i + 1..];
      var found := client.GetNad(Key(namespace, all[i].name));
      if !found {
        return false;
      }
    }
    return true;
  }

  /** `syncStatus`, shared by the three reconcilers up to the name in the messages. */
  method SyncStatusOf(client: ApiServer, kind: Kind, k: Key, nf: NFDeployment, deployment: Deployment)
      returns (ok: bool)
    modifies client
    ensures (client.World(), ok) == SyncStatus(kind, old(client.World()), k, nf, deployment)
  {
    var seen := Status.Observation(deployment.generation, deployment.conditions);
    var status, update := Status.CreateNfDeploymentStatus(Subject(kind), seen, nf.status, client.store.clock);
    if update {
      ok := client.UpdateStatus(k, status, nf.version);
    } else {
      ok := true;
    }
  }

  /** The creation of a missing Deployment, the same in the three reconcilers; a failed creation is only logged. */
  method CreateOnceAttached(client: ApiServer, k: Key, deployment: Template) returns (outcome: Outcome)
    modifies client
    ensures (client.World(), outcome) == CreateBehindGate(old(client.World()), k, deployment)
  {
    var ok := ValidateNetworkAttachmentDefinitions(client, k.namespace, deployment.annotations.networks);
    if ok {
      var _ := client.CreateDeployment(k, deployment);
      return RequeueAfter(30);
    } else {
      return RequeueAfter(10);
    }
  }

  class UPFDeploymentReconciler {
    const client: ApiServer

    constructor (client: ApiServer)
      ensures this.client == client
    {
      this.client := client;
    }

    method Reconcile(k: Key) returns (outcome: Outcome)
      modifies client
      ensures (client.World(), outcome) == Passes.Reconcile(UPF, old(client.World()), k)
    {
      var got := client.GetNF(k);
      if got.NotFound? {
        return Finished;
      } else if got.Unavailable? {
        return Errored;
      }
      var nfDeployment := got.nf;

      var configMapFound := false;
      var configMapVersion := Empty;
      var currentConfigMap := client.GetConfigMap(k);
      if currentConfigMap.Some? {
        configMapFound := true;
        configMapVersion := Rev(currentConfigMap.value.version);
      }
      var deploymentFound := false;
      var currentDeployment := client.GetDeployment(k);
      if currentDeployment.Some? {
        deploymentFound := true;
      }
      ghost var seen := Snapshot(nfDeployment, currentConfigMap, true, currentDeployment);
      assert Passes.Reconcile(UPF, old(client.World()), k)
          == if deploymentFound then Maintain(UPF, client.World(), k, seen, currentDeployment.value)
              else BuildUp(UPF, client.World(), k, seen);

      if deploymentFound {
        var deployment := currentDeployment.value;
        if !deployment.deleting {
          var synced := SyncStatusOf(client, UPF, k, nfDeployment, deployment);
          if !synced {
            return Errored;
          }
        }
        if deployment.template.annotations.ConfigMapVersion() != configMapVersion {
          if deployment.template.annotations.IsNil() {
            return Panicked;
          }
          var rolled := client.UpdateDeployment(k, WithVersion(deployment.template, configMapVersion),
              deployment.owned, Some(deployment.version));
          return if rolled then Requeue else Errored;
        }
      }
      assert Passes.Reconcile(UPF, old(client.World()), k) == BuildUp(UPF, client.World(), k, seen);

      var configMap := Resources.CreateConfigMap(UPF, k.name, nfDeployment.spec, []);
      if configMap.Built? {
        if !configMapFound {
          var version := client.CreateConfigMap(k, configMap.value);
          if version.None? {
            return Errored;
          }
          configMapVersion := version.value;
        }
      } else {
        return if configMap.Crashed? then Panicked else Errored;
      }
      assert Passes.Reconcile(UPF, old(client.World()), k) == Deploy(UPF, client.World(), k, seen, configMapVersion);

      var deployment := Resources.CreateDeployment(UPF, configMapVersion, k.name, nfDeployment.spec);
      if deployment.Rejected? {
        return Errored;
      }
      if !deploymentFound {
        outcome := CreateOnceAttached(client, k, deployment.value);
        return;
      } else {
        var _ := client.UpdateDeployment(k, deployment.value, false, None);
      }
      return Finished;
    }
  }

  class AMFDeploymentReconciler {
    const client: ApiServer

    constructor (client: ApiServer)
      ensures this.client == client
    {
      this.client := client;
    }

    method Reconcile(k: Key) returns (outcome: Outcome)
      modifies client
      ensures (client.World(), outcome) == Passes.Reconcile(AMF, old(client.World()), k)
    {
      var got := client.GetNF(k);
      if got.NotFound? {
        return Finished;
      } else if got.Unavailable? {
        return Errored;
      }
      var amfDeployment := got.nf;

      var configMapFound := false;
      var configMapVersion := Empty;
      var currentConfigMap := client.GetConfigMap(k);
      if currentConfigMap.Some? {
        configMapFound := true;
        configMapVersion := Rev(currentConfigMap.value.version);
      }
      var serviceFound := client.GetService(k);
      var deploymentFound := false;
      var currentDeployment := client.GetDeployment(k);
      if currentDeployment.Some? {
        deploymentFound := true;
      }
      ghost var seen := Snapshot(amfDeployment, currentConfigMap, serviceFound, currentDeployment);

      if deploymentFound {
        var deployment := currentDeployment.value;
        if !deployment.deleting {
          var synced := SyncStatusOf(client, AMF, k, amfDeployment, deployment);
          if !synced {
            return Errored;
          }
        }
        if deployment.template.annotations.ConfigMapVersion() != configMapVersion {
          if deployment.template.annotations.IsNil() {
            return Panicked;
          }
          var rolled := client.UpdateDeployment(k, WithVersion(deployment.template, configMapVersion),
              deployment.owned, Some(deployment.version));
          return if rolled then Requeue else Errored;
        }
      }
      assert Passes.Reconcile(AMF, old(client.World()), k) == EnsureConfigMap(AMF, client.World(), k, seen, []);

      var configMap := Resources.CreateConfigMap(AMF, k.name, amfDeployment.spec, []);
      if configMap.Built? {
        if !configMapFound {
          var version := client.CreateConfigMap(k, configMap.value);
          if version.None? {
            return Errored;
          }
          configMapVersion := version.value;
        }
      } else {
        return if configMap.Crashed? then Panicked else Errored;
      }

      if !serviceFound {
        var created := client.CreateService(k);
        if !created {
          return Errored;
        }
      }

      var deployment := Resources.CreateDeployment(AMF, configMapVersion, k.name, amfDeployment.spec);
      if deployment.Rejected? {
        return Errored;
      }
      outcome := Finished;
      if !deploymentFound {
        outcome := CreateOnceAttached(client, k, deployment.value);
      }
    }
  }

  class SMFDeploymentReconciler {
    const client: ApiServer

    constructor (client: ApiServer)
      ensures this.client == client
    {
      this.client := client;
    }

    /** Fetches the referenced Configs, skipping those already in the list; nothing when one cannot be read. */
    method GetAllConfigRefs(namespace: string, parametersRefs: seq<string>) returns (r: Option<seq<ConfigRef>>)
      modifies client
      ensures (client.World(), r) == FetchRefs(old(client.World()), namespace, parametersRefs, [])
    {
      var configRefs: seq<ConfigRef> := [];
      assert parametersRefs[0..] == parametersRefs;
      for i := 0 to |parametersRefs|
        invariant FetchRefs(client.World(), namespace, parametersRefs[i..], configRefs)
               == FetchRefs(old(client.World()), namespace, parametersRefs, [])
      {
        assert parametersRefs[i..][0] == parametersRefs[i] && parametersRefs[i..][1..] == parametersRefs[i + 1..];
        var key := Key(namespace, parametersRefs[i]);
        var payload := client.GetConfig(key);
        if payload.None? {
          return None;
        }
        var configRef := ConfigRef(key, payload.value);
        var duplicate := SmfResources.IsDuplicate(configRefs, configRef);
        if duplicate {
          continue;
        }
        configRefs := configRefs + [configRef];
      }
      return Some(configRefs);
    }

    method Reconcile(k: Key) returns (outcome: Outcome)
      modifies client
      ensures (client.World(), outcome) == Passes.Reconcile(SMF, old(client.World()), k)
    {
      var got := client.GetNF(k);
      if got.NotFound? {
        return Finished;
      } else if got.Unavailable? {
        return Errored;
      }
      var smfDeployment := got.nf;

      var configMapFound := false;
      var configMapVersion := Empty;
      var currentConfigMap := client.GetConfigMap(k);
      if currentConfigMap.Some? {
        configMapFound := true;
        configMapVersion := Rev(currentConfigMap.value.version);
      }
      var serviceFound := client.GetService(k);
      var deploymentFound := false;
      var currentDeployment := client.GetDeployment(k);
      if currentDeployment.Some? {
        deploymentFound := true;
      }
      ghost var seen := Snapshot(smfDeployment, currentConfigMap, serviceFound, currentDeployment);
      assert Passes.Reconcile(SMF, old(client.World()), k)
          == if deploymentFound then Maintain(SMF, client.World(), k, seen, currentDeployment.value)
              else BuildUp(SMF, client.World(), k, seen);

      if deploymentFound {
        var deployment := currentDeployment.value;
        if !deployment.deleting {
          var synced := SyncStatusOf(client, SMF, k, smfDeployment, deployment);
          if !synced {
            return Errored;
          }
        }
        if deployment.template.annotations.ConfigMapVersion() != configMapVersion {
          if deployment.template.annotations.IsNil() {
            return Panicked;
          }
          var rolled := client.UpdateDeployment(k, WithVersion(deployment.template, configMapVersion),
              deployment.owned, Some(deployment.version));
          return if rolled then Requeue else Errored;
        }
      }
      assert Passes.Reconcile(SMF, old(client.World()), k) == BuildUp(SMF, client.World(), k, seen);

      var smfConfigRefs := GetAllConfigRefs(k.namespace, smfDeployment.spec.parametersRefs);
      if smfConfigRefs.None? {
        return Errored;
      }

      var configMap := Resources.CreateConfigMap(SMF, k.name, smfDeployment.spec, smfConfigRefs.value);
      if configMap.Built? {
        if !configMapFound {
          var version := client.CreateConfigMap(k, configMap.value);
          if version.None? {
            return Errored;
          }
          configMapVersion := version.value;
        }
      } else {
        return if configMap.Crashed? then Panicked else Errored;
      }

      if !serviceFound {
        var created := client.CreateService(k);
        if !created {
          return Errored;
        }
      }
      assert Passes.Reconcile(SMF, old(client.World()), k) == Deploy(SMF, client.World(), k, seen, configMapVersion);

      var deployment := Resources.CreateDeployment(SMF, configMapVersion, k.name, smfDeployment.spec);
      if deployment.Rejected? {
        return Errored;
      }
      if !deploymentFound {
        outcome := CreateOnceAttached(client, k, deployment.value);
        return;
      } else {
        var _ := client.UpdateDeployment(k, deployment.value, false, None);
      }
      return Finished;
    }
  }

  class NFDeploymentReconciler {
    const client: ApiServer

    constructor (client: ApiServer)
      ensures this.client == client
    {
      this.client := client;
    }

    method Reconcile(k: Key) returns (outcome: Outcome)
      modifies client
      ensures (client.World(), outcome) == Dispatch(old(client.World()), k)
    {
      var got := client.GetNF(k);
      if got.NotFound? {
        return Finished;
      } else if got.Unavailable? {
        return Errored;
      }
      var upfReconciler := new UPFDeploymentReconciler(client);
      var amfReconciler := new AMFDeploymentReconciler(client);
      var smfReconciler := new SMFDeploymentReconciler(client);
      match got.nf.spec.provider {
        case Free5gc(UPF) => outcome := upfReconciler.Reconcile(k);
        case Free5gc(SMF) => outcome := smfReconciler.Reconcile(k);
        case Free5gc(AMF) => outcome := amfReconciler.Reconcile(k);
        case OtherProvider(_) => return Finished;
      }
      if outcome.Errored? {
        outcome := Finished;
      }
    }
  }
}
