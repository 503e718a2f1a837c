/**
 * The charm's event handlers as methods on objects: `FluentdElasticsearchCharm`
 * holds the unit's view (configuration, established relations, status, whether the
 * current event was deferred) and a `Container`, the workload container reached
 * through Pebble. Each handler is proved to change the state exactly as the
 * matching function of module Reconcile says.
 */
module Charm {
  import opened Wrappers
  import opened Endpoint
  import opened Layers
  import opened Reconcile

  /** The workload container's Pebble client: reachability, files, plan, restarts. */
  class Container {
    var canConnect: bool
    var files: map<string, string>
    var services: map<string, Service>
    var restarts: nat

    constructor (canConnect: bool, files: map<string, string>, services: map<string, Service>)
      ensures Value() == ContainerState(canConnect, files, services, 0)
    {
      this.canConnect := canConnect;
      this.files := files;
      this.services := services;
      this.restarts := 0;
    }

    function Value(): ContainerState
      reads this
    {
      ContainerState(canConnect, files, services, restarts)
    }

    /** `can_connect()`. */
    method CanConnect() returns (connected: bool)
      ensures connected == canConnect
    {
      connected := canConnect;
    }

    /** `exists(path)`. */
    method Exists(path: string) returns (present: bool)
      requires canConnect
      ensures present == (path in files)
    {
      present := path in files;
    }

    /** `push(path, content)`: the file at `path` now holds `content`. */
    method Push(path: string, content: string)
      requires canConnect
      modifies this
      ensures Value() == old(Value()).(files := old(files)[path := content])
    {
      files := files[path := content];
    }

    /** `get_plan().services`. */
    method GetPlan() returns (plan: map<string, Service>)
      requires canConnect
      ensures plan == services
    {
      plan := services;
    }

    /**
     * `add_layer(label, layer, combine=True)` for a layer whose services all say
     * `override: replace`: each of them replaces the plan entry of the same name.
     */
    method AddLayer(layer: Layer)
      requires canConnect
      modifies this
      ensures Value() == old(Value()).(services := old(services) + layer.services)
    {
      services := services + layer.services;
    }

    /** `restart(name)` of a service in the plan. */
    method Restart(name: string)
      requires canConnect && name in services
      modifies this
      ensures Value() == old(Value()).(restarts := old(restarts) + 1)
    {
      restarts := restarts + 1;
    }
  }

  class FluentdElasticsearchCharm {
    var config: Option<string>
    var relations: set<string>
    const container: Container
    const bundle: ConfigBundle
    var status: Status
    var deferred: bool

    function State(): CharmState
      reads this, container
    {
      CharmState(config, relations, container.Value(), status, deferred)
    }

    constructor (config: Option<string>, relations: set<string>, container: Container,
                 bundle: ConfigBundle, status: Status)
      ensures this.container == container && this.bundle == bundle
      ensures State() == CharmState(config, relations, container.Value(), status, false)
    {
      this.config := config;
      this.relations := relations;
      this.container := container;
      this.bundle := bundle;
      this.status := status;
      this.deferred := false;
    }

    /**
     * `_relations_created`: true when both required relations are established;
     * otherwise the status is set to Blocked with the missing names.
     */
    method RelationsCreated() returns (created: bool)
      modifies this
      ensures created <==> RelationsReady(relations)
      ensures State() == if created then old(State())
        else old(State()).(status := Blocked(RelationsMessage(MissingRelations(RequiredRelations, relations))))
    {
      MissingRelationsInOrder(relations);
      var missing := MissingRelations(RequiredRelations, relations);
      if missing != [] {
        status := Blocked(RelationsMessage(missing));
        return false;
      }
      return true;
    }

    /** `_certs_are_stored`, asking the container for each of the three files. */
    method CertsAreStored() returns (stored: bool)
      ensures stored == CertsStored(container.Value())
    {
      var connected := container.CanConnect();
      if !connected {
        return false;
      }
      var certifier := container.Exists(CertifierPath);
      var key := container.Exists(FluentdKeyPath);
      var certificate := container.Exists(FluentdCertPath);
      stored := certifier && key && certificate;
    }

    /** `_write_to_file`: pushes bundled `content` to `destination`. */
    method WriteToFile(destination: string, content: string)
      requires container.canConnect
      modifies container
      ensures container.Value() == old(container.Value()).(files := old(container.files)[destination := content])
    {
      container.Push(destination, content);
    }

    /** `_write_config_files`. */
    method WriteConfigFiles()
      requires container.canConnect
      modifies container
      ensures container.Value() == WithConfigFiles(old(container.Value()), bundle)
    {
      WriteToFile(ForwardInputPath, bundle.forwardInput);
      WriteToFile(GeneralPath, bundle.general);
      WriteToFile(OutputPath, bundle.output);
      WriteToFile(SystemPath, bundle.system);
    }

    /** `_configure_pebble_layer`: add the layer and restart only when the plan differs. */
    method ConfigurePebbleLayer()
      requires UrlIsValid(config) && container.canConnect
      modifies container
      ensures DesiredLayer(config).Some?
      ensures container.Value() == WithLayer(old(container.Value()), DesiredLayer(config).value)
    {
      DesiredLayerOfValidUrl(config);
      var layer := DesiredLayer(config).value;
      var plan := container.GetPlan();
      if plan != layer.services {
        container.AddLayer(layer);
        container.Restart(ServiceName);
      }
    }

    /** `_configure`, the handler of pebble-ready and config-changed. */
    method Configure()
      modifies this, container
      ensures State() == Reconcile.Configure(old(State()), bundle)
    {
      deferred := false;
      if !UrlIsValid(config) {
        status := Blocked(InvalidConfigMessage);
        return;
      }
      var created := RelationsCreated();
      MissingRelationsInOrder(relations);
      if !created {
        deferred := true;
        return;
      }
      var stored := CertsAreStored();
      if !stored {
        status := Waiting(CertsMessage);
        deferred := true;
        return;
      }
      var connected := container.CanConnect();
      // The "Waiting for container to be ready..." branch cannot be taken while the
      // container stays reachable through the handler: the certificate guard has
      // already failed for an unreachable container.
      assert connected;
      status := Maintenance(ConfiguringMessage);
      WriteConfigFiles();
      ConfigurePebbleLayer();
      status := Active;
    }

    /** `_on_certifier_certificate_available`. */
    method OnCertifierCertificateAvailable(certificate: string)
      modifies this, container
      ensures State() == StoreCertifier(old(State()), certificate)
    {
      deferred := false;
      var connected := container.CanConnect();
      if !connected {
        status := Waiting(ContainerMessage);
        deferred := true;
        return;
      }
      container.Push(CertifierPath, certificate);
    }

    /** `_on_fluentd_certificate_available`. */
    method OnFluentdCertificateAvailable(certificate: string, privateKey: string)
      modifies this, container
      ensures State() == StoreFluentd(old(State()), certificate, privateKey)
    {
      deferred := false;
      var connected := container.CanConnect();
      if !connected {
        status := Waiting(ContainerMessage);
        deferred := true;
        return;
      }
      container.Push(FluentdCertPath, certificate);
      container.Push(FluentdKeyPath, privateKey);
    }
  }
}
