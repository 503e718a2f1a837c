/**
 * What one event does to the charm and its workload container, as functions of the
 * state before the event: `Configure` for pebble-ready and config-changed,
 * `StoreCertifier` and `StoreFluentd` for the two certificate-available events.
 * The classes in module Charm are proved to change their fields exactly as these
 * functions say; the lemmas below state what the charm promises about them.
 */
module Reconcile {
  import opened Wrappers
  import opened Text
  import opened Endpoint
  import opened Layers

  /** The unit status; Active carries no message. */
  datatype Status = Blocked(message: string) | Waiting(message: string) | Maintenance(message: string) | Active

  /** The workload container as the charm sees it through its Pebble client. */
  datatype ContainerState = ContainerState(
    canConnect: bool,
    files: map<string, string>,
    services: map<string, Service>,
    restarts: nat)

  /** Everything an event reads or writes; `deferred` says the event was deferred. */
  datatype CharmState = CharmState(
    config: Option<string>,
    relations: set<string>,
    container: ContainerState,
    status: Status,
    deferred: bool)

  /** The contents of the four bundled configuration files. */
  datatype ConfigBundle = ConfigBundle(forwardInput: string, general: string, output: string, system: string)

  const InvalidConfigMessage: string := "Config for elasticsearch is not valid. Format should be <hostname>:<port>"
  const MissingRelationsPrefix: string := "Waiting for relation(s) to be created: "
  const CertsMessage: string := "Waiting for certificates to be available."
  const ContainerMessage: string := "Waiting for container to be ready..."
  const ConfiguringMessage: string := "Configuring pod"

  const RequiredRelations: seq<string> := ["cert-certifier", "cert-fluentd"]

  /** The certificate files, under `/certs`. */
  const CertifierPath: string := "/certs/certifier.pem"
  const FluentdCertPath: string := "/certs/fluentd.pem"
  const FluentdKeyPath: string := "/certs/fluentd.key"

  /** The configuration files, under `/etc/fluent/config.d`. */
  const ForwardInputPath: string := "/etc/fluent/config.d/forward-input.conf"
  const GeneralPath: string := "/etc/fluent/config.d/general.conf"
  const OutputPath: string := "/etc/fluent/config.d/output.conf"
  const SystemPath: string := "/etc/fluent/config.d/system.conf"

  /** The required relations not established, in the order they are required. */
  function MissingRelations(required: seq<string>, established: set<string>): (missing: seq<string>)
    ensures forall x :: x in missing <==> x in required && x !in established
    ensures |missing| <= |required|
  {
    if required == [] then []
    else (if required[0] in established then [] else [required[0]]) + MissingRelations(required[1..], established)
  }

  /** The Blocked message of `_relations_created`: the prefix, then the names. */
  function RelationsMessage(missing: seq<string>): (message: string)
    ensures MissingRelationsPrefix <= message
    ensures |missing| == 1 ==> message == MissingRelationsPrefix + missing[0]
  {
    MissingRelationsPrefix + Join(missing, ", ")
  }

  /** `_certs_are_stored`: the container answers and holds all three certificate files. */
  predicate CertsStored(c: ContainerState): (stored: bool)
    ensures stored ==> c.canConnect
    ensures stored ==> {CertifierPath, FluentdCertPath, FluentdKeyPath} <= c.files.Keys
  {
    c.canConnect && CertifierPath in c.files && FluentdKeyPath in c.files && FluentdCertPath in c.files
  }

  /** `_write_config_files`: the four bundled files pushed into the config directory. */
  function WithConfigFiles(c: ContainerState, bundle: ConfigBundle): (r: ContainerState)
    ensures r.canConnect == c.canConnect && r.services == c.services && r.restarts == c.restarts
    ensures r.files.Keys == c.files.Keys + {ForwardInputPath, GeneralPath, OutputPath, SystemPath}
    ensures r.files[ForwardInputPath] == bundle.forwardInput && r.files[GeneralPath] == bundle.general
    ensures r.files[OutputPath] == bundle.output && r.files[SystemPath] == bundle.system
    ensures forall p :: p in c.files && p !in {ForwardInputPath, GeneralPath, OutputPath, SystemPath} ==>
               r.files[p] == c.files[p]
  {
    c.(files := c.files
      [ForwardInputPath := bundle.forwardInput]
      [GeneralPath := bundle.general]
      [OutputPath := bundle.output]
      [SystemPath := bundle.system])
  }

  /**
   * `_configure_pebble_layer`: when the plan's services differ from the layer's,
   * add the layer (its services replace same-named ones) and restart the service.
   */
  function WithLayer(c: ContainerState, layer: Layer): (r: ContainerState)
    ensures r.files == c.files && r.canConnect == c.canConnect
    ensures r.services.Keys == c.services.Keys + layer.services.Keys
    ensures forall n :: n in layer.services ==> r.services[n] == layer.services[n]
    ensures forall n :: n in c.services && n !in layer.services ==> r.services[n] == c.services[n]
    ensures r.restarts == c.restarts + (if c.services == layer.services then 0 else 1)
    ensures c.services.Keys <= layer.services.Keys ==> r.services == layer.services
  {
    if c.services != layer.services then
      c.(services := c.services + layer.services, restarts := c.restarts + 1)
    else c
  }

  /**
   * `_configure`: the guards in order (valid value, relations, certificates,
   * container), then the configuration files and the layer. The status passes
   * through Maintenance("Configuring pod") on the way to Active; only the final
   * status is visible once the event is handled.
   */
  function Configure(s: CharmState, bundle: ConfigBundle): (r: CharmState)
    ensures r.config == s.config && r.relations == s.relations
    ensures r.status == Active <==> GuardsPass(s)
    ensures r.deferred <==> UrlIsValid(s.config) && !GuardsPass(s)
    ensures !GuardsPass(s) ==> r.container == s.container
  {
    MissingRelationsInOrder(s.relations);
    var missing := MissingRelations(RequiredRelations, s.relations);
    if !UrlIsValid(s.config) then
      s.(status := Blocked(InvalidConfigMessage), deferred := false)
    else if missing != [] then
      s.(status := Blocked(RelationsMessage(missing)), deferred := true)
    else if !CertsStored(s.container) then
      s.(status := Waiting(CertsMessage), deferred := true)
    else if !s.container.canConnect then
      s.(status := Waiting(ContainerMessage), deferred := true)
    else
      DesiredLayerOfValidUrl(s.config);
      var layer := DesiredLayer(s.config).value;
      s.(container := WithLayer(WithConfigFiles(s.container, bundle), layer), status := Active, deferred := false)
  }

  /**
   * `_on_certifier_certificate_available`: never changes the plan, never reaches
   * Active by itself, and touches no file but the CA certificate.
   */
  function StoreCertifier(s: CharmState, certificate: string): (r: CharmState)
    ensures r.config == s.config && r.relations == s.relations
    ensures r.deferred <==> !s.container.canConnect
    ensures r.status == s.status || r.status == Waiting(ContainerMessage)
    ensures r.container.canConnect == s.container.canConnect
    ensures r.container.services == s.container.services && r.container.restarts == s.container.restarts
    ensures r.container.files.Keys <= s.container.files.Keys + {CertifierPath}
  {
    if !s.container.canConnect then
      s.(status := Waiting(ContainerMessage), deferred := true)
    else
      s.(container := s.container.(files := s.container.files[CertifierPath := certificate]), deferred := false)
  }

  /**
   * `_on_fluentd_certificate_available`: never changes the plan, never reaches
   * Active by itself, and touches no file but the client certificate and key.
   */
  function StoreFluentd(s: CharmState, certificate: string, privateKey: string): (r: CharmState)
    ensures r.config == s.config && r.relations == s.relations
    ensures r.deferred <==> !s.container.canConnect
    ensures r.status == s.status || r.status == Waiting(ContainerMessage)
    ensures r.container.canConnect == s.container.canConnect
    ensures r.container.services == s.container.services && r.container.restarts == s.container.restarts
    ensures r.container.files.Keys <= s.container.files.Keys + {FluentdCertPath, FluentdKeyPath}
  {
    if !s.container.canConnect then
      s.(status := Waiting(ContainerMessage), deferred := true)
    else
      s.(container := s.container.(files := s.container.files[FluentdCertPath := certificate][FluentdKeyPath := privateKey]), deferred := false)
  }

  // ---------------------------------------------------------------------------
  // Properties.

  /** Both relations established: exactly the prerequisite the second guard checks. */
  ghost predicate RelationsReady(relations: set<string>) {
    "cert-certifier" in relations && "cert-fluentd" in relations
  }

  /**
   * All four guards of `_configure` pass. There are three conjuncts because the
   * reachability guard is folded into `CertsStored`, which is false for an
   * unreachable container.
   */
  ghost predicate GuardsPass(s: CharmState) {
    UrlIsValid(s.config) && RelationsReady(s.relations) && CertsStored(s.container)
  }

  /**
   * The missing relations are listed in the order of REQUIRED_RELATIONS, and the
   * second guard fails exactly when a relation is missing.
   */
  lemma MissingRelationsInOrder(relations: set<string>)
    ensures MissingRelations(RequiredRelations, relations)
      == (if "cert-certifier" in relations then [] else ["cert-certifier"])
       + (if "cert-fluentd" in relations then [] else ["cert-fluentd"])
    ensures MissingRelations(RequiredRelations, relations) == [] <==> RelationsReady(relations)
  {
  }

  /** The messages of the second guard, one per combination of missing relations. */
  lemma RelationsMessages(relations: set<string>)
    requires !RelationsReady(relations)
    ensures RelationsMessage(MissingRelations(RequiredRelations, relations)) == MissingRelationsPrefix +
      if "cert-certifier" !in relations && "cert-fluentd" !in relations then "cert-certifier" + ", " + "cert-fluentd"
      else if "cert-certifier" !in relations then "cert-certifier"
      else "cert-fluentd"
  {
    MissingRelationsInOrder(relations);
    var missing := MissingRelations(RequiredRelations, relations);
    if |missing| == 2 {
      assert missing[1..] == ["cert-fluentd"];
      assert Join(missing, ", ") == missing[0] + ", " + Join(missing[1..], ", ");
    }
  }

  /**
   * A missing or invalid value blocks with the format message, is not deferred and
   * changes nothing in the container, whatever the relations and the container.
   */
  lemma ConfigureInvalidUrl(s: CharmState, bundle: ConfigBundle)
    requires !UrlIsValid(s.config)
    ensures Configure(s, bundle) == s.(status := Blocked(InvalidConfigMessage), deferred := false)
  {
  }

  /**
   * A valid value with a missing relation blocks with the missing names in order,
   * defers, and changes nothing in the container.
   */
  lemma ConfigureMissingRelations(s: CharmState, bundle: ConfigBundle)
    requires UrlIsValid(s.config) && !RelationsReady(s.relations)
    ensures var missing := (if "cert-certifier" in s.relations then [] else ["cert-certifier"])
                         + (if "cert-fluentd" in s.relations then [] else ["cert-fluentd"]);
      Configure(s, bundle) == s.(status := Blocked(MissingRelationsPrefix + Join(missing, ", ")), deferred := true)
  {
    MissingRelationsInOrder(s.relations);
  }

  /**
   * With the value valid and both relations there, an unreachable container or any
   * missing certificate file means waiting for certificates, a deferral, and no
   * change to the container.
   */
  lemma ConfigureCertsMissing(s: CharmState, bundle: ConfigBundle)
    requires UrlIsValid(s.config) && RelationsReady(s.relations)
    requires !s.container.canConnect || CertifierPath !in s.container.files
          || FluentdCertPath !in s.container.files || FluentdKeyPath !in s.container.files
    ensures Configure(s, bundle) == s.(status := Waiting(CertsMessage), deferred := true)
  {
    MissingRelationsInOrder(s.relations);
  }

  /**
   * `_configure` never ends in "Waiting for container to be ready...": the
   * certificate guard already fails whenever the container cannot be reached.
   */
  lemma ConfigureContainerGuardUnreachable(s: CharmState, bundle: ConfigBundle)
    ensures Configure(s, bundle).status != Waiting(ContainerMessage)
  {
  }

  /**
   * When every guard passes: the four configuration files hold the bundled contents
   * and no other file changes; the `fluentd-elasticsearch` plan entry is the desired
   * service and no other plan entry changes; the service is restarted once exactly
   * when the plan's services differed from the layer's; the status is Active.
   */
  lemma ConfigureSuccess(s: CharmState, bundle: ConfigBundle)
    requires GuardsPass(s)
    ensures DesiredLayer(s.config).Some?
    ensures var r := Configure(s, bundle);
      var layer := DesiredLayer(s.config).value;
      && r.status == Active && !r.deferred
      && r.config == s.config && r.relations == s.relations
      && r.container.canConnect
      && r.container.files.Keys == s.container.files.Keys + {ForwardInputPath, GeneralPath, OutputPath, SystemPath}
      && r.container.files[ForwardInputPath] == bundle.forwardInput
      && r.container.files[GeneralPath] == bundle.general
      && r.container.files[OutputPath] == bundle.output
      && r.container.files[SystemPath] == bundle.system
      && (forall p :: p in s.container.files && p !in {ForwardInputPath, GeneralPath, OutputPath, SystemPath}
            ==> r.container.files[p] == s.container.files[p])
      && r.container.services.Keys == s.container.services.Keys + {ServiceName}
      && r.container.services[ServiceName] == layer.services[ServiceName]
      && (forall n :: n in s.container.services && n != ServiceName ==> r.container.services[n] == s.container.services[n])
      && r.container.restarts == s.container.restarts + (if s.container.services != layer.services then 1 else 0)
  {
    ConfigureSuccessFiles(s, bundle);
    ConfigureSuccessPlan(s, bundle);
    ConfigureUnfolds(s, bundle);
  }

  /** The file half of `ConfigureSuccess`. */
  lemma ConfigureSuccessFiles(s: CharmState, bundle: ConfigBundle)
    requires GuardsPass(s)
    ensures Configure(s, bundle).container.files == WithConfigFiles(s.container, bundle).files
  {
    ConfigureUnfolds(s, bundle);
  }

  /** The plan half of `ConfigureSuccess`. */
  lemma ConfigureSuccessPlan(s: CharmState, bundle: ConfigBundle)
    requires GuardsPass(s)
    ensures DesiredLayer(s.config).Some?
    ensures var r := Configure(s, bundle).container;
      var layer := DesiredLayer(s.config).value;
      && r.canConnect
      && r.services.Keys == s.container.services.Keys + {ServiceName}
      && r.services[ServiceName] == layer.services[ServiceName]
      && (forall n :: n in s.container.services && n != ServiceName ==> r.services[n] == s.container.services[n])
      && r.restarts == s.container.restarts + (if s.container.services != layer.services then 1 else 0)
  {
    ConfigureUnfolds(s, bundle);
    var layer := DesiredLayer(s.config).value;
    var c1 := WithConfigFiles(s.container, bundle);
    assert c1.services == s.container.services && c1.restarts == s.container.restarts;
    assert layer.services.Keys == {ServiceName};
  }

  /** With every guard passing, `_configure` writes the files, then applies the layer. */
  lemma ConfigureUnfolds(s: CharmState, bundle: ConfigBundle)
    requires GuardsPass(s)
    ensures DesiredLayer(s.config).Some? && FixedShape(DesiredLayer(s.config).value)
    ensures Configure(s, bundle) == s.(container := WithLayer(WithConfigFiles(s.container, bundle), DesiredLayer(s.config).value),
                                       status := Active, deferred := false)
  {
    DesiredLayerOfValidUrl(s.config);
    MissingRelationsInOrder(s.relations);
  }

  /**
   * A plan holding no service but `fluentd-elasticsearch` ends up equal to the
   * desired layer's services after a successful `_configure`.
   */
  lemma ConfigurePlanMatchesLayer(s: CharmState, bundle: ConfigBundle)
    requires GuardsPass(s) && s.container.services.Keys <= {ServiceName}
    ensures DesiredLayer(s.config).Some?
    ensures Configure(s, bundle).container.services == DesiredLayer(s.config).value.services
  {
    ConfigureSuccess(s, bundle);
    var layer := DesiredLayer(s.config).value;
    assert Configure(s, bundle).container.services.Keys == layer.services.Keys;
  }

  /**
   * Idempotence: a second `_configure` with unchanged inputs changes nothing, so in
   * particular does not restart, provided the plan holds no other service. This
   * rests on the plan returning environment values as the charm built them; a Pebble
   * that hands back OUTPUT_PORT as the string "80" instead of the integer 80 would
   * make the plan differ, and restart, on every call.
   */
  lemma ConfigureIdempotent(s: CharmState, bundle: ConfigBundle)
    requires s.container.services.Keys <= {ServiceName}
    ensures Configure(Configure(s, bundle), bundle) == Configure(s, bundle)
  {
    if GuardsPass(s) {
      var r := Configure(s, bundle);
      ConfigureUnfolds(s, bundle);
      ConfigurePlanMatchesLayer(s, bundle);
      var c := r.container;
      var layer := DesiredLayer(s.config).value;
      assert c == WithLayer(WithConfigFiles(s.container, bundle), layer);
      assert GuardsPass(r);
      ConfigureUnfolds(r, bundle);
      assert WithConfigFiles(c, bundle).files == c.files;
      assert WithConfigFiles(c, bundle) == c;
      assert WithLayer(c, layer) == c;
    }
  }

  /** Two `_configure` calls in a row on a plan that needs the layer restart exactly once. */
  lemma ConfigureTwiceRestartsOnce(s: CharmState, bundle: ConfigBundle)
    requires GuardsPass(s) && s.container.services.Keys <= {ServiceName}
    requires DesiredLayer(s.config).Some? && s.container.services != DesiredLayer(s.config).value.services
    ensures Configure(Configure(s, bundle), bundle).container.restarts == s.container.restarts + 1
  {
    ConfigureSuccess(s, bundle);
    ConfigureIdempotent(s, bundle);
  }

  /**
   * The restart gate compares the whole services map: a plan that also holds a
   * service of another layer never equals the desired layer, so every successful
   * `_configure` restarts again.
   */
  lemma ForeignServiceRestartsEveryTime(s: CharmState, bundle: ConfigBundle, other: string)
    requires GuardsPass(s) && other in s.container.services && other != ServiceName
    ensures Configure(Configure(s, bundle), bundle).container.restarts == Configure(s, bundle).container.restarts + 1
  {
    ConfigureSuccess(s, bundle);
    var r := Configure(s, bundle);
    assert GuardsPass(r);
    ConfigureSuccess(r, bundle);
    assert other !in DesiredLayer(r.config).value.services;
  }

  /**
   * The certifier handler: an unreachable container gives Waiting and a deferral
   * and writes nothing; otherwise exactly `/certs/certifier.pem` is written with the
   * payload, and status, plan and restarts are unchanged.
   */
  lemma StoreCertifierEffect(s: CharmState, certificate: string)
    ensures var r := StoreCertifier(s, certificate);
      && r.config == s.config && r.relations == s.relations
      && (!s.container.canConnect ==>
            r.status == Waiting(ContainerMessage) && r.deferred && r.container == s.container)
      && (s.container.canConnect ==>
            && r.status == s.status && !r.deferred
            && r.container.files.Keys == s.container.files.Keys + {CertifierPath}
            && r.container.files[CertifierPath] == certificate
            && (forall p :: p in s.container.files && p != CertifierPath ==> r.container.files[p] == s.container.files[p])
            && r.container.(files := s.container.files) == s.container)
  {
  }

  /**
   * The fluentd handler: an unreachable container gives Waiting and a deferral and
   * writes nothing; otherwise exactly `/certs/fluentd.pem` and `/certs/fluentd.key`
   * are written with the two payloads, and status, plan and restarts are unchanged.
   */
  lemma StoreFluentdEffect(s: CharmState, certificate: string, privateKey: string)
    ensures var r := StoreFluentd(s, certificate, privateKey);
      && r.config == s.config && r.relations == s.relations
      && (!s.container.canConnect ==>
            r.status == Waiting(ContainerMessage) && r.deferred && r.container == s.container)
      && (s.container.canConnect ==>
            && r.status == s.status && !r.deferred
            && r.container.files.Keys == s.container.files.Keys + {FluentdCertPath, FluentdKeyPath}
            && r.container.files[FluentdCertPath] == certificate
            && r.container.files[FluentdKeyPath] == privateKey
            && (forall p :: p in s.container.files && p != FluentdCertPath && p != FluentdKeyPath
                  ==> r.container.files[p] == s.container.files[p])
            && r.container.(files := s.container.files) == s.container)
  {
  }

  /**
   * Once both certificate events have been handled on a reachable container, a
   * `_configure` with a valid value and both relations reaches Active, and the
   * three certificate files still hold the delivered payloads.
   */
  lemma CertificatesUnlockConfigure(s: CharmState, bundle: ConfigBundle, ca: string, certificate: string, privateKey: string)
    requires UrlIsValid(s.config) && RelationsReady(s.relations) && s.container.canConnect
    ensures var r := Configure(StoreFluentd(StoreCertifier(s, ca), certificate, privateKey), bundle);
      && r.status == Active
      && r.container.files[CertifierPath] == ca
      && r.container.files[FluentdCertPath] == certificate
      && r.container.files[FluentdKeyPath] == privateKey
  {
    var t := StoreFluentd(StoreCertifier(s, ca), certificate, privateKey);
    assert GuardsPass(t);
    ConfigureSuccess(t, bundle);
  }
}
