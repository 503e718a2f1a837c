# Fluentd–Elasticsearch charm: a Dafny model of its reconciliation logic

The charm configures a Fluentd sidecar that ships logs to Elasticsearch over TLS.
It validates the `elasticsearch-url` setting (`host:port`) and waits for two
certificate relations, `cert-certifier` and `cert-fluentd`. It stores the delivered
certificates in the workload container, writes four Fluentd configuration files, and
keeps one Pebble service, `fluentd-elasticsearch`. That service is restarted only
when the plan differs from the desired layer.

The model follows `src/charm.py`:

- `wrappers.dfy` (`Wrappers`): `Option`. `None` stands for "absent" or for a Python exception.
- `text.dfy` (`Text`): `str.split` with a one-character separator and `str.join`, with both round trips.
- `endpoint.dfy` (`Endpoint`): the validator of `_elasticsearch_url_is_valid`, the
  split of `_get_elasticsearch_config`, and Python's `int()` on the port. The
  regular expression `^[a-zA-Z0-9._-]+:[0-9]+$` under `re.match` is run as a
  deterministic automaton (`Run`). The contract of `UrlIsValid` states that the
  automaton accepts exactly a declarative description of the language
  (`UrlPattern`), and `RunStart` proves it. Python's `$` also
  matches just before one final newline, so `"h:80\n"` is valid. `int()` then strips
  that newline, and the model does both exactly.
- `layer.dfy` (`Layers`): the layer built by `_pebble_layer`. It is reduced to its
  services map, because that map is all `_configure_pebble_layer` compares.
- `reconcile.dfy` (`Reconcile`): each event handler as a function from the state
  before the event to the state after it. The state is the configuration, the
  established relations, the container, the unit status and a `deferred` flag
  (`event.defer()`). The lemmas here state the charm's promises.
- `charm.dfy` (`Charm`): the handlers as methods of a class `FluentdElasticsearchCharm`.
  The class holds a `Container`, a class that stands for the Pebble client. Each
  handler is proved to change the fields exactly as the matching `Reconcile` function
  says.

Two points of `src/charm.py` that are easy to misread, modelled as the code has them:

- the layer environment has six keys, including `OUTPUT_SCHEMA` and `OUTPUT_SSL_VERSION`;
- the fourth guard of `_configure` ("Waiting for container to be ready...") cannot
  fire while the container stays reachable through the handler. `_certs_are_stored`
  is already false for an unreachable container (`ConfigureContainerGuardUnreachable`;
  the method asserts it at that point). The source asks `can_connect()` twice, at
  src/charm.py:224 and :78, so a container lost between those two calls would reach
  that branch; the model keeps reachability constant during one handler.

Two lemmas show consequences of comparing the whole services map. When the plan holds
only the charm's own service, a second `_configure` does nothing
(`ConfigureIdempotent`). This holds because the model compares environment values as
the charm builds them. A real Pebble plan returns them as strings, so `OUTPUT_PORT`
80 against "80" would make the gate differ, and restart, on every call. When the plan also holds a service from another layer, every
successful `_configure` restarts again (`ForeignServiceRestartsEveryTime`).

## Model

| member | source | states |
|---|---|---|
| `Text.Join` | src/charm.py:212 | `", ".join(...)`: no parts give the empty string, one part gives itself, and two or more start with the first part and the separator; `JoinSplit` and `SplitJoin` tie it to `Split` |
| `Endpoint.UrlIsValid` | src/charm.py:185-198 | `_elasticsearch_url_is_valid`: the value is valid iff present and made of one or more `[a-zA-Z0-9._-]`, `:`, one or more digits, and at most one trailing newline (`UrlPattern`), proved through the automaton by `RunStart`; see `MissingOrColonlessRejected`, `MalformedRejected`, `TrailingNewline` |
| `Endpoint.ElasticsearchConfig` | src/charm.py:179-183 | `_get_elasticsearch_config`: a host and a port exist iff the value is present and holds a colon, neither contains a colon, and host + ":" + port is a prefix of the value; `ValidUrlSplits` and `FormattedUrl` give the round trip |
| `Endpoint.ParseInt` | src/charm.py:168 | `int()` of the port: a non-empty digit string gives its digit value; `ParsePortField` and `DecimalRoundTrip` pin down the value |
| `Layers.PebbleLayer` | src/charm.py:149-177 | the layer has the fixed shape (one `fluentd-elasticsearch` service, replace, enabled, `./run.sh`, six environment keys with "https", "TLSv1", "2M", 8) and carries the given host and port |
| `Layers.DesiredLayer` | src/charm.py:149-183 | `_pebble_layer` read from the configuration: a valid value always yields a layer of the fixed shape whose OUTPUT_HOST is the split host; see `DesiredLayerOfValidUrl`, `LayerOfFormattedUrl`, `ExampleLayer` |
| `Reconcile.RelationsMessage` | src/charm.py:212 | the Blocked message starts with "Waiting for relation(s) to be created: " and is followed by the single missing name when one is missing; `RelationsMessages` gives all three cases |
| `Reconcile.CertsStored` | src/charm.py:217-243 | `_certs_are_stored`: true only for a reachable container holding all three certificate paths |
| `Reconcile.WithConfigFiles` | src/charm.py:123-147 | `_write_config_files`: the four config paths hold the four bundled contents, every other file, the plan and the restart count are unchanged |
| `Reconcile.WithLayer` | src/charm.py:114-121 | `_configure_pebble_layer`: the layer's services replace same-named plan entries and the others stay, the restart count grows by one iff the services differed, and a plan with no foreign service ends equal to the layer's services |
| `Reconcile.Configure` | src/charm.py:60-85 | `_configure`: the status is Active iff all guards pass, the event is deferred iff the value is valid and some later guard fails, and a failing guard leaves the container unchanged; see `ConfigureInvalidUrl`, `ConfigureMissingRelations`, `ConfigureCertsMissing`, `ConfigureContainerGuardUnreachable`, `ConfigureSuccess`, `ConfigureIdempotent` |
| `Reconcile.StoreCertifier` | src/charm.py:87-99 | `_on_certifier_certificate_available`: deferred iff the container is unreachable, status either kept or Waiting for the container, plan and restarts unchanged, no file but `/certs/certifier.pem` added; see `StoreCertifierEffect` |
| `Reconcile.StoreFluentd` | src/charm.py:101-112 | `_on_fluentd_certificate_available`: deferred iff the container is unreachable, status either kept or Waiting for the container, plan and restarts unchanged, no file but `/certs/fluentd.pem` and `/certs/fluentd.key` added; see `StoreFluentdEffect` |
| `Text.Split` | src/charm.py:182 | `str.split(":")` always yields at least one piece and no piece contains the separator |
| `Text.JoinSplit` | src/charm.py:182 | joining the pieces of a split with the separator gives back the original string |
| `Text.SplitJoin` | src/charm.py:182 | splitting a join of separator-free pieces gives back exactly those pieces |
| `Text.SplitAfter` | src/charm.py:182 | a separator-free prefix followed by the separator splits off as the first piece |
| `Text.SplitWithout` | src/charm.py:182 | a string without the separator splits into itself alone |
| `Endpoint.DigitsThenNewlinePortField` | src/charm.py:195 | what may follow the first port digit is exactly a port field, the empty string or a lone newline |
| `Endpoint.RunInPort` | src/charm.py:195 | after the first port digit the matcher accepts exactly digits optionally followed by one final newline |
| `Endpoint.RunAfterColon` | src/charm.py:195 | after the colon the matcher accepts exactly a port field (digits, optional final newline) |
| `Endpoint.RunInHost` | src/charm.py:195 | inside the host the matcher accepts exactly host characters, a colon, then a port field |
| `Endpoint.RunStart` | src/charm.py:195 | the matcher recognises exactly the language of the pattern |
| `Endpoint.MissingOrColonlessRejected` | src/charm.py:192-198 | the unset default, `""` and `"abcd1234"` are rejected |
| `Endpoint.MalformedRejected` | src/charm.py:195 | `":80"`, `"abcd:"` and `"abcd:12a"` are rejected |
| `Endpoint.TrailingNewline` | src/charm.py:195 | for a value not ending in a newline, appending one newline leaves it valid or invalid as it was (Python's `$`), and a value ending in two newlines is never valid |
| `Endpoint.ColonAtUnique` | src/charm.py:195 | a valid value has only one host/port colon |
| `Endpoint.ValidUrlSplits` | src/charm.py:179-183 | a valid value splits into exactly two parts: a non-empty colon-free host and a port field, with host + ":" + port equal to the value |
| `Endpoint.ParsePortField` | src/charm.py:168 | `int()` of a port field is the non-negative value of its digits; a trailing newline is ignored |
| `Endpoint.DigitsValue` | src/charm.py:168 | the value of a digit string is non-negative |
| `Endpoint.DecimalRoundTrip` | src/charm.py:168 | reading back the decimal representation of n gives n |
| `Endpoint.FormattedUrl` | src/charm.py:179-198 | "host:port" (optionally with one newline) is valid and splits and parses back to that host and port |
| `Layers.DesiredLayerOfValidUrl` | src/charm.py:155-177 | for a valid value the layer has the single service `fluentd-elasticsearch` (replace, enabled, `./run.sh`) with exactly six environment keys: OUTPUT_HOST the text before the colon, OUTPUT_PORT the integer after it, plus "https", "TLSv1", "2M" and 8 |
| `Layers.LayerOfFormattedUrl` | src/charm.py:149-183 | formatting a host and port and building the layer from it gives the layer of that host and port |
| `Layers.ExampleLayer` | src/charm.py:166-173 | the value `"blablabla:80"` gives OUTPUT_HOST "blablabla" and OUTPUT_PORT 80 |
| `Reconcile.MissingRelations` | src/charm.py:207-211 | a name is listed as missing iff it is required and not established |
| `Reconcile.MissingRelationsInOrder` | src/charm.py:207-211 | the missing names come in REQUIRED_RELATIONS order, and none is missing iff both relations exist |
| `Reconcile.RelationsMessages` | src/charm.py:212 | the blocked message lists the missing names joined by ", " for each of the three combinations |
| `Reconcile.ConfigureInvalidUrl` | src/charm.py:66-70 | an invalid or missing value sets Blocked with the format message, does not defer, and changes nothing else |
| `Reconcile.ConfigureMissingRelations` | src/charm.py:71-73 | a valid value with a relation missing sets Blocked with the missing names, defers, and changes no file, plan or restart count |
| `Reconcile.ConfigureCertsMissing` | src/charm.py:74-77 | with both relations, an unreachable container or any missing certificate file sets Waiting for certificates, defers, and changes nothing else |
| `Reconcile.ConfigureContainerGuardUnreachable` | src/charm.py:78-81 | `_configure` never ends waiting for the container |
| `Reconcile.ConfigureSuccess` | src/charm.py:82-85 | when all guards pass, the four config files hold the bundled contents, the service entry is the desired one, other files and services are unchanged, the restart count grows by one iff the services differed, and the status is Active |
| `Reconcile.ConfigurePlanMatchesLayer` | src/charm.py:114-120 | when the plan holds only the charm's service, after success the plan's services equal the layer's |
| `Reconcile.ConfigureIdempotent` | src/charm.py:114-121 | when the plan holds only the charm's service, a second `_configure` with unchanged inputs changes nothing (no restart) |
| `Reconcile.ConfigureTwiceRestartsOnce` | src/charm.py:118-120 | two `_configure` calls on a plan that needs the layer restart exactly once |
| `Reconcile.ForeignServiceRestartsEveryTime` | src/charm.py:118 | a plan with a service from another layer is restarted again on every successful `_configure` |
| `Reconcile.StoreCertifierEffect` | src/charm.py:87-99 | unreachable container: Waiting, deferred, nothing written; otherwise exactly `/certs/certifier.pem` gets the payload and status, plan and restarts are unchanged |
| `Reconcile.StoreFluentdEffect` | src/charm.py:101-112 | unreachable container: Waiting, deferred, nothing written; otherwise exactly `/certs/fluentd.pem` and `/certs/fluentd.key` get the payloads and nothing else changes |
| `Reconcile.CertificatesUnlockConfigure` | src/charm.py:217-232 | after both certificate events on a reachable container, `_configure` with a valid value and both relations reaches Active and the three certificate files hold the payloads |
| `Charm.Container.CanConnect` | src/charm.py:78 | reports whether the container is reachable |
| `Charm.Container.Exists` | src/charm.py:243 | reports whether a file is present |
| `Charm.Container.Push` | src/charm.py:147 | the pushed path holds the content; nothing else changes |
| `Charm.Container.GetPlan` | src/charm.py:117 | returns the plan's services map |
| `Charm.Container.AddLayer` | src/charm.py:119 | the layer's services replace same-named plan entries; nothing else changes |
| `Charm.Container.Restart` | src/charm.py:120 | the restart count grows by one; nothing else changes |
| `Charm.FluentdElasticsearchCharm.constructor` | src/charm.py:35-39 | the charm starts with the given configuration, relations, container and status, not deferred |
| `Charm.FluentdElasticsearchCharm.RelationsCreated` | src/charm.py:200-215 | true iff both relations exist; otherwise the status becomes Blocked with the missing names and nothing else changes |
| `Charm.FluentdElasticsearchCharm.CertsAreStored` | src/charm.py:217-243 | true iff the container is reachable and holds all three certificate files |
| `Charm.FluentdElasticsearchCharm.WriteToFile` | src/charm.py:143-147 | the destination holds the bundled content |
| `Charm.FluentdElasticsearchCharm.WriteConfigFiles` | src/charm.py:123-141 | the four config paths hold the four bundled contents |
| `Charm.FluentdElasticsearchCharm.ConfigurePebbleLayer` | src/charm.py:114-121 | adds the layer and restarts only when the plan's services differ from the layer's |
| `Charm.FluentdElasticsearchCharm.Configure` | src/charm.py:60-85 | the new state is `Reconcile.Configure` of the old state |
| `Charm.FluentdElasticsearchCharm.OnCertifierCertificateAvailable` | src/charm.py:87-99 | the new state is `Reconcile.StoreCertifier` of the old state and the payload |
| `Charm.FluentdElasticsearchCharm.OnFluentdCertificateAvailable` | src/charm.py:101-112 | the new state is `Reconcile.StoreFluentd` of the old state and the two payloads |

## Left out

- Event dispatch: the `observe` wiring and `main()` are left out. Each handler is a method. `event.defer()` sets `deferred`, which every handler first clears because each event is fresh. Redelivery of deferred events is not modelled.
- `KubernetesServicePatch` (port 24224 for the `fluentd` service) is left out. It is a side effect on the Kubernetes API made by a foreign library.
- The certificate relation libraries are left out. A relation's presence is a name in `relations`, and certificate payloads are opaque strings.
- Reading the bundled `src/config_files/*` from the charm's own filesystem is host I/O. The four contents are a `ConfigBundle` given to the charm's constructor.
- Pebble layer merging is modelled only as replacing same-named service entries, which is what `override: replace` with `combine=True` does. Layer labels, the layer's summary and description, and the restart log line are left out.
- Pebble converts environment values to strings when it stores a plan. The model compares values as the charm builds them (`OUTPUT_PORT` an integer), as the ops testing `Harness` stores them.
- Pebble's ConnectionError while the container is unreachable is not modelled. The container's operations require reachability, and reachability stays constant during one handler, so a container lost between the two `can_connect()` calls of `_configure` is not modelled.
- Changes to the configuration and to relations happen between events, outside the handlers. No operation of the model changes them.
- The transient Maintenance("Configuring pod") status is assigned by `Configure` but is overwritten by Active before the event ends. Only the final status appears in `Reconcile.Configure`.
- Endpoint.ParseInt: models `int()` on ASCII whitespace, an optional sign and ASCII digits only. Unicode digits and whitespace and `_` digit separators are absent, because the validator never lets such a port through. The interpreter's limit on the length of an integer string is not modelled either. Since CPython 3.11 (and 3.10.7, 3.9.14, 3.8.14, 3.7.14), `int()` raises ValueError on more than 4300 digits (`sys.get_int_max_str_digits()`). The validator accepts such a port, for example `"h:"` followed by 4301 digits. `_configure` then pushes the four configuration files (src/charm.py:83) and fails at src/charm.py:168, before `add_layer`, the restart and Active. The model's `int()` converts every digit string.
- Layers.DesiredLayer, Layers.DesiredLayerOfValidUrl, Endpoint.ParsePortField, Endpoint.FormattedUrl: they promise a layer and a parsed port for every valid value. That holds in the source only for ports of at most 4300 digits; a longer port raises in `int()` (see the `Endpoint.ParseInt` line).
- Reconcile.Configure, Reconcile.ConfigureSuccess, Reconcile.ConfigureIdempotent, Reconcile.CertificatesUnlockConfigure: when all guards pass they end Active with the layer applied. In the source that holds only for ports of at most 4300 digits; a longer port leaves the configuration files written, the plan unchanged and the hook failed, which the model does not represent.
- Two expectations in tests/test_charm.py are not encoded, because they contradict the code. The expected plan at lines 39-54 has no TLS keys, and lines 59-65 expect Active with no relations established.
