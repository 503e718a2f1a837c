/**
 * The Pebble layer the charm wants in its workload container (`_pebble_layer`):
 * one service, `fluentd-elasticsearch`, whose environment carries the parsed
 * Elasticsearch endpoint and fixed TLS and buffering settings.
 */
module Layers {
  import opened Wrappers
  import opened Endpoint

  /** An environment value: the layer mixes strings and integers. */
  datatype EnvValue = Str(s: string) | Int(i: int)

  /** One service entry of a layer or of the container's plan. */
  datatype Service = Service(
    override: string,
    summary: string,
    startup: string,
    command: string,
    environment: map<string, EnvValue>)

  /** A layer, reduced to its services (summary and description are not compared). */
  datatype Layer = Layer(services: map<string, Service>)

  /** Name of the container and of its one service. */
  const ServiceName: string := "fluentd-elasticsearch"

  const EnvKeys: set<string> := {
    "OUTPUT_HOST", "OUTPUT_PORT", "OUTPUT_SCHEMA", "OUTPUT_SSL_VERSION",
    "OUTPUT_BUFFER_CHUNK_LIMIT", "OUTPUT_BUFFER_QUEUE_LIMIT"}

  /**
   * The layer for an already split host and an integer port: the fixed service
   * entry, with the host and the port placed in its environment.
   */
  function PebbleLayer(host: string, port: int): (layer: Layer)
    ensures FixedShape(layer)
    ensures layer.services[ServiceName].environment["OUTPUT_HOST"] == Str(host)
    ensures layer.services[ServiceName].environment["OUTPUT_PORT"] == Int(port)
  {
    Layer(map[ServiceName := Service(
      "replace",
      "fluentd_elasticsearch",
      "enabled",
      "./run.sh",
      map[
        "OUTPUT_HOST" := Str(host),
        "OUTPUT_PORT" := Int(port),
        "OUTPUT_SCHEMA" := Str("https"),
        "OUTPUT_SSL_VERSION" := Str("TLSv1"),
        "OUTPUT_BUFFER_CHUNK_LIMIT" := Str("2M"),
        "OUTPUT_BUFFER_QUEUE_LIMIT" := Int(8)])])
  }

  /**
   * `_pebble_layer` read from the configuration: split the value, apply `int()` to
   * the port, build the layer. `None` stands for the exceptions Python raises on a
   * value that cannot be split or whose port is not an integer.
   */
  function DesiredLayer(config: Option<string>): (r: Option<Layer>)
    ensures UrlIsValid(config) ==> r.Some?
    ensures r.Some? ==> FixedShape(r.value)
    ensures r.Some? ==> ElasticsearchConfig(config).Some?
    ensures r.Some? ==> r.value.services[ServiceName].environment["OUTPUT_HOST"] == Str(ElasticsearchConfig(config).value.0)
  {
    ValidUrlPortParses(config);
    match ElasticsearchConfig(config)
    case None => None
    case Some((host, port)) =>
      match ParseInt(port)
      case None => None
      case Some(n) => Some(PebbleLayer(host, n))
  }

  /** A valid value splits, and its port part is accepted by `int()`. */
  lemma ValidUrlPortParses(config: Option<string>)
    ensures UrlIsValid(config) ==>
      ElasticsearchConfig(config).Some? && ParseInt(ElasticsearchConfig(config).value.1).Some?
  {
    if UrlIsValid(config) {
      ValidUrlSplits(config);
      ParsePortField(ElasticsearchConfig(config).value.1);
    }
  }

  /** The fixed part of the layer: what does not depend on the endpoint. */
  ghost predicate FixedShape(layer: Layer) {
    && layer.services.Keys == {ServiceName}
    && var svc := layer.services[ServiceName];
    && svc.override == "replace"
    && svc.summary == "fluentd_elasticsearch"
    && svc.startup == "enabled"
    && svc.command == "./run.sh"
    && svc.environment.Keys == EnvKeys
    && svc.environment["OUTPUT_SCHEMA"] == Str("https")
    && svc.environment["OUTPUT_SSL_VERSION"] == Str("TLSv1")
    && svc.environment["OUTPUT_BUFFER_CHUNK_LIMIT"] == Str("2M")
    && svc.environment["OUTPUT_BUFFER_QUEUE_LIMIT"] == Int(8)
  }

  /**
   * A valid value yields a layer: the single `fluentd-elasticsearch` service with
   * its fixed fields, whose OUTPUT_HOST is the text before the value's colon and
   * whose OUTPUT_PORT is the number written after it (newline dropped).
   */
  lemma DesiredLayerOfValidUrl(config: Option<string>)
    requires UrlIsValid(config)
    ensures DesiredLayer(config).Some?
    ensures FixedShape(DesiredLayer(config).value)
    ensures forall i :: ColonAt(config.value, i) ==>
      var env := DesiredLayer(config).value.services[ServiceName].environment;
      && env["OUTPUT_HOST"] == Str(config.value[..i])
      && env["OUTPUT_PORT"] == Int(DigitsValue(PortDigits(config.value[i + 1..])))
      && DigitsValue(PortDigits(config.value[i + 1..])) >= 0
  {
    ValidUrlSplits(config);
    var (host, port) := ElasticsearchConfig(config).value;
    ParsePortField(port);
    var env := DesiredLayer(config).value.services[ServiceName].environment;
    assert env.Keys == EnvKeys;
  }

  /** Formatting a host and port and reading the layer back gives that host and port. */
  lemma LayerOfFormattedUrl(host: string, port: nat, newline: bool)
    requires host != [] && AllHost(host)
    ensures DesiredLayer(Some(FormatUrl(host, port, newline))) == Some(PebbleLayer(host, port))
  {
    FormattedUrl(host, port, newline);
  }

  /** The value "blablabla:80": host "blablabla", integer port 80. */
  lemma ExampleLayer()
    ensures DesiredLayer(Some("blablabla:80")) == Some(PebbleLayer("blablabla", 80))
  {
    var host := "blablabla";
    assert AllHost(host);
    assert Decimal(80) == "80";
    assert FormatUrl(host, 80, false) == "blablabla:80";
    LayerOfFormattedUrl(host, 80, false);
  }
}
