/** Cloud-provider detection of the host-info page. The metadata services are
    reached over HTTP; here every request is an `Endpoint`, and the network
    is an oracle `Network` that gives the outcome of a request to an
    endpoint. No endpoint is requested twice in one detection run, so one
    reply per endpoint describes any run. */
module Cloud {
  import opened Wrappers

  /** Outcome of one HTTP GET: a transport error (DNS, connect, timeout),
      or a reply with its status code and its body. */
  datatype Resp = TransportErr | Reply(status: int, body: string)

  /** The metadata requests the detector can make. A field path is relative
      to the provider's metadata root. */
  datatype Endpoint =
    | AwsIdentity             // AWS instance-id presence probe
    | AwsField(path: string)  // AWS single-field fetch
    | GcpIdentity             // GCP instance/id presence probe
    | GcpField(path: string)  // GCP single-field fetch
    | AzureIdentity           // Azure instance presence probe

  type Network = Endpoint -> Resp

  /** What the page shows about the cloud. `extra == None` is Go's nil map. */
  datatype CloudInfo = CloudInfo(
    provider: string,
    region: string,
    zone: string,
    instance: string,
    extra: Option<map<string, string>>)

  /** The zero record `CloudInfo{}` that a probe returns on absence. */
  const NoCloud := CloudInfo("", "", "", "", None)

  /** The fallback `CloudInfo{Provider: "local"}`. */
  const Local := CloudInfo("local", "", "", "", None)

  const AwsRegionPath := "placement/region"
  const AwsZonePath := "placement/availability-zone"
  const AwsAmiPath := "ami-id"
  const AwsTypePath := "instance-type"
  const GcpRegionPath := "instance/region"
  const GcpZonePath := "instance/zone"
  const GcpMachinePath := "instance/machine-type"
  const GcpProjectPath := "project/project-id"
  const AzureMarker := "Azure VM detected"

  /** A presence probe confirms its provider only on a reply with status 200. */
  predicate Present(r: Resp)
  {
    r.Reply? && r.status == 200
  }

  /** A field fetch yields "" on a transport error and the body otherwise,
      whatever the status. */
  function FieldValue(r: Resp): string
  {
    match r
    case TransportErr => ""
    case Reply(_, body) => body
  }

  // ---------------------------------------------------------------------
  // Specification: the record each probe produces and the requests it makes

  function AwsInfo(net: Network): CloudInfo
  {
    var probe := net(AwsIdentity);
    if !Present(probe) then NoCloud
    else CloudInfo("aws",
                   FieldValue(net(AwsField(AwsRegionPath))),
                   FieldValue(net(AwsField(AwsZonePath))),
                   probe.body,
                   Some(map["AMI" := FieldValue(net(AwsField(AwsAmiPath))),
                            "Type" := FieldValue(net(AwsField(AwsTypePath)))]))
  }

  function AwsCalls(net: Network): seq<Endpoint>
  {
    if !Present(net(AwsIdentity)) then [AwsIdentity]
    else [AwsIdentity, AwsField(AwsRegionPath), AwsField(AwsZonePath),
          AwsField(AwsAmiPath), AwsField(AwsTypePath)]
  }

  function GcpInfo(net: Network): CloudInfo
  {
    var probe := net(GcpIdentity);
    if !Present(probe) then NoCloud
    else CloudInfo("gcp",
                   FieldValue(net(GcpField(GcpRegionPath))),
                   FieldValue(net(GcpField(GcpZonePath))),
                   probe.body,
                   Some(map["Machine" := FieldValue(net(GcpField(GcpMachinePath))),
                            "Project" := FieldValue(net(GcpField(GcpProjectPath)))]))
  }

  function GcpCalls(net: Network): seq<Endpoint>
  {
    if !Present(net(GcpIdentity)) then [GcpIdentity]
    else [GcpIdentity, GcpField(GcpRegionPath), GcpField(GcpZonePath),
          GcpField(GcpMachinePath), GcpField(GcpProjectPath)]
  }

  function AzureInfo(net: Network): CloudInfo
  {
    if !Present(net(AzureIdentity)) then NoCloud
    else CloudInfo("azure", "", "", "", Some(map["VM" := AzureMarker]))
  }

  function AzureCalls(net: Network): seq<Endpoint>
  {
    [AzureIdentity]
  }

  /** The whole run: the first probe whose record has a provider wins. */
  function DetectInfo(net: Network): CloudInfo
  {
    if AwsInfo(net).provider != "" then AwsInfo(net)
    else if GcpInfo(net).provider != "" then GcpInfo(net)
    else if AzureInfo(net).provider != "" then AzureInfo(net)
    else Local
  }

  function DetectCalls(net: Network): seq<Endpoint>
  {
    if AwsInfo(net).provider != "" then AwsCalls(net)
    else if GcpInfo(net).provider != "" then AwsCalls(net) + GcpCalls(net)
    else AwsCalls(net) + GcpCalls(net) + AzureCalls(net)
  }

  // ---------------------------------------------------------------------
  // The detector as the program runs it: every request goes through
  // `Request`, which consults the oracle and logs the endpoint.

  /** One HTTP GET: the network's reply, and the request as a log entry. */
  method Request(net: Network, e: Endpoint) returns (r: Resp, ghost calls: seq<Endpoint>)
    ensures r == net(e) && calls == [e]
  {
    r := net(e);
    calls := [e];
  }

  method AwsMeta(net: Network, path: string) returns (v: string, ghost calls: seq<Endpoint>)
    ensures calls == [AwsField(path)]
    ensures net(AwsField(path)).TransportErr? ==> v == ""
    ensures net(AwsField(path)).Reply? ==> v == net(AwsField(path)).body
  {
    var resp;
    resp, calls := Request(net, AwsField(path));
    if resp.TransportErr? {
      return "", calls;
    }
    v := resp.body;
  }

  method GcpMeta(net: Network, path: string) returns (v: string, ghost calls: seq<Endpoint>)
    ensures calls == [GcpField(path)]
    ensures net(GcpField(path)).TransportErr? ==> v == ""
    ensures net(GcpField(path)).Reply? ==> v == net(GcpField(path)).body
  {
    var resp;
    resp, calls := Request(net, GcpField(path));
    if resp.TransportErr? {
      return "", calls;
    }
    v := resp.body;
  }

  method DetectAws(net: Network) returns (info: CloudInfo, ghost calls: seq<Endpoint>)
    ensures info == AwsInfo(net) && calls == AwsCalls(net)
  {
    var resp;
    resp, calls := Request(net, AwsIdentity);
    if resp.TransportErr? || resp.status != 200 {
      return NoCloud, calls;
    }
    var id := resp.body;
    var region, c1 := AwsMeta(net, AwsRegionPath);
    var zone, c2 := AwsMeta(net, AwsZonePath);
    var ami, c3 := AwsMeta(net, AwsAmiPath);
    var typ, c4 := AwsMeta(net, AwsTypePath);
    calls := calls + c1 + c2 + c3 + c4;
    info := CloudInfo("aws", region, zone, id, Some(map["AMI" := ami, "Type" := typ]));
  }

  method DetectGcp(net: Network) returns (info: CloudInfo, ghost calls: seq<Endpoint>)
    ensures info == GcpInfo(net) && calls == GcpCalls(net)
  {
    var resp;
    resp, calls := Request(net, GcpIdentity);
    if resp.TransportErr? || resp.status != 200 {
      return NoCloud, calls;
    }
    var id := resp.body;
    var region, c1 := GcpMeta(net, GcpRegionPath);
    var zone, c2 := GcpMeta(net, GcpZonePath);
    var machine, c3 := GcpMeta(net, GcpMachinePath);
    var project, c4 := GcpMeta(net, GcpProjectPath);
    calls := calls + c1 + c2 + c3 + c4;
    info := CloudInfo("gcp", region, zone, id, Some(map["Machine" := machine, "Project" := project]));
  }

  method DetectAzure(net: Network) returns (info: CloudInfo, ghost calls: seq<Endpoint>)
    ensures info == AzureInfo(net) && calls == AzureCalls(net)
  {
    var resp;
    resp, calls := Request(net, AzureIdentity);
    if resp.TransportErr? || resp.status != 200 {
      return NoCloud, calls;
    }
    info := CloudInfo("azure", "", "", "", Some(map["VM" := AzureMarker]));
  }

  method DetectCloud(net: Network) returns (info: CloudInfo, ghost calls: seq<Endpoint>)
    ensures info == DetectInfo(net) && calls == DetectCalls(net)
  {
    var aws, c1 := DetectAws(net);
    calls := c1;
    if aws.provider != "" {
      return aws, calls;
    }
    var gcp, c2 := DetectGcp(net);
    calls := calls + c2;
    if gcp.provider != "" {
      return gcp, calls;
    }
    var azure, c3 := DetectAzure(net);
    calls := calls + c3;
    if azure.provider != "" {
      return azure, calls;
    }
    info := Local;
  }

  // ---------------------------------------------------------------------
  // Properties

  /** AWS probe: the zero record, and so an empty provider, exactly when the
      instance-id request failed or answered other than 200; otherwise an
      "aws" record whose instance is the probe body and whose extra has
      exactly the keys AMI and Type. */
  lemma AwsProbeRule(net: Network)
    ensures AwsInfo(net) == NoCloud <==> !Present(net(AwsIdentity))
    ensures AwsInfo(net).provider == "" <==> !Present(net(AwsIdentity))
    ensures Present(net(AwsIdentity)) ==>
              AwsInfo(net).provider == "aws" && AwsInfo(net).instance == net(AwsIdentity).body &&
              AwsInfo(net).extra.Some? && AwsInfo(net).extra.value.Keys == {"AMI", "Type"}
  {
  }

  /** GCP probe: the same presence rule on the instance/id request; on
      presence a "gcp" record whose extra has exactly Machine and Project. */
  lemma GcpProbeRule(net: Network)
    ensures GcpInfo(net) == NoCloud <==> !Present(net(GcpIdentity))
    ensures GcpInfo(net).provider == "" <==> !Present(net(GcpIdentity))
    ensures Present(net(GcpIdentity)) ==>
              GcpInfo(net).provider == "gcp" && GcpInfo(net).instance == net(GcpIdentity).body &&
              GcpInfo(net).extra.Some? && GcpInfo(net).extra.value.Keys == {"Machine", "Project"}
  {
  }

  /** Azure probe: the same presence rule; on presence a fixed record with
      no region, zone or instance and only the marker in extra. */
  lemma AzureProbeRule(net: Network)
    ensures AzureInfo(net) == NoCloud <==> !Present(net(AzureIdentity))
    ensures AzureInfo(net).provider == "" <==> !Present(net(AzureIdentity))
    ensures Present(net(AzureIdentity)) ==>
              AzureInfo(net) == CloudInfo("azure", "", "", "", Some(map["VM" := "Azure VM detected"]))
  {
  }

  /** Field-fetch rule: "" only when the request failed in transport or the
      body itself is empty; any reply, whatever its status, gives its body. */
  lemma FieldFetchRule(r: Resp)
    ensures FieldValue(r) == "" <==> r.TransportErr? || r.body == ""
    ensures r.Reply? ==> FieldValue(r) == r.body
  {
  }

  /** Strict priority, stated on presence: AWS before GCP before Azure
      before the local fallback. */
  lemma Priority(net: Network)
    ensures Present(net(AwsIdentity)) ==> DetectInfo(net) == AwsInfo(net)
    ensures !Present(net(AwsIdentity)) && Present(net(GcpIdentity)) ==> DetectInfo(net) == GcpInfo(net)
    ensures (!Present(net(AwsIdentity)) && !Present(net(GcpIdentity)) && Present(net(AzureIdentity)))
              ==> DetectInfo(net) == AzureInfo(net)
  {
  }

  predicate IsGcp(e: Endpoint) { e.GcpIdentity? || e.GcpField? }
  predicate IsAzure(e: Endpoint) { e.AzureIdentity? }

  /** Short circuit: once a probe confirms presence, no later provider's
      endpoint is requested; a later probe is requested exactly when every
      earlier one was absent. */
  lemma ShortCircuit(net: Network)
    ensures Present(net(AwsIdentity)) ==>
              forall e :: e in DetectCalls(net) ==> !IsGcp(e) && !IsAzure(e)
    ensures Present(net(GcpIdentity)) ==>
              forall e :: e in DetectCalls(net) ==> !IsAzure(e)
    ensures GcpIdentity in DetectCalls(net) <==> !Present(net(AwsIdentity))
    ensures AzureIdentity in DetectCalls(net) <==>
              !Present(net(AwsIdentity)) && !Present(net(GcpIdentity))
    ensures DetectCalls(net)[0] == AwsIdentity
  {
  }

  /** Number of outbound requests of one run: 5 when AWS is found, 6 when
      GCP is found, 3 otherwise (Azure found or local). */
  lemma CallCount(net: Network)
    ensures |DetectCalls(net)| ==
              if Present(net(AwsIdentity)) then 5
              else if Present(net(GcpIdentity)) then 6
              else 3
  {
  }

  /** The provider is never empty; it is "local" exactly when all three
      probes gave an empty provider, and then nothing else is set. */
  lemma LocalFallback(net: Network)
    ensures DetectInfo(net).provider in {"aws", "gcp", "azure", "local"}
    ensures DetectInfo(net).provider == "local" <==>
              AwsInfo(net).provider == "" && GcpInfo(net).provider == "" && AzureInfo(net).provider == ""
    ensures DetectInfo(net).provider == "local" ==> DetectInfo(net) == Local
  {
  }

  /** The identity of the record comes from the presence probe alone: field
      fetches, failed or not, never change the provider or the instance. */
  lemma IdentityFromProbe(n1: Network, n2: Network)
    requires n1(AwsIdentity) == n2(AwsIdentity) && n1(GcpIdentity) == n2(GcpIdentity)
    ensures AwsInfo(n1).provider == AwsInfo(n2).provider && AwsInfo(n1).instance == AwsInfo(n2).instance
    ensures GcpInfo(n1).provider == GcpInfo(n2).provider && GcpInfo(n1).instance == GcpInfo(n2).instance
  {
  }

  /** The same for a whole run: networks that agree on the three presence
      probes report the same provider and the same instance, whatever the
      field fetches return. */
  lemma DetectIdentityFromProbes(n1: Network, n2: Network)
    requires n1(AwsIdentity) == n2(AwsIdentity) && n1(GcpIdentity) == n2(GcpIdentity)
    requires n1(AzureIdentity) == n2(AzureIdentity)
    ensures DetectInfo(n1).provider == DetectInfo(n2).provider
    ensures DetectInfo(n1).instance == DetectInfo(n2).instance
  {
  }

  /** Only the requested endpoints matter: two networks that agree on every
      endpoint the run requests give the same record and the same requests.
      So repeating a run against an unchanged network gives the same result,
      and what a later probe would have answered has no effect. */
  lemma OnlyRequestedMatter(n1: Network, n2: Network)
    requires forall e :: e in DetectCalls(n1) ==> n1(e) == n2(e)
    ensures DetectCalls(n1) == DetectCalls(n2)
    ensures DetectInfo(n1) == DetectInfo(n2)
  {
  }

  /** A host on AWS whose region request times out is still reported as
      AWS, with an empty region and every other field as served. */
  lemma AwsRegionTimeout(net: Network)
    requires Present(net(AwsIdentity)) && net(AwsField(AwsRegionPath)) == TransportErr
    ensures DetectInfo(net).provider == "aws" && DetectInfo(net).region == ""
    ensures DetectInfo(net).instance == net(AwsIdentity).body
    ensures DetectInfo(net).zone == FieldValue(net(AwsField(AwsZonePath)))
  {
  }

  /** A metadata service as a test double would serve it: AWS answers the
      identity, region and zone requests; the AMI and type requests get a
      404 page; every other endpoint is unreachable. */
  function MockAws(e: Endpoint): Resp
  {
    match e
    case AwsIdentity => Reply(200, "i-0123456789")
    case AwsField(path) =>
      if path == AwsRegionPath then Reply(200, "us-east-1")
      else if path == AwsZonePath then Reply(200, "us-east-1a")
      else Reply(404, "Not Found")
    case _ => TransportErr
  }

  /** End to end against the double: the record is AWS with the served
      identity, region and zone; the 404 pages end up as the AMI and type,
      since field fetches do not look at the status; and the requests are
      the AWS probe and its four fields, in order, and nothing of GCP or
      Azure. */
  lemma MockAwsDetected()
    ensures DetectInfo(MockAws) ==
              CloudInfo("aws", "us-east-1", "us-east-1a", "i-0123456789",
                        Some(map["AMI" := "Not Found", "Type" := "Not Found"]))
    ensures DetectCalls(MockAws) ==
              [AwsIdentity, AwsField(AwsRegionPath), AwsField(AwsZonePath),
               AwsField(AwsAmiPath), AwsField(AwsTypePath)]
    ensures forall e :: e in DetectCalls(MockAws) ==> !IsGcp(e) && !IsAzure(e)
  {
  }
}
