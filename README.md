# Host-info server: environment parsing and cloud detection

A model of the decision logic of a small diagnostic HTTP server
(`cmd/server/hostinfo.go`) that shows the identity of the host it runs on.
Three parts of it carry logic once the network and the operating system are
treated as inputs:

- **Environment snapshot** (`getEnv`, module `Env`, `env.dfy`): the process
  environment, a sequence of `KEY=VALUE` strings, becomes a map. Each entry is
  split at its first `=`; entries without `=` are skipped; a later entry
  overwrites an earlier one with the same key. `GetEnv` keeps the source's two
  nested loops (entries, then characters up to the first `=`) and is proved
  equal to the specification `EnvOf`, about which the key set, last-wins and
  skip properties are proved.
- **Cloud detection** (`detectCloud`, `detectAWS`, `detectGCP`,
  `detectAzure`, `awsMeta`, `gcpMeta`, module `Cloud`, `cloud.dfy`). Each HTTP
  request is an `Endpoint`; the network is an oracle `Network = Endpoint ->
  Resp`, where `Resp` is `TransportErr` (Go's `err != nil`) or
  `Reply(status, body)`. A detection run never requests the same endpoint
  twice, so one reply per endpoint describes any run. Each method returns its
  record and a ghost log of the requests it made, in order, and is proved
  equal to a specification function (`AwsInfo`/`AwsCalls`, …,
  `DetectInfo`/`DetectCalls`). The lemmas state the presence rule, the field
  fetch rule, the priority chain AWS → GCP → Azure → `local`, the short
  circuit, the record shapes, and that only the requested endpoints influence
  the result. Go's nil map is `None` in `CloudInfo.extra`.
- **Port default** (module `Server`, `server.dfy`): an empty `PORT` gives
  `8080`, any other value is used unchanged.

Two behaviours of the code that are easy to misread, and that the model
keeps as written:

- `awsMeta` and `gcpMeta` check only the transport error, not the status, so
  a 404 page becomes the field's value (`Cloud.FieldFetchRule`,
  `Cloud.MockAwsDetected`). Only the presence probes require status 200.
- A run makes 5 requests when AWS is found, 6 when GCP is found (the failed
  AWS probe, then the GCP probe and its four fields) and 3 otherwise: the
  three presence probes (`Cloud.CallCount`).

Since the model is a function of the network's replies, repeating a run
against an unchanged network gives the same record; `Cloud.OnlyRequestedMatter`
states the stronger fact that only the replies of requested endpoints matter.

## Model

| member | source | states |
|---|---|---|
| `Env.FirstEq` | cmd/server/hostinfo.go:122-123 | the position found holds an `=` and none comes before it; None exactly when the entry has no `=` |
| `Env.Split` | cmd/server/hostinfo.go:121-124 | splits an entry at its first `=` into (key, value); None exactly when there is no `=`, and otherwise the entry is key + "=" + value with no `=` in key |
| `Env.SplitIsFirstEq` | cmd/server/hostinfo.go:121-126 | an entry splits as (k, v) iff it is k + "=" + v with no `=` in k, so the value may contain `=`; no split iff no `=` |
| `Env.EnvOf` | cmd/server/hostinfo.go:118-130 | the map `getEnv` builds, defined by processing the entries first to last: an entry without `=` is skipped, one with `=` sets its key to its value (characterised by `Env.EnvKeys`, `Env.LastWins`, `Env.NoEqIgnored`) |
| `Env.EnvKeys` | cmd/server/hostinfo.go:120-128 | the map's keys are exactly the first-`=` prefixes of the entries that contain `=` |
| `Env.LastWins` | cmd/server/hostinfo.go:120-124 | when entry i has key k and value v and no later entry has key k, the map gives v for k |
| `Env.NoEqIgnored` | cmd/server/hostinfo.go:122-127 | inserting an entry without `=` anywhere in the sequence leaves the map unchanged |
| `Env.GetEnv` | cmd/server/hostinfo.go:118-130 | the nested loops with the early break at the first `=` build exactly `EnvOf` of the entries |
| `Cloud.Present` | cmd/server/hostinfo.go:152-154 | the presence test shared by the three probes: a reply with status exactly 200; a transport error or any other status is absence (same test at lines 193-195 and 235-237) |
| `Cloud.FieldValue` | cmd/server/hostinfo.go:177-182 | the field-fetch result: "" on a transport error, the body on any reply whatever its status (same rule at lines 219-224; characterised by `Cloud.FieldFetchRule`) |
| `Cloud.AwsInfo` | cmd/server/hostinfo.go:145-172 | the record `detectAWS` returns: `CloudInfo{}` without presence, otherwise aws with region, zone, the probe body as instance and extra {AMI, Type} from the four field fetches (characterised by `Cloud.AwsProbeRule`) |
| `Cloud.AwsCalls` | cmd/server/hostinfo.go:145-172 | the requests `detectAWS` makes: the instance-id probe, then on presence region, zone, ami-id, instance-type in that order |
| `Cloud.GcpInfo` | cmd/server/hostinfo.go:185-210 | the record `detectGCP` returns: `CloudInfo{}` without presence, otherwise gcp with region, zone, the probe body as instance and extra {Machine, Project} (characterised by `Cloud.GcpProbeRule`) |
| `Cloud.GcpCalls` | cmd/server/hostinfo.go:185-210 | the requests `detectGCP` makes: the instance/id probe, then on presence region, zone, machine-type, project-id in that order |
| `Cloud.AzureInfo` | cmd/server/hostinfo.go:227-246 | the record `detectAzure` returns: `CloudInfo{}` without presence, otherwise azure with only the VM marker in extra (characterised by `Cloud.AzureProbeRule`) |
| `Cloud.AzureCalls` | cmd/server/hostinfo.go:227-237 | the single request `detectAzure` makes: its presence probe |
| `Cloud.DetectInfo` | cmd/server/hostinfo.go:132-143 | the record `detectCloud` returns: the first of the AWS, GCP and Azure records with a non-empty provider, else `CloudInfo{Provider: "local"}` (characterised by `Cloud.Priority`, `Cloud.LocalFallback`) |
| `Cloud.DetectCalls` | cmd/server/hostinfo.go:132-143 | the requests of a run: AWS's, then GCP's only if AWS gave an empty provider, then Azure's only if GCP did too (characterised by `Cloud.ShortCircuit`, `Cloud.CallCount`) |
| `Cloud.Request` | cmd/server/hostinfo.go:151 | one GET: the reply is the network's reply for that endpoint and the log records exactly that endpoint; every oracle read of the detector goes through it |
| `Cloud.AwsMeta` | cmd/server/hostinfo.go:174-183 | one request to the AWS field endpoint; "" on transport error, the body on any reply whatever its status |
| `Cloud.GcpMeta` | cmd/server/hostinfo.go:212-225 | one request to the GCP field endpoint; "" on transport error, the body on any reply whatever its status |
| `Cloud.DetectAws` | cmd/server/hostinfo.go:145-172 | the record and the ordered requests (probe, region, zone, AMI, type; probe only on absence) are those of `AwsInfo`/`AwsCalls` |
| `Cloud.DetectGcp` | cmd/server/hostinfo.go:185-210 | the record and the ordered requests (probe, region, zone, machine, project; probe only on absence) are those of `GcpInfo`/`GcpCalls` |
| `Cloud.DetectAzure` | cmd/server/hostinfo.go:227-246 | the record and the single probe request are those of `AzureInfo`/`AzureCalls` |
| `Cloud.DetectCloud` | cmd/server/hostinfo.go:132-143 | the record and the request log of a run are `DetectInfo`/`DetectCalls`: each probe is run only after the earlier ones gave an empty provider |
| `Cloud.AwsProbeRule` | cmd/server/hostinfo.go:145-172 | `CloudInfo{}` (empty provider) iff the instance-id request failed or its status is not 200; otherwise provider aws, instance the probe body, extra with exactly the keys AMI and Type |
| `Cloud.GcpProbeRule` | cmd/server/hostinfo.go:185-210 | `CloudInfo{}` (empty provider) iff the instance/id request failed or its status is not 200; otherwise provider gcp, instance the probe body, extra with exactly the keys Machine and Project |
| `Cloud.AzureProbeRule` | cmd/server/hostinfo.go:227-246 | `CloudInfo{}` (empty provider) iff the probe failed or its status is not 200; otherwise provider azure, empty region, zone and instance, extra exactly {VM: "Azure VM detected"} |
| `Cloud.FieldFetchRule` | cmd/server/hostinfo.go:176-182 | a field is "" iff the request failed in transport or the body is empty; any reply gives its body regardless of status |
| `Cloud.Priority` | cmd/server/hostinfo.go:132-141 | AWS presence gives the AWS record; else GCP presence the GCP record; else Azure presence the Azure record |
| `Cloud.ShortCircuit` | cmd/server/hostinfo.go:133-139 | the AWS probe is requested first; after AWS presence no GCP or Azure endpoint is requested, after GCP presence no Azure one; GCP (Azure) is probed iff all earlier probes were absent |
| `Cloud.CallCount` | cmd/server/hostinfo.go:132-246 | a run makes 5 requests when AWS is present, 6 when GCP is, 3 otherwise |
| `Cloud.LocalFallback` | cmd/server/hostinfo.go:142 | the provider is one of aws, gcp, azure, local and never empty; local iff all three probes gave an empty provider, and then region, zone, instance are empty and extra is nil |
| `Cloud.IdentityFromProbe` | cmd/server/hostinfo.go:157-166 | provider and instance depend only on the presence probe's reply, so a failed field fetch never changes them |
| `Cloud.DetectIdentityFromProbes` | cmd/server/hostinfo.go:132-143 | networks agreeing on the three presence probes give a run with the same provider and instance, so failed field fetches never change them |
| `Cloud.OnlyRequestedMatter` | cmd/server/hostinfo.go:132-143 | two networks agreeing on every requested endpoint give the same record and the same requests; unrequested probes have no influence |
| `Cloud.AwsRegionTimeout` | cmd/server/hostinfo.go:159-166 | a region timeout on AWS still reports aws, with region "" and instance and zone as served |
| `Cloud.MockAwsDetected` | cmd/server/hostinfo.go:145-172 | against a double serving AWS identity, region and zone (and 404 for AMI/type) the run reports that AWS record, 404 bodies included, and requests exactly the AWS probe, region, zone, AMI and type, in that order, and no GCP or Azure endpoint |
| `Server.ListenPort` | cmd/server/hostinfo.go:70-73 | the port is never empty; a non-empty PORT is used unchanged, an empty one gives 8080 |

## Left out

- HTTP traffic itself: URLs, the `Metadata-Flavor: Google` and `Metadata: true` headers, the Azure API-version query and the 500 ms / 300 ms client timeouts. A request is only its `Endpoint`, and its outcome is the oracle's `Resp`; a timeout is a `TransportErr`.
- Errors of `io.ReadAll` on a reply body, which the source ignores: the body is a given string.
- Closing response bodies (`defer resp.Body.Close()`), which has no effect on the result.
- Server setup: template parsing and rendering, route registration, `ListenAndServe`, the start-up message; only the PORT default is modelled.
- `healthHandler`, which writes a constant JSON reply and has no logic.
- `getHostname`, `getIPs`, `getMACs`: thin wrappers over the operating system's interface list whose behaviour lives in library code.
- `startTime` and the RFC 3339 time formatting: clock reads and library formatting.
- `detectKubernetes`: never called, and it returns `Enabled: false` in every case.
- Concurrency between requests, which the Go HTTP server handles; each detection run is sequential.
- Env.GetEnv: Go converts each entry to runes, so an invalid UTF-8 byte becomes U+FFFD; the model takes the entries as sequences of characters already.
- Server.ListenPort: takes the PORT value as given; how the operating system resolves a duplicated PORT entry for `os.Getenv` is library behaviour.
