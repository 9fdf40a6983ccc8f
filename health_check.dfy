/** The health aggregator: probe every configured service and fold the outcomes into one verdict. */
module HealthCheck {
  import opened Http

  datatype Service = Service(name: string, url: string)

  /** The five services probed, on localhost ports 8081 to 8085. */
  const Services: seq<Service> := [
    Service("python", "http://localhost:8081/healthz"),
    Service("golang", "http://localhost:8082/healthz"),
    Service("nodejs", "http://localhost:8083/healthz"),
    Service("ballerina", "http://localhost:8084/healthz"),
    Service("java", "http://localhost:8085/healthz")]

  lemma ServicesArePorts8081To8085()
    ensures |Services| == 5
    ensures forall i :: 0 <= i < |Services| ==>
      Services[i].url == "http://localhost:808" + [(('1' as int) + i) as char] + "/healthz"
  {
  }

  datatype Health = Healthy | Unhealthy

  datatype ServiceResult = ServiceResult(service: string, status: Health)

  /**
   * `services.map(...)`: one result per service, in order, named after it,
   * healthy exactly when its probe resolved. `resolved[i]` says whether the
   * GET of the i-th service's URL resolved or threw.
   */
  function ProbeAll(services: seq<Service>, resolved: seq<bool>): (results: seq<ServiceResult>)
    requires |resolved| == |services|
    ensures |results| == |services|
    ensures forall i :: 0 <= i < |services| ==>
      results[i].service == services[i].name && (results[i].status == Healthy <==> resolved[i])
  {
    if services == [] then []
    else
      [ServiceResult(services[0].name, if resolved[0] then Healthy else Unhealthy)]
      + ProbeAll(services[1..], resolved[1..])
  }

  /** `results.every(r => r.status === 'healthy')`. */
  function AllHealthy(results: seq<ServiceResult>): bool
  {
    results == [] || (results[0].status == Healthy && AllHealthy(results[1..]))
  }

  lemma {:induction false} AllHealthyIff(results: seq<ServiceResult>)
    ensures AllHealthy(results) <==> forall i :: 0 <= i < |results| ==> results[i].status == Healthy
  {
    if results != [] {
      AllHealthyIff(results[1..]);
      assert forall i :: 1 <= i < |results| ==> results[i] == results[1..][i - 1];
    }
  }

  function HealthName(h: Health): string
  {
    if h == Healthy then "healthy" else "unhealthy"
  }

  function ResultJson(r: ServiceResult): Json
  {
    JObj(map["service" := JStr(r.service), "status" := JStr(HealthName(r.status))])
  }

  /**
   * GET /health: 200 with status "healthy" when every probe resolved,
   * 503 with status "unhealthy" otherwise; the body lists every result.
   */
  function HealthHandler(resolved: seq<bool>): (r: Response)
    requires |resolved| == |Services|
    ensures r.status == 200 <==> forall i :: 0 <= i < |resolved| ==> resolved[i]
    ensures r.status == 503 <==> exists i :: 0 <= i < |resolved| && !resolved[i]
    ensures r.body.JsonBody? && r.body.value.JObj? && r.body.value.fields.Keys == {"status", "services"}
    ensures r.body.value.fields["status"] == JStr(if r.status == 200 then "healthy" else "unhealthy")
    ensures r.body.value.fields["services"] ==
      JArr(seq(|Services|, i requires 0 <= i < |Services| => ResultJson(ProbeAll(Services, resolved)[i])))
  {
    var results := ProbeAll(Services, resolved);
    var allHealthy := AllHealthy(results);
    AllHealthyIff(results);
    Response(if allHealthy then 200 else 503, map[],
      JsonBody(JObj(map[
        "status" := JStr(if allHealthy then "healthy" else "unhealthy"),
        "services" := JArr(seq(|results|, i requires 0 <= i < |results| => ResultJson(results[i])))])))
  }
}
