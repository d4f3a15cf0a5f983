/** The liveness and readiness endpoints.  Both always answer with success
    and a message built from the configuration; neither checks anything. */
module HealthEndpoint {
  import opened Wrappers
  import opened PyBuiltins
  import opened Envelope
  import opened AppSettings

  /** `health_check`: "<name> v<version> is healthy". */
  function HealthCheck(settings: Settings): (r: BaseResponse)
    ensures r.success
    ensures r.message == settings.appName + " v" + settings.appVersion + " is healthy"
  {
    NewBaseResponse(Some(true), Some(settings.appName + " v" + settings.appVersion + " is healthy"))
  }

  /** `readiness_check`: "<name> is ready to serve requests". */
  function ReadinessCheck(settings: Settings): (r: BaseResponse)
    ensures r.success
    ensures r.message == settings.appName + " is ready to serve requests"
  {
    NewBaseResponse(Some(true), Some(settings.appName + " is ready to serve requests"))
  }

  /** Whatever the name and version, the lower-cased health message contains
      "healthy". */
  lemma HealthMessageSaysHealthy(settings: Settings)
    ensures Contains(Lower(HealthCheck(settings).message), "healthy")
  {
    var head := settings.appName + " v" + settings.appVersion + " is ";
    assert HealthCheck(settings).message == head + "healthy";
    LowerConcat(head, "healthy");
    LowerWithoutCapitals("healthy");
    ContainsSuffix(Lower(head), "healthy");
  }

  /** Whatever the name, the lower-cased readiness message contains "ready". */
  lemma ReadinessMessageSaysReady(settings: Settings)
    ensures Contains(Lower(ReadinessCheck(settings).message), "ready")
  {
    var head := settings.appName + " is ";
    var tail := " to serve requests";
    assert ReadinessCheck(settings).message == head + ("ready" + tail);
    LowerConcat(head, "ready" + tail);
    LowerConcat("ready", tail);
    LowerWithoutCapitals("ready");
    var lowered := Lower(head) + ("ready" + Lower(tail));
    assert lowered[|Lower(head)|..|Lower(head)| + 5] == "ready";
    assert OccursAt(lowered, "ready", |Lower(head)|);
  }
}
