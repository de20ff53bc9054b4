/** The timing clamps. Durations are in seconds. */
module Timing {
  import opened Wrappers

  const MINUTE := 60
  const DEFAULT_SEND_JOB_TIMEOUT := 30 * MINUTE
  const MIN_STUCK_SEND_SLACK := 5 * MINUTE
  const MIN_LEAD_SAFETY_MARGIN := 5 * MINUTE
  const DEFAULT_CANCEL_BUFFER := 10 * MINUTE
  const MIN_CANCEL_BUFFER := 10 * MINUTE
  const MAX_SCHEDULE_HORIZON := 72 * 60 * MINUTE
  const PERSIST_TIMEOUT := 30

  /** As read from the environment: any duration, negative ones included. */
  datatype AppConfig = AppConfig(sendJobTimeout: int, stuckSendTTL: int, scheduleMaxHorizon: int,
                                 scheduleMinLead: int, scheduleCancelBuffer: int)

  /** What the orchestrator runs with. */
  datatype Orchestrator = Orchestrator(jobTimeout: int, minLead: int, maxHorizon: int, cancelBuffer: int)

  predicate IsLarger(m: int, a: int, b: int) {
    m >= a && m >= b && (m == a || m == b)
  }

  /** AppConfigFromEnv's last steps. */
  method CheckConfig(raw: AppConfig) returns (r: Option<AppConfig>)
    ensures r.Some? <==> raw.scheduleMaxHorizon <= 259200
    ensures r.Some? ==> r.value == raw.(stuckSendTTL := r.value.stuckSendTTL)
    ensures r.Some? ==> IsLarger(r.value.stuckSendTTL, raw.stuckSendTTL, raw.sendJobTimeout + 300)
  {
    var cfg := raw;
    if cfg.stuckSendTTL < cfg.sendJobTimeout + MIN_STUCK_SEND_SLACK {
      cfg := cfg.(stuckSendTTL := cfg.sendJobTimeout + MIN_STUCK_SEND_SLACK);
    }
    if cfg.scheduleMaxHorizon > MAX_SCHEDULE_HORIZON {
      return None;
    }
    r := Some(cfg);
  }

  /** NewSendOrchestrator's clamps. */
  method NewOrchestrator(cfg: AppConfig) returns (o: Orchestrator)
    ensures o.jobTimeout == if cfg.sendJobTimeout > 0 then cfg.sendJobTimeout else 1800
    ensures o.maxHorizon == if cfg.scheduleMaxHorizon > 0 then cfg.scheduleMaxHorizon else 259200
    ensures IsLarger(o.minLead, cfg.scheduleMinLead, o.jobTimeout + 300)
    ensures IsLarger(o.cancelBuffer, cfg.scheduleCancelBuffer, 600)
  {
    var jobTimeout := cfg.sendJobTimeout;
    if jobTimeout <= 0 {
      jobTimeout := DEFAULT_SEND_JOB_TIMEOUT;
    }
    var maxHorizon := cfg.scheduleMaxHorizon;
    if maxHorizon <= 0 {
      maxHorizon := MAX_SCHEDULE_HORIZON;
    }
    var minComputedLead := jobTimeout + MIN_LEAD_SAFETY_MARGIN;
    var minLead := cfg.scheduleMinLead;
    if minLead <= 0 {
      minLead := minComputedLead;
    } else if minLead < minComputedLead {
      minLead := minComputedLead;
    }
    var cancelBuffer := cfg.scheduleCancelBuffer;
    if cancelBuffer <= 0 {
      cancelBuffer := DEFAULT_CANCEL_BUFFER;
    }
    if cancelBuffer < MIN_CANCEL_BUFFER {
      cancelBuffer := MIN_CANCEL_BUFFER;
    }
    o := Orchestrator(jobTimeout, minLead, maxHorizon, cancelBuffer);
  }

  /* ---- the pair of them ---- */

  /** The sweep stays five minutes behind the job exactly when the configured job
      timeout is positive or the configured age is 35 minutes or more: the age is
      clamped against the configured timeout, the job runs with the default that
      replaces a non-positive one. */
  lemma SweepBehindJobIff(raw: AppConfig, ttl: int, o: Orchestrator)
    requires IsLarger(ttl, raw.stuckSendTTL, raw.sendJobTimeout + 300)
    requires o.jobTimeout == if raw.sendJobTimeout > 0 then raw.sendJobTimeout else 1800
    ensures ttl >= o.jobTimeout + 300 <==> raw.sendJobTimeout > 0 || raw.stuckSendTTL >= 2100
  {
  }

  /** The service as it is wired at start-up: the sweep's age from the checked
      configuration, the orchestrator from its own clamps. */
  method Configure(raw: AppConfig) returns (ttl: int, o: Option<Orchestrator>)
    ensures o.Some? <==> raw.scheduleMaxHorizon <= 259200
    ensures o.Some? ==> o.value.minLead >= o.value.jobTimeout + 300 && 0 < o.value.maxHorizon <= 259200
    ensures o.Some? ==> o.value.cancelBuffer >= 600
    ensures o.Some? ==> (ttl >= o.value.jobTimeout + 300 <==> raw.sendJobTimeout > 0 || raw.stuckSendTTL >= 2100)
  {
    var cfg := CheckConfig(raw);
    if cfg.None? {
      return 0, None;
    }
    var orchestrator := NewOrchestrator(cfg.value);
    SweepBehindJobIff(raw, cfg.value.stuckSendTTL, orchestrator);
    return cfg.value.stuckSendTTL, Some(orchestrator);
  }
}
