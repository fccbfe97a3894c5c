/**
 The normalize functions of the configuration, and what the protocol may rely on
 afterwards.
 */
module Configuration {
  import opened Machine

  // -------------------------------------------------------------------- worker

  datatype WorkerTimes = WorkerTimes(
    leaseTtl: Int64,
    heartbeat: Int64,
    reclaimIdle: Int64,
    reclaimInterval: Int64,
    httpTimeout: Int64,
    retryBase: Int64,
    retryMax: Int64)

  class WorkerConfig {
    var poolSize: Int64
    var readCount: Int64
    var readBlockMs: Int64
    var leaseTtlSeconds: Int64
    var heartbeatSeconds: Int64
    var reclaimIdleSeconds: Int64
    var reclaimIntervalSeconds: Int64
    var httpTimeoutSeconds: Int64
    var maxResponseBytes: Int64
    var retryBaseSeconds: Int64
    var retryMaxSeconds: Int64

    function Times(): WorkerTimes
      reads this
    {
      WorkerTimes(leaseTtlSeconds, heartbeatSeconds, reclaimIdleSeconds, reclaimIntervalSeconds, httpTimeoutSeconds,
                  retryBaseSeconds, retryMaxSeconds)
    }

    method Normalize()
      modifies this
      ensures Times() == NormalTimes(old(Times()))
      ensures poolSize == if old(poolSize) < 1 then 100 else old(poolSize)
      ensures readCount == if old(readCount) < 1 then 20 else old(readCount)
      ensures readBlockMs == if old(readBlockMs) < 100 then 2000 else old(readBlockMs)
      ensures maxResponseBytes == if old(maxResponseBytes) < 1 then 1_048_576 else old(maxResponseBytes)
      // field by field, later ones against earlier ones; doubling an interval from 2^62 on gives a negative number
      ensures leaseTtlSeconds == if old(leaseTtlSeconds) < 3 then 30 else old(leaseTtlSeconds)
      ensures heartbeatSeconds ==
        if old(heartbeatSeconds) < 1
           || (old(heartbeatSeconds) < 0x4000_0000_0000_0000 && 2 * old(heartbeatSeconds) >= leaseTtlSeconds)
        then leaseTtlSeconds / 3 else old(heartbeatSeconds)
      ensures reclaimIdleSeconds == if old(reclaimIdleSeconds) < leaseTtlSeconds then leaseTtlSeconds
        else old(reclaimIdleSeconds)
      ensures reclaimIntervalSeconds == if old(reclaimIntervalSeconds) < 1 then 10 else old(reclaimIntervalSeconds)
      ensures httpTimeoutSeconds == if old(httpTimeoutSeconds) < 1 then 12 else old(httpTimeoutSeconds)
      ensures retryBaseSeconds == if old(retryBaseSeconds) < 1 then 2 else old(retryBaseSeconds)
      ensures retryMaxSeconds == if old(retryMaxSeconds) < retryBaseSeconds then 60 else old(retryMaxSeconds)
    {
      if poolSize < 1 { poolSize := 100; }
      if readCount < 1 { readCount := 20; }
      if readBlockMs < 100 { readBlockMs := 2000; }
      if maxResponseBytes < 1 { maxResponseBytes := 1024 * 1024; }
      NormalizeTimes();
      if old(heartbeatSeconds) >= 1 { HeartbeatIsDoubled(old(heartbeatSeconds), leaseTtlSeconds); }
    }

    method NormalizeTimes()
      modifies `leaseTtlSeconds, `heartbeatSeconds, `reclaimIdleSeconds, `reclaimIntervalSeconds, `httpTimeoutSeconds,
               `retryBaseSeconds, `retryMaxSeconds
      ensures Times() == NormalTimes(old(Times()))
    {
      if leaseTtlSeconds < 3 { leaseTtlSeconds := 30; }
      if heartbeatSeconds < 1 || Wrap(heartbeatSeconds * 2) >= leaseTtlSeconds {
        heartbeatSeconds := leaseTtlSeconds / 3;
      }
      assert heartbeatSeconds == NormalTimes(old(Times())).heartbeat;
      hide Wrap;
      if reclaimIdleSeconds < leaseTtlSeconds { reclaimIdleSeconds := leaseTtlSeconds; }
      if reclaimIntervalSeconds < 1 { reclaimIntervalSeconds := 10; }
      if httpTimeoutSeconds < 1 { httpTimeoutSeconds := 12; }
      if retryBaseSeconds < 1 { retryBaseSeconds := 2; }
      if retryMaxSeconds < retryBaseSeconds { retryMaxSeconds := 60; }
    }
  }

  /** `value`, or the default when it is below the least admissible one. */
  function Or(value: Int64, least: Int64, default_: Int64): Int64 { if value < least then default_ else value }

  function NormalTimes(c: WorkerTimes): WorkerTimes {
    var leaseTtl := Or(c.leaseTtl, 3, 30);
    var retryBase := Or(c.retryBase, 1, 2);
    WorkerTimes(
      leaseTtl,
      if c.heartbeat < 1 || Wrap(c.heartbeat * 2) >= leaseTtl then leaseTtl / 3 else c.heartbeat,
      if c.reclaimIdle < leaseTtl then leaseTtl else c.reclaimIdle,
      Or(c.reclaimInterval, 1, 10),
      Or(c.httpTimeout, 1, 12),
      retryBase,
      if c.retryMax < retryBase then 60 else c.retryMax)
  }

  /** When the doubled interval does not fit into the lease, 64 bits considered. */
  lemma HeartbeatIsDoubled(heartbeat: Int64, leaseTtl: Int64)
    requires 1 <= heartbeat && 3 <= leaseTtl
    ensures Wrap(heartbeat * 2) >= leaseTtl <==> heartbeat < 0x4000_0000_0000_0000 && 2 * heartbeat >= leaseTtl
  {
    WrapIsExact(heartbeat * 2);
  }

  /** Two heartbeats fit into a lease unless doubling the configured interval overflows. */
  lemma HeartbeatsFitExactlyWhen(c: WorkerTimes)
    ensures var n := NormalTimes(c);
      && 1 <= n.heartbeat && 3 <= n.leaseTtl <= n.reclaimIdle && 1 <= n.reclaimInterval && 1 <= n.httpTimeout
          && 1 <= n.retryBase
      && (2 * n.heartbeat < n.leaseTtl <==> c.heartbeat < TWO_62)
  {
    WrapIsExact(c.heartbeat * 2);
  }

  /** The largest back-off is at least the smallest unless a base above 60 came with a smaller maximum. */
  lemma RetryRangeIsSaneExactlyWhen(c: WorkerTimes)
    ensures NormalTimes(c).retryBase <= NormalTimes(c).retryMax <==> !(60 < c.retryBase && c.retryMax < c.retryBase)
  {
  }

  /** Normalizing twice changes nothing more. */
  lemma NormalizingSettles(c: WorkerTimes)
    ensures NormalTimes(NormalTimes(c)) == NormalTimes(c)
  {
    var n := NormalTimes(c);
    WrapIsExact(c.heartbeat * 2);
    WrapIsExact(n.heartbeat * 2);
  }

  // ----------------------------------------------------------------- scheduler

  class SchedulerConfig {
    var pollIntervalMs: Int64
    var batchSize: Int64
    var misfireGraceSeconds: Int64
    var defaultMaxCatchUp: Int64

    /** What resolveTimer and ScheduleDueBatch rely on. */
    method Normalize()
      modifies this
      ensures pollIntervalMs == if old(pollIntervalMs) < 10 then 500 else old(pollIntervalMs)
      ensures batchSize == if old(batchSize) < 1 then 100 else old(batchSize)
      ensures misfireGraceSeconds == if old(misfireGraceSeconds) < 0 then 0 else old(misfireGraceSeconds)
      ensures defaultMaxCatchUp == if old(defaultMaxCatchUp) < 1 then 10 else old(defaultMaxCatchUp)
      ensures 10 <= pollIntervalMs && 1 <= batchSize && 0 <= misfireGraceSeconds && 1 <= defaultMaxCatchUp
    {
      if pollIntervalMs < 10 { pollIntervalMs := 500; }
      if batchSize < 1 { batchSize := 100; }
      if misfireGraceSeconds < 0 { misfireGraceSeconds := 0; }
      if defaultMaxCatchUp < 1 { defaultMaxCatchUp := 10; }
    }
  }

  // ------------------------------------------------------------------ recovery

  datatype RetentionDays = RetentionDays(outbox: Int64, execution: Int64)

  class RecoveryConfig {
    var scanIntervalSeconds: Int64
    var batchSize: Int64
    var pendingStaleSeconds: Int64
    var cleanupIntervalMinutes: Int64
    var outboxRetentionDays: Int64
    var executionRetentionDays: Int64
    var streamRetentionHours: Int64

    function Days(): RetentionDays
      reads this
    {
      RetentionDays(outboxRetentionDays, executionRetentionDays)
    }

    method Normalize()
      modifies this
      ensures Days() == NormalDays(old(Days()))
      ensures scanIntervalSeconds == if old(scanIntervalSeconds) < 1 then 10 else old(scanIntervalSeconds)
      ensures batchSize == if old(batchSize) < 1 then 100 else old(batchSize)
      ensures pendingStaleSeconds == if old(pendingStaleSeconds) < 1 then 30 else old(pendingStaleSeconds)
      ensures cleanupIntervalMinutes == if old(cleanupIntervalMinutes) < 1 then 60 else old(cleanupIntervalMinutes)
      ensures streamRetentionHours == if old(streamRetentionHours) < 1 then 24 else old(streamRetentionHours)
      ensures outboxRetentionDays == if old(outboxRetentionDays) < 1 then 7 else old(outboxRetentionDays)
      ensures executionRetentionDays ==
        if old(executionRetentionDays) < outboxRetentionDays then 30 else old(executionRetentionDays)
    {
      if scanIntervalSeconds < 1 { scanIntervalSeconds := 10; }
      if batchSize < 1 { batchSize := 100; }
      if pendingStaleSeconds < 1 { pendingStaleSeconds := 30; }
      if cleanupIntervalMinutes < 1 { cleanupIntervalMinutes := 60; }
      if outboxRetentionDays < 1 { outboxRetentionDays := 7; }
      if executionRetentionDays < outboxRetentionDays { executionRetentionDays := 30; }
      if streamRetentionHours < 1 { streamRetentionHours := 24; }
    }
  }

  function NormalDays(d: RetentionDays): RetentionDays {
    var outbox := Or(d.outbox, 1, 7);
    RetentionDays(outbox, if d.execution < outbox then 30 else d.execution)
  }

  /** Executions outlive their events unless outbox rows are kept beyond 30 days and executions less. */
  lemma ExecutionsOutliveEventsExactlyWhen(d: RetentionDays)
    ensures NormalDays(d).outbox <= NormalDays(d).execution <==> !(30 < d.outbox && d.execution < d.outbox)
  {
  }
}
