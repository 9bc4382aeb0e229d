/** Job states and the capacity constants that depend on the subscription tier. */
module QueueSchemas {

  type JobId = string

  datatype JobStatus =
    Queued | Starting | Scaffold | Code | Deps | Checks | Ready | Failed | Scheduled

  const GLOBAL_QUEUE_CAP := 100

  /** Slots a user may hold at once; tiers the table does not list count as bootstrapper. */
  function UserLimit(tier: string): nat {
    if tier == "cto_scale" then 10 else if tier == "partner" then 3 else 2
  }

  function ProjectLimit(tier: string): nat {
    if tier == "cto_scale" then 5 else if tier == "partner" then 3 else 2
  }

  /** Head start a tier gets in the queue. */
  function Boost(tier: string): nat {
    if tier == "cto_scale" then 5 else if tier == "partner" then 2 else 0
  }
}
