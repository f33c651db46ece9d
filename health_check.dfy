/**
  * The health panel (`HealthCheck`): two probes run one after the other, the API first, and
  * the panel's status is written twice per check, first 'checking' and then the verdicts.
  */
module HealthCheck {
  import opened Wrappers

  datatype Probe = Checking | Healthy | Unhealthy

  /** What one probe's `fetch` gives: a response (with its `ok`), or a rejection or abort. */
  datatype ProbeOutcome = Responded(ok: bool) | Threw

  datatype Overall = Operational | CheckingStatus | IssuesDetected

  /** `getOverallStatus`. */
  function OverallStatus(api: Probe, database: Probe): (o: Overall)
    ensures o == Operational <==> api == Healthy && database == Healthy
    ensures o == CheckingStatus <==> !(api == Healthy && database == Healthy) && (api == Checking || database == Checking)
    ensures o == IssuesDetected <==> (api == Unhealthy || database == Unhealthy) && api != Checking && database != Checking
  {
    if api == Healthy && database == Healthy then Operational
    else if api == Checking || database == Checking then CheckingStatus
    else
      assert api.Unhealthy? || database.Unhealthy?;
      IssuesDetected
  }

  /** The refresh button is disabled while either probe is checking. */
  predicate RefreshDisabled(api: Probe, database: Probe) {
    api == Checking || database == Checking
  }

  /** Refresh is disabled exactly when the overall banner says it is checking. */
  lemma RefreshDisabledIffChecking(api: Probe, database: Probe)
    ensures RefreshDisabled(api, database) <==> OverallStatus(api, database) == CheckingStatus
  {
  }

  /** The verdicts a check ends with. A thrown probe marks both unhealthy. */
  function Verdicts(apiProbe: ProbeOutcome, dbProbe: ProbeOutcome): (v: (Probe, Probe))
    ensures v.0 != Checking && v.1 != Checking
    ensures apiProbe.Threw? || dbProbe.Threw? ==> v == (Unhealthy, Unhealthy)
    ensures apiProbe.Responded? && dbProbe.Responded? ==>
      (v.0 == Healthy <==> apiProbe.ok) && (v.1 == Healthy <==> dbProbe.ok)
  {
    match (apiProbe, dbProbe)
    case (Responded(a), Responded(d)) => (if a then Healthy else Unhealthy, if d then Healthy else Unhealthy)
    case _ => (Unhealthy, Unhealthy)
  }

  /** After a completed check the banner reads operational, or issues detected; never checking. */
  lemma CompletedCheckSettles(apiProbe: ProbeOutcome, dbProbe: ProbeOutcome)
    ensures OverallStatus(Verdicts(apiProbe, dbProbe).0, Verdicts(apiProbe, dbProbe).1) != CheckingStatus
    ensures OverallStatus(Verdicts(apiProbe, dbProbe).0, Verdicts(apiProbe, dbProbe).1) == Operational <==>
      apiProbe == Responded(true) && dbProbe == Responded(true)
  {
  }

  class HealthPanel {
    var api: Probe
    var database: Probe
    /** The time of the last completed check, if any. */
    var lastCheck: Option<int>

    constructor ()
      ensures api == Checking && database == Checking && lastCheck == None
    {
      api := Checking;
      database := Checking;
      lastCheck := None;
    }

    /** The first write of `checkHealth`: both probes checking, `lastCheck` kept. */
    method BeginCheck()
      modifies this
      ensures api == Checking && database == Checking && lastCheck == old(lastCheck)
      ensures RefreshDisabled(api, database)
    {
      api := Checking;
      database := Checking;
    }

    /**
      * The second write, once the probes are done. The database is probed only when the API
      * probe returned; `dbProbed` says whether it was.
      */
    method CompleteCheck(apiProbe: ProbeOutcome, dbProbe: ProbeOutcome, now: int) returns (dbProbed: bool)
      modifies this
      ensures dbProbed <==> apiProbe.Responded?
      ensures (api, database) == Verdicts(apiProbe, dbProbe) && lastCheck == Some(now)
      ensures !RefreshDisabled(api, database)
    {
      dbProbed := apiProbe.Responded?;
      var v := Verdicts(apiProbe, dbProbe);
      api, database := v.0, v.1;
      lastCheck := Some(now);
    }

    /** One whole `checkHealth` run. */
    method CheckHealth(apiProbe: ProbeOutcome, dbProbe: ProbeOutcome, now: int) returns (dbProbed: bool)
      modifies this
      ensures dbProbed <==> apiProbe.Responded?
      ensures (api, database) == Verdicts(apiProbe, dbProbe) && lastCheck == Some(now)
    {
      BeginCheck();
      dbProbed := CompleteCheck(apiProbe, dbProbe, now);
    }
  }
}
