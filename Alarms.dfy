/**
 * The hub's polling scheduler: AlarmsController.Polling registers a
 * recurring job per (terminal, external account), and
 * SchedullerHelper.ExecuteSchedulledJob runs on every tick, renewing the
 * auth token, asking the terminal and then rescheduling or removing the job.
 *
 * The authorization-token lookup and the terminal's HTTP answer are inputs:
 * `token` is the token found (None: none found) and `response` the
 * deserialised answer (None: no answer, or any exception while asking).
 */
module Alarms {
  import opened Wrappers
  import opened Strings

  /** PollingDataDTO as a value: what the job table stores as the job's argument. */
  datatype PollingData = PollingData(
    jobId: string,
    externalAccountId: string,
    fr8AccountId: string,
    retryCounter: int,
    pollingIntervalInMinutes: int,
    result: bool,
    triggerImmediately: bool,
    authToken: Option<string>)

  /** A recurring job: the argument ExecuteSchedulledJob will be called with, and its cron. */
  datatype Job = Job(argument: PollingData, terminalToken: string, cron: string)

  /** The job id of a (terminal, external account) pair. */
  function JobIdOf(terminalToken: string, externalAccountId: string): string {
    terminalToken + "|" + externalAccountId
  }

  /** The cron expression "every N minutes". */
  function Cron(minutes: int): string {
    "*/" + IntToString(minutes) + " * * * *"
  }

  /** Retries allowed while the terminal answers with Result = false. */
  const AnsweredRetryLimit := 3
  /** Retries allowed while the terminal does not answer at all. */
  const SilentRetryLimit := 20

  /** The state a tick leaves behind: the (mutated) argument and the job table. */
  datatype TickState = TickState(data: PollingData, jobs: map<string, Job>)

  /** What one run of ExecuteSchedulledJob does to its argument and to the job table. */
  function Tick(data: PollingData, terminalToken: string, token: Option<string>,
                response: Option<PollingData>, jobs: map<string, Job>): TickState
  {
    // a missing token removes the job, but the run goes on
    var data1 := if token.Some? then data.(authToken := token) else data;
    var jobs1 := if token.Some? then jobs else jobs - {data.jobId};
    var id := data.jobId;
    match response
    case Some(r) =>
      if !r.result then
        if data1.retryCounter > AnsweredRetryLimit then TickState(data1, jobs1 - {id})
        else TickState(data1.(retryCounter := data1.retryCounter + 1),
                       jobs1[id := Job(r, terminalToken, Cron(r.pollingIntervalInMinutes))])
      else TickState(data1, jobs1[id := Job(r, terminalToken, Cron(r.pollingIntervalInMinutes))])
    case None =>
      if data1.result then
        var d := data1.(result := false);
        TickState(d, jobs1[id := Job(d, terminalToken, Cron(d.pollingIntervalInMinutes))])
      else if data1.retryCounter > SilentRetryLimit then TickState(data1, jobs1 - {id})
      else
        var d := data1.(retryCounter := data1.retryCounter + 1);
        TickState(d, jobs1[id := Job(d, terminalToken, Cron(d.pollingIntervalInMinutes))])
  }

  /** PollingDataDTO: the request object that the scheduler mutates in place. */
  class PollingDataDTO {
    var JobId: string
    var ExternalAccountId: string
    var Fr8AccountId: string
    var RetryCounter: int
    var PollingIntervalInMinutes: int
    var Result: bool
    var TriggerImmediately: bool
    var AuthToken: Option<string>

    constructor (d: PollingData)
      ensures Snapshot() == d
    {
      JobId, ExternalAccountId, Fr8AccountId := d.jobId, d.externalAccountId, d.fr8AccountId;
      RetryCounter, PollingIntervalInMinutes := d.retryCounter, d.pollingIntervalInMinutes;
      Result, TriggerImmediately, AuthToken := d.result, d.triggerImmediately, d.authToken;
    }

    /** The object's current property values. */
    function Snapshot(): PollingData
      reads this
    {
      PollingData(JobId, ExternalAccountId, Fr8AccountId, RetryCounter,
                  PollingIntervalInMinutes, Result, TriggerImmediately, AuthToken)
    }
  }

  /** The recurring-job table, and the log of jobs fired immediately. */
  class RecurringJobs {
    var jobs: map<string, Job>
    var triggered: seq<string>

    constructor ()
      ensures jobs == map[] && triggered == []
    {
      jobs, triggered := map[], [];
    }

    /** RecurringJob.AddOrUpdate: the id now names this job, whatever it named before. */
    method AddOrUpdate(id: string, job: Job)
      modifies this
      ensures jobs == old(jobs)[id := job] && triggered == old(triggered)
    {
      jobs := jobs[id := job];
    }

    /** RecurringJob.RemoveIfExists */
    method RemoveIfExists(id: string)
      modifies this
      ensures jobs == old(jobs) - {id} && triggered == old(triggered)
    {
      jobs := jobs - {id};
    }

    /** RecurringJob.Trigger: fires an existing job once, now. */
    method Trigger(id: string)
      modifies this
      ensures jobs == old(jobs)
      ensures triggered == old(triggered) + (if id in old(jobs) then [id] else [])
    {
      if id in jobs {
        triggered := triggered + [id];
      }
    }
  }

  /** AlarmsController.Polling: registers (or replaces) the job of this terminal and account. */
  method Polling(terminalToken: string, pollingData: PollingDataDTO, table: RecurringJobs)
    modifies pollingData, table
    ensures pollingData.Snapshot() == old(pollingData.Snapshot()).(jobId := JobIdOf(terminalToken, pollingData.ExternalAccountId))
    ensures table.jobs == old(table.jobs)[pollingData.JobId :=
              Job(pollingData.Snapshot(), terminalToken, Cron(pollingData.PollingIntervalInMinutes))]
    ensures table.triggered == old(table.triggered) + (if pollingData.TriggerImmediately then [pollingData.JobId] else [])
  {
    pollingData.JobId := JobIdOf(terminalToken, pollingData.ExternalAccountId);
    table.AddOrUpdate(pollingData.JobId,
      Job(pollingData.Snapshot(), terminalToken, Cron(pollingData.PollingIntervalInMinutes)));
    if pollingData.TriggerImmediately {
      table.Trigger(pollingData.JobId);
    }
  }

  /** SchedullerHelper.ExecuteSchedulledJob */
  method ExecuteSchedulledJob(pollingData: PollingDataDTO, terminalToken: string, table: RecurringJobs,
                              token: Option<string>, response: Option<PollingData>)
    modifies pollingData, table
    ensures TickState(pollingData.Snapshot(), table.jobs)
         == Tick(old(pollingData.Snapshot()), terminalToken, token, response, old(table.jobs))
    ensures table.triggered == old(table.triggered)
  {
    // RenewAuthToken
    if token.Some? {
      pollingData.AuthToken := token;
    } else {
      table.RemoveIfExists(pollingData.JobId);
    }
    // RequestPolling's answer
    if response.Some? {
      var result := response.value;
      if !result.result {
        if pollingData.RetryCounter > AnsweredRetryLimit {
          table.RemoveIfExists(pollingData.JobId);
        } else {
          pollingData.RetryCounter := pollingData.RetryCounter + 1;
          table.AddOrUpdate(pollingData.JobId, Job(result, terminalToken, Cron(result.pollingIntervalInMinutes)));
        }
      } else {
        table.AddOrUpdate(pollingData.JobId, Job(result, terminalToken, Cron(result.pollingIntervalInMinutes)));
      }
    } else {
      if pollingData.Result {
        pollingData.Result := false;
        table.AddOrUpdate(pollingData.JobId,
          Job(pollingData.Snapshot(), terminalToken, Cron(pollingData.PollingIntervalInMinutes)));
      } else if pollingData.RetryCounter > SilentRetryLimit {
        table.RemoveIfExists(pollingData.JobId);
      } else {
        pollingData.RetryCounter := pollingData.RetryCounter + 1;
        table.AddOrUpdate(pollingData.JobId,
          Job(pollingData.Snapshot(), terminalToken, Cron(pollingData.PollingIntervalInMinutes)));
      }
    }
  }

  // ---------------------------------------------------------------------
  // Properties of the job id and the cron expression

  /** When tokens contain no '|', a job id names exactly one (terminal, account) pair. */
  lemma JobIdDeterminesPair(t1: string, a1: string, t2: string, a2: string)
    requires forall i :: 0 <= i < |t1| ==> t1[i] != '|'
    requires forall i :: 0 <= i < |t2| ==> t2[i] != '|'
    requires JobIdOf(t1, a1) == JobIdOf(t2, a2)
    ensures t1 == t2 && a1 == a2
  {
    var s := JobIdOf(t1, a1);
    assert s == t1 + ("|" + a1) == t2 + ("|" + a2);
    IndexOfAfterFree(t1, "|" + a1, '|');
    IndexOfAfterFree(t2, "|" + a2, '|');
    assert t1 == s[..|t1|] == t2;
    assert a1 == s[|t1| + 1..] == a2;
  }

  /** The cron expression determines the interval. */
  lemma CronDeterminesInterval(m: int, n: int)
    requires Cron(m) == Cron(n)
    ensures m == n
  {
    var sm, sn := IntToString(m), IntToString(n);
    assert "*/" + sm + " * * * *" == "*/" + sn + " * * * *";
    assert |sm| == |sn|;
    assert sm == Cron(m)[2..2 + |sm|] == sn;
    IntToStringInjective(m, n);
  }

  // ---------------------------------------------------------------------
  // Properties of one tick

  /** A tick touches no job but its own. */
  lemma TickKeepsOtherJobs(data: PollingData, tt: string, token: Option<string>,
                           response: Option<PollingData>, jobs: map<string, Job>, k: string)
    requires k != data.jobId
    ensures var s := Tick(data, tt, token, response, jobs);
      (k in s.jobs <==> k in jobs) && (k in jobs ==> s.jobs[k] == jobs[k])
  {
  }

  /** Result = false with more than three retries removes the job. */
  lemma TickAnsweredFalseGivesUp(data: PollingData, tt: string, token: Option<string>,
                                 r: PollingData, jobs: map<string, Job>)
    requires !r.result && data.retryCounter > 3
    ensures var s := Tick(data, tt, token, Some(r), jobs);
      data.jobId !in s.jobs && s.data.retryCounter == data.retryCounter
  {
  }

  /** Result = false with at most three retries: one more retry, the response is the next argument. */
  lemma TickAnsweredFalseRetries(data: PollingData, tt: string, token: Option<string>,
                                 r: PollingData, jobs: map<string, Job>)
    requires !r.result && data.retryCounter <= 3
    ensures var s := Tick(data, tt, token, Some(r), jobs);
      && s.data.retryCounter == data.retryCounter + 1
      && s.data.result == data.result
      && data.jobId in s.jobs
      && s.jobs[data.jobId] == Job(r, tt, Cron(r.pollingIntervalInMinutes))
  {
  }

  /** Result = true: rescheduled on the terminal's interval, the counter untouched. */
  lemma TickAnsweredTrue(data: PollingData, tt: string, token: Option<string>,
                         r: PollingData, jobs: map<string, Job>)
    requires r.result
    ensures var s := Tick(data, tt, token, Some(r), jobs);
      && s.data.retryCounter == data.retryCounter
      && data.jobId in s.jobs
      && s.jobs[data.jobId] == Job(r, tt, Cron(r.pollingIntervalInMinutes))
  {
  }

  /** No answer after a successful poll: Result drops to false, same interval, same counter. */
  lemma TickSilentAfterSuccess(data: PollingData, tt: string, token: Option<string>, jobs: map<string, Job>)
    requires data.result
    ensures var s := Tick(data, tt, token, None, jobs);
      && !s.data.result
      && s.data.retryCounter == data.retryCounter
      && data.jobId in s.jobs
      && s.jobs[data.jobId] == Job(s.data, tt, Cron(data.pollingIntervalInMinutes))
  {
  }

  /** No answer after a failed poll: more than twenty retries removes the job, else one more. */
  lemma TickSilentAfterFailure(data: PollingData, tt: string, token: Option<string>, jobs: map<string, Job>)
    requires !data.result
    ensures var s := Tick(data, tt, token, None, jobs);
      if data.retryCounter > 20 then data.jobId !in s.jobs && s.data.retryCounter == data.retryCounter
      else && s.data.retryCounter == data.retryCounter + 1
           && data.jobId in s.jobs
           && s.jobs[data.jobId] == Job(s.data, tt, Cron(data.pollingIntervalInMinutes))
  {
  }

  /** A missing token removes the job, yet the rest of the tick still runs and may add it back. */
  lemma TickMissingTokenStillReschedules(data: PollingData, tt: string, response: Option<PollingData>,
                                         jobs: map<string, Job>)
    requires match response case Some(r) => r.result case None => data.result
    ensures var s := Tick(data, tt, None, response, jobs);
      data.jobId in s.jobs && s.data.authToken == data.authToken
  {
  }

  /** With no token and a failed or silent poll within the limits, the job is also added back. */
  lemma TickMissingTokenRetries(data: PollingData, tt: string, response: Option<PollingData>,
                                jobs: map<string, Job>)
    requires match response
      case Some(r) => !r.result && data.retryCounter <= 3
      case None => !data.result && data.retryCounter <= 20
    ensures data.jobId in Tick(data, tt, None, response, jobs).jobs
  {
  }

  /** A found token is stored on the argument before the terminal is asked. */
  lemma TickStoresToken(data: PollingData, tt: string, t: string, response: Option<PollingData>,
                        jobs: map<string, Job>)
    ensures Tick(data, tt, Some(t), response, jobs).data.authToken == Some(t)
  {
  }

  // ---------------------------------------------------------------------
  // Runs of several ticks

  /**
   * `n` ticks in which the token is found and the terminal never answers; each
   * tick runs on the argument the previous one stored, and a removed job runs no more.
   */
  function SilentTicks(data: PollingData, tt: string, t: string, jobs: map<string, Job>, n: nat): TickState
    decreases n
  {
    if n == 0 then TickState(data, jobs)
    else
      var s := Tick(data, tt, Some(t), None, jobs);
      if data.jobId in s.jobs && s.jobs[data.jobId].argument.jobId == data.jobId then
        SilentTicks(s.jobs[data.jobId].argument, tt, t, s.jobs, n - 1)
      else s
  }

  /**
   * After a successful poll, two silent ticks in a row with RetryCounter = 4:
   * the first reschedules with Result = false, the second retries; the job is
   * still there, with RetryCounter = 5.
   */
  lemma TwoSilentTicksAfterSuccess(data: PollingData, tt: string, t: string, jobs: map<string, Job>)
    requires data.result && data.retryCounter == 4
    ensures var s := SilentTicks(data, tt, t, jobs, 2);
      data.jobId in s.jobs && s.jobs[data.jobId].argument.retryCounter == 5
      && !s.jobs[data.jobId].argument.result
  {
    var s1 := Tick(data, tt, Some(t), None, jobs);
    assert s1.jobs[data.jobId].argument == data.(authToken := Some(t), result := false);
  }

  /**
   * Without answers, a job whose last poll failed survives exactly until its
   * counter passes twenty: from counter c <= 21 it is still scheduled after
   * 21 - c ticks, with counter 21, and the next tick removes it.
   */
  lemma {:induction false} SilentTicksRemoveAfterLimit(data: PollingData, tt: string, t: string,
                                                       jobs: map<string, Job>, c: int)
    requires !data.result && 0 <= c == data.retryCounter <= 21
    requires data.jobId in jobs && jobs[data.jobId].argument == data
    ensures var s := SilentTicks(data, tt, t, jobs, (21 - c) as nat);
      && data.jobId in s.jobs
      && s.jobs[data.jobId].argument == data.(retryCounter := 21, authToken := if c < 21 then Some(t) else data.authToken)
    ensures data.jobId !in SilentTicks(data, tt, t, jobs, (21 - c) as nat + 1).jobs
    decreases 21 - c
  {
    if c < 21 {
      var s1 := Tick(data, tt, Some(t), None, jobs);
      var next := data.(authToken := Some(t), retryCounter := c + 1);
      assert s1.jobs[data.jobId].argument == next;
      SilentTicksRemoveAfterLimit(next, tt, t, s1.jobs, c + 1);
      assert SilentTicks(data, tt, t, jobs, (21 - c) as nat) == SilentTicks(next, tt, t, s1.jobs, (21 - (c + 1)) as nat);
      assert SilentTicks(data, tt, t, jobs, (21 - c) as nat + 1) == SilentTicks(next, tt, t, s1.jobs, (21 - (c + 1)) as nat + 1);
    }
  }
}
