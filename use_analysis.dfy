/**
 * The browser hook that follows one analysis job: it polls the job's status
 * once at once and then on every interval tick, fetches the results when the
 * job has completed, and stops polling on completion, failure or any error.
 * Timer callbacks (every 2000 ms in the hook) and network replies are
 * discrete steps; nothing here keeps time. Every run of the effect (one per `analysisId`) has its own interval,
 * and a reply can only clear the interval of the run that sent its request:
 * the model numbers the runs and tags every request with its run. The state
 * setters are shared by all runs, so every reply that arrives is applied,
 * even one belonging to an earlier run or arriving after the interval was
 * cleared.
 */
module UseAnalysis {
  import opened Wrappers
  import Strings
  import AdminApi

  /** The body of a status reply. */
  datatype StatusData = StatusData(analysisId: string, status: string, progress: int, filename: string)

  const FailedMessage: string := "Analysis failed"
  const FetchFailedMessage: string := "Failed to fetch status"

  class Poller {
    var analysisId: string
    /** The hook's three pieces of state. */
    var status: Option<StatusData>
    var results: Option<string>
    var error: Option<string>
    /** The current run of the effect; earlier runs have had their intervals cleared. */
    var generation: nat
    /** Whether the current run's interval is scheduled. */
    var timerActive: bool
    /** Status requests sent and not yet answered, each tagged with the run that sent it. */
    var statusInFlight: multiset<nat>
    /** Result requests sent and not yet answered, each tagged with the run that sent it. */
    var resultsInFlight: multiset<nat>

    /** Mounting: empty state, the first run polls at once and schedules its interval. */
    constructor Mount(id: string)
      ensures analysisId == id && generation == 0
      ensures status == None && results == None && error == None
      ensures timerActive && statusInFlight == multiset{0} && resultsInFlight == multiset{}
    {
      analysisId := id;
      status, results, error := None, None, None;
      generation := 0;
      timerActive := true;
      statusInFlight := multiset{0};
      resultsInFlight := multiset{};
    }

    /** The current run's interval fires: one more poll of that run goes out, nothing else changes. */
    method Tick()
      requires timerActive
      modifies this
      ensures statusInFlight == old(statusInFlight) + multiset{generation}
      ensures status == old(status) && results == old(results) && error == old(error)
      ensures timerActive && resultsInFlight == old(resultsInFlight)
      ensures analysisId == old(analysisId) && generation == old(generation)
    {
      statusInFlight := statusInFlight + multiset{generation};
    }

    /**
     * A status poll sent by run `gen` is answered. A good reply is stored
     * before anything else; `completed` sends that run's results request,
     * `failed` records the failure and clears that run's interval, any other
     * status changes nothing more. A thrown error records the server's
     * `detail` (or a fixed message) and clears that run's interval. Clearing
     * an earlier run's interval leaves the current one scheduled.
     */
    method OnStatusReply(gen: nat, reply: Result<StatusData, AdminApi.ApiError>)
      requires gen in statusInFlight
      modifies this
      ensures statusInFlight == old(statusInFlight) - multiset{gen}
      ensures analysisId == old(analysisId) && generation == old(generation) && results == old(results)
      ensures reply.Ok? ==> status == Some(reply.value)
      ensures reply.Ok? && reply.value.status == "completed" ==>
        resultsInFlight == old(resultsInFlight) + multiset{gen} && error == old(error) && timerActive == old(timerActive)
      ensures reply.Ok? && reply.value.status == "failed" ==>
        && error == Some(FailedMessage) && resultsInFlight == old(resultsInFlight)
        && timerActive == (old(timerActive) && gen != generation)
      ensures reply.Ok? && reply.value.status != "completed" && reply.value.status != "failed" ==>
        error == old(error) && timerActive == old(timerActive) && resultsInFlight == old(resultsInFlight)
      ensures reply.Err? ==>
        && status == old(status) && resultsInFlight == old(resultsInFlight)
        && error == Some(Strings.OrDefault(reply.error.detail, FetchFailedMessage))
        && timerActive == (old(timerActive) && gen != generation)
    {
      statusInFlight := statusInFlight - multiset{gen};
      match reply {
        case Ok(data) =>
          status := Some(data);
          if data.status == "completed" {
            resultsInFlight := resultsInFlight + multiset{gen};
          } else if data.status == "failed" {
            error := Some(FailedMessage);
            ClearInterval(gen);
          }
        case Err(e) =>
          error := Some(Strings.OrDefault(e.detail, FetchFailedMessage));
          ClearInterval(gen);
      }
    }

    /**
     * The results request of a completed poll of run `gen` is answered: the
     * results are stored, or the error is handled as for a failed status
     * poll; either way that run's interval is cleared.
     */
    method OnResultsReply(gen: nat, reply: Result<string, AdminApi.ApiError>)
      requires gen in resultsInFlight
      modifies this
      ensures resultsInFlight == old(resultsInFlight) - multiset{gen}
      ensures timerActive == (old(timerActive) && gen != generation)
      ensures status == old(status) && statusInFlight == old(statusInFlight)
      ensures analysisId == old(analysisId) && generation == old(generation)
      ensures reply.Ok? ==> results == Some(reply.value) && error == old(error)
      ensures reply.Err? ==>
        results == old(results) && error == Some(Strings.OrDefault(reply.error.detail, FetchFailedMessage))
    {
      resultsInFlight := resultsInFlight - multiset{gen};
      match reply {
        case Ok(r) => results := Some(r);
        case Err(e) => error := Some(Strings.OrDefault(e.detail, FetchFailedMessage));
      }
      ClearInterval(gen);
    }

    /** `clearInterval` on run `gen`'s interval: only the current run's can still be scheduled. */
    method ClearInterval(gen: nat)
      modifies this
      ensures timerActive == (old(timerActive) && gen != generation)
      ensures status == old(status) && results == old(results) && error == old(error)
      ensures statusInFlight == old(statusInFlight) && resultsInFlight == old(resultsInFlight)
      ensures analysisId == old(analysisId) && generation == old(generation)
    {
      if gen == generation {
        timerActive := false;
      }
    }

    /** Unmounting clears the interval; replies already on their way still land. */
    method Teardown()
      modifies this
      ensures !timerActive
      ensures status == old(status) && results == old(results) && error == old(error)
      ensures statusInFlight == old(statusInFlight) && resultsInFlight == old(resultsInFlight)
      ensures analysisId == old(analysisId) && generation == old(generation)
    {
      ClearInterval(generation);
    }

    /**
     * A new `analysisId`: the old run's interval is cleared and the effect
     * runs again, as a new run that polls at once and schedules its own
     * interval. The hook's state is not reset, so the previous job's status,
     * results and error stay visible until replies overwrite them.
     */
    method ChangeId(id: string)
      modifies this
      ensures analysisId == id && timerActive && generation == old(generation) + 1
      ensures statusInFlight == old(statusInFlight) + multiset{generation} && resultsInFlight == old(resultsInFlight)
      ensures status == old(status) && results == old(results) && error == old(error)
    {
      Teardown();
      analysisId := id;
      generation := generation + 1;
      timerActive := true;
      statusInFlight := statusInFlight + multiset{generation};
    }
  }

  /**
   * With a server that answers one poll at a time, the hook's single-poll run
   * ends in the state its reply decides: after `completed` and a good results
   * reply the results are shown and polling stops; after `failed` the error is
   * shown, no results, and polling stops; after `processing` polling goes on.
   */
  method SinglePoll(id: string, reply: StatusData, resultsReply: string)
    returns (p: Poller)
    ensures fresh(p)
    ensures p.status == Some(reply)
    ensures reply.status == "completed" ==> !p.timerActive && p.results == Some(resultsReply) && p.error == None
    ensures reply.status == "failed" ==> !p.timerActive && p.results == None && p.error == Some(FailedMessage)
    ensures reply.status != "completed" && reply.status != "failed" ==>
      p.timerActive && p.results == None && p.error == None
  {
    p := new Poller.Mount(id);
    p.OnStatusReply(0, Ok(reply));
    if reply.status == "completed" {
      p.OnResultsReply(0, Ok(resultsReply));
    }
  }

  /**
   * After a switch to a second job, the answer to the first job's poll, good
   * or bad, is shown but does not stop the second job's polling: a failure
   * or error only clears the first run's interval, which is already gone.
   */
  method StaleReplyKeepsPolling(first: string, second: string, reply: Result<StatusData, AdminApi.ApiError>)
    returns (p: Poller)
    ensures fresh(p)
    ensures p.analysisId == second && p.generation == 1
    ensures p.timerActive && 1 in p.statusInFlight
    ensures reply.Ok? ==> p.status == Some(reply.value)
    ensures reply.Ok? && reply.value.status == "failed" ==> p.error == Some(FailedMessage)
    ensures reply.Err? ==> p.error == Some(Strings.OrDefault(reply.error.detail, FetchFailedMessage))
  {
    p := new Poller.Mount(first);
    p.ChangeId(second);
    p.OnStatusReply(0, reply);
  }
}
