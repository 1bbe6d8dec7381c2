/** TrackPerformanceFilter: an MVC action filter that starts a PerfTracker
    before a controller action and stops it afterwards. */
module TrackPerformance {
  import opened Common
  import opened Events
  import opened Perf

  /** ActionExecutingContext.ActionDescriptor: a controller action, or another kind of action. */
  datatype ActionDescriptor =
    | ControllerAction(controllerName: string, actionName: string)
    | OtherAction

  /** "{ControllerName}-{ActionName}" */
  function TrackerLabel(controllerName: string, actionName: string): (s: string)
    ensures |s| == |controllerName| + 1 + |actionName|
    ensures s[..|controllerName|] == controllerName
    ensures s[|controllerName|] == '-'
    ensures s[|controllerName| + 1..] == actionName
  {
    controllerName + "-" + actionName
  }

  class TrackPerformanceFilter {
    var tracker: PerfTracker?

    /** The filter only ever creates label-only trackers. */
    predicate LabelOnly()
      reads this
    {
      tracker != null ==> tracker.infoName.None? && tracker.infoValue.None?
    }

    constructor ()
      ensures tracker == null && LabelOnly()
    {
      tracker := null;
    }

    method OnActionExecuting(descriptor: ActionDescriptor)
      requires LabelOnly()
      modifies this
      ensures LabelOnly()
      ensures !descriptor.ControllerAction? ==> tracker == old(tracker)
      ensures descriptor.ControllerAction? ==>
        && tracker != null && fresh(tracker)
        && tracker.whatsBeingTracked == Some(TrackerLabel(descriptor.controllerName, descriptor.actionName))
        && tracker.running && tracker.elapsedMilliseconds == 0
    {
      if !descriptor.ControllerAction? {
        return;
      }
      tracker := PerfTracker.FromLabel(Some(TrackerLabel(descriptor.controllerName, descriptor.actionName)));
    }

    /** `_tracker?.Stop()`; the field is never cleared. */
    method OnActionExecuted(clockReading: nat, log: Logger)
      requires LabelOnly()
      modifies tracker, log
      ensures tracker == old(tracker) && LabelOnly()
      ensures tracker == null ==> log.events == old(log.events)
      ensures tracker != null ==>
        && !tracker.running
        && tracker.elapsedMilliseconds
             == (if old(tracker.running) then clockReading else old(tracker.elapsedMilliseconds))
        && log.events == old(log.events) + [PerfEvent(tracker.whatsBeingTracked, tracker.elapsedMilliseconds, None, None)]
    {
      if tracker != null {
        tracker.Stop(clockReading, log);
      }
    }
  }

  /** One controller action followed by two OnActionExecuted calls: both stop
      the same tracker, so the same event is logged twice, with the reading
      taken at the first stop. */
  method ExecutedTwiceLogsTwice(filter: TrackPerformanceFilter, controllerName: string, actionName: string,
                                firstReading: nat, secondReading: nat, log: Logger)
    requires filter.LabelOnly()
    modifies filter, log
    ensures log.events == old(log.events)
      + [PerfEvent(Some(TrackerLabel(controllerName, actionName)), firstReading, None, None),
         PerfEvent(Some(TrackerLabel(controllerName, actionName)), firstReading, None, None)]
  {
    filter.OnActionExecuting(ControllerAction(controllerName, actionName));
    filter.OnActionExecuted(firstReading, log);
    filter.OnActionExecuted(secondReading, log);
  }

  /** Two requests overlapping on the one filter instance registered for the
      whole application: request A starts, request B starts, then both finish.
      B's tracker replaced A's, so A's action is never logged and B's is
      logged twice, with the reading taken when A finished. */
  method OverlappingRequestsShareTracker(filter: TrackPerformanceFilter,
                                         controllerA: string, actionA: string,
                                         controllerB: string, actionB: string,
                                         readingA: nat, readingB: nat, log: Logger)
    requires filter.LabelOnly()
    modifies filter, log
    ensures log.events == old(log.events)
      + [PerfEvent(Some(TrackerLabel(controllerB, actionB)), readingA, None, None),
         PerfEvent(Some(TrackerLabel(controllerB, actionB)), readingA, None, None)]
  {
    filter.OnActionExecuting(ControllerAction(controllerA, actionA));
    filter.OnActionExecuting(ControllerAction(controllerB, actionB));
    filter.OnActionExecuted(readingA, log);
    filter.OnActionExecuted(readingB, log);
  }
}
