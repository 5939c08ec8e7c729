/** The customer's order tracker: the status badge, the three-step progress
    line and its circles. */
module OrderStatusCard {
  import opened Types
  import opened Wrappers

  /** The badge text and the step of the progress line (0 for a cancelled or unknown label). */
  datatype StatusConfig = StatusConfig(text: string, description: string, step: int)

  function Config(status: string): (c: StatusConfig)
    ensures 0 <= c.step <= 3
    ensures c.step == 0 <==> ParseStatus(status) in {None, Some(Cancelled)}
    ensures c.text == "Unknown" <==> ParseStatus(status).None?
    ensures c.description == "" <==> ParseStatus(status).None?
  {
    match ParseStatus(status)
    case Some(Pending) => StatusConfig("Pending", "Your order is being reviewed", 1)
    case Some(Started) => StatusConfig("Preparing", "Your order is being prepared", 2)
    case Some(Ready) => StatusConfig("Ready", "Your order is ready for pickup!", 3)
    case Some(Cancelled) => StatusConfig("Cancelled", "Order has been cancelled", 0)
    case None => StatusConfig("Unknown", "", 0)
  }

  function Step(status: string): int {
    Config(status).step
  }

  /** The progress line is drawn for every label but "cancelled". */
  predicate TrackerShown(status: string) {
    status != "cancelled"
  }

  /** The filled share of the progress line: (step - 1) / 2. */
  function Progress(status: string): (f: real)
    ensures TrackerShown(status) && ParseStatus(status).Some? ==> 0.0 <= f <= 1.0
    ensures f == 1.0 <==> status == "ready"
  {
    (Step(status) - 1) as real / 2.0
  }

  /** The circles 1 to 3, each filled when its number is at most the step. */
  function FilledCircles(status: string): (filled: seq<bool>)
    ensures |filled| == 3
    ensures forall i :: 0 <= i < 3 ==> (filled[i] <==> i < Step(status))
  {
    [1 <= Step(status), 2 <= Step(status), 3 <= Step(status)]
  }

  /** The steps of the workflow, pending to started to ready, fill the line
      a half at a time. */
  lemma ProgressAlongWorkflow()
    ensures Progress(StatusName(Pending)) == 0.0
    ensures Progress(StatusName(Started)) == 0.5
    ensures Progress(StatusName(Ready)) == 1.0
    ensures FilledCircles(StatusName(Pending)) == [true, false, false]
    ensures FilledCircles(StatusName(Started)) == [true, true, false]
    ensures FilledCircles(StatusName(Ready)) == [true, true, true]
  {
  }

  /** A label the card does not know still draws the tracker, with no
      circle filled and a negative width of half the line. */
  lemma UnknownLabelTracker(status: string)
    requires ParseStatus(status).None?
    ensures TrackerShown(status)
    ensures Progress(status) == -0.5
    ensures FilledCircles(status) == [false, false, false]
  {
    assert status != StatusName(Cancelled);
  }
}
