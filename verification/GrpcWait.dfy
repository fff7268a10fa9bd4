/** The decision and the bounded wait at the start of a gRPC link. */
module GrpcWait {
  import opened Options
  import opened LinkProtocol

  /** `ticks` are the readings the ticker loop would get, one every two seconds.
      The pod that was skipped or has the priority goes ahead without waiting. The
      other one waits, for at most 20 ticks: all but the last told it
      nothing, and the last one decides as a poll of the protocol does. */
  method Await(skipped: bool, higherPrio: bool, present: bool, ticks: seq<Tick>) returns (o: Outcome, used: nat)
    requires |ticks| >= 20
    ensures skipped || higherPrio <==> used == 0
    ensures used == 0 ==> o == if present then Present else Initiated
    ensures used <= 20
    ensures used > 0 ==> Some(o) == EndOfWait(used - 1, ticks[used - 1])
    ensures forall k :: 0 <= k < used - 1 ==> !ticks[k].present && !ticks[k].skipped
    ensures o == GaveUp <==> used == 20 && !ticks[used - 1].present && !ticks[used - 1].skipped
  {
    if skipped || higherPrio {
      return if present then Present else Initiated, 0;
    }
    used := 0;
    var iteration := 1;
    while true
      invariant iteration == used + 1 <= RETRY_COUNT
      invariant forall k :: 0 <= k < used ==> !ticks[k].present && !ticks[k].skipped
      decreases RETRY_COUNT - used
    {
      var r := ticks[used];
      used := used + 1;
      if r.present {
        return Present, used;
      }
      if r.skipped {
        return if r.late then Present else Initiated, used;
      }
      if iteration == RETRY_COUNT {
        return GaveUp, used;
      }
      iteration := iteration + 1;
    }
  }
}
