/** How a state-change job reports: the verdict a callback reaches, the terminal task record
    it writes, and the shape every job's stored history has whatever calls fail. */
module JobReport {
  import opened Wrappers
  import opened XenServer

  const RC_COMPLETED := 0
  const RC_FAILED := 4
  const RC_INVALID_TRANSITION := 4097

  /** What a callback has decided when it comes to write the final task record. */
  datatype Verdict = Verdict(xen: XenState, rc: int, message: Text) {

    /** The terminal write: a Xen error, if there is one, takes the place of the message. */
    function Report(): XenState
      requires xen.history != []
    {
      if rc == RC_COMPLETED then xen.ChangeState(JOB_COMPLETED, 100, rc, Some(Empty))
      else
        var text := if xen.link.ok then message else FromXen(xen.link.error);
        xen.ChangeState(JOB_EXCEPTION, 100, rc, Some(text))
    }
  }

  predicate IsRunning(r: TaskRecord) {
    r == TaskRecord(JOB_RUNNING, 0, Some(0), Empty, Empty)
  }

  /** A final record: at 100 percent, Completed exactly with error code 0, and never both a
      description and an error description. */
  predicate IsTerminal(r: TaskRecord) {
    && r.percent == 100
    && (r.state == JOB_COMPLETED || r.state == JOB_EXCEPTION)
    && (r.state == JOB_COMPLETED <==> r.errorCode == Some(RC_COMPLETED))
    && (r.state == JOB_COMPLETED ==> r.errorDescription == Empty)
    && r.description == Empty
  }

  /** New, at most one Running, then at most one terminal record. */
  predicate IsJobHistory(h: seq<TaskRecord>) {
    && 1 <= |h| <= 3
    && h[0] == NEW_RECORD
    && (|h| == 2 ==> IsRunning(h[1]) || IsTerminal(h[1]))
    && (|h| == 3 ==> IsRunning(h[1]) && IsTerminal(h[2]))
  }

  /** The history before the verdict is reported: New, and Running if that write got through. */
  predicate IsOpenHistory(h: seq<TaskRecord>) {
    h == [NEW_RECORD] || (|h| == 2 && h[0] == NEW_RECORD && IsRunning(h[1]))
  }

  /** A progress report is stored exactly when both of its calls succeed, that is, exactly when
      it leaves the session healthy; it never alters what was stored before. */
  lemma StoredIffHealthy(x: XenState, state: int, percent: int, code: int, text: Option<Text>)
    requires x.history != []
    ensures var y := x.ChangeState(state, percent, code, text);
            && (y.link.ok <==> |y.history| == |x.history| + 1)
            && (!y.link.ok <==> y.history == x.history)
            && x.history <= y.history
            && (y.link.ok <==>
                  var read := x.link.Reset().Issue(TaskGetRecord, true);
                  x.link.Reset().Succeeds(true) && read.Succeeds(true))
  {
  }

  /** The report touches nothing but the task record. */
  lemma ReportTouchesOnlyTheRecord(v: Verdict)
    requires v.xen.history != []
    ensures v.Report().host == v.xen.host && v.Report().hostDone == v.xen.hostDone
    ensures v.Report().power == v.xen.power && v.Report().vmOps == v.xen.vmOps
  {
  }

  /** Reporting a verdict closes an open history, and the terminal record is there exactly when
      the report left the session healthy. */
  lemma ReportClosesHistory(v: Verdict)
    requires IsOpenHistory(v.xen.history)
    ensures IsJobHistory(v.Report().history)
    ensures var h := v.Report().history;
            v.Report().link.ok <==> IsTerminal(h[|h| - 1])
    ensures v.Report().link.ok ==>
              var h := v.Report().history;
              && (h[|h| - 1].state == JOB_COMPLETED <==> v.rc == RC_COMPLETED)
              && h[|h| - 1].errorCode == Some(v.rc)
              && (v.rc != RC_COMPLETED ==>
                    h[|h| - 1].errorDescription ==
                      if v.xen.link.ok then v.message else FromXen(v.xen.link.error))
  {
  }
}
