/** The earnings snapshot job's control flow: run the networks in order,
    normalise, and add up the grand totals (job.py:586-643). */
module EarningsJob {
  import opened Wrappers
  import opened PyValue
  import opened Numbers
  import opened Commissions

  /** What one network's step did: not selected (or not configured),
      returned metrics, or raised with this text, `Class: message`. */
  datatype Step = Skipped | Produced(metrics: Metrics) | Raised(message: string)

  /** The numbers written to the snapshot row. */
  datatype Snapshot = Snapshot(networks: seq<Metrics>, status: string, err: string,
                               grandTotal: real, grandConfirmed: real, grandPending: real)

  /** The per-network metrics after the `try` block: steps before the first
      raise keep their result, steps from it on stay blank; with the first
      raise's message. */
  function Settle(steps: seq<Step>): (r: (seq<Metrics>, Option<string>))
    ensures |r.0| == |steps|
    decreases |steps|
  {
    if steps == [] then ([], None)
    else match steps[0]
      case Raised(msg) => (seq(|steps|, _ => BlankMetrics()), Some(msg))
      case Produced(m) => var rest := Settle(steps[1..]); ([m] + rest.0, rest.1)
      case Skipped => var rest := Settle(steps[1..]); ([BlankMetrics()] + rest.0, rest.1)
  }

  function SumTotal(ms: seq<Metrics>): real
    decreases |ms|
  {
    if ms == [] then 0.0 else ms[0].total + SumTotal(ms[1..])
  }

  function SumConfirmed(ms: seq<Metrics>): real
    decreases |ms|
  {
    if ms == [] then 0.0 else ms[0].confirmed + SumConfirmed(ms[1..])
  }

  function SumPending(ms: seq<Metrics>): real
    decreases |ms|
  {
    if ms == [] then 0.0 else ms[0].pending + SumPending(ms[1..])
  }

  /** `main` after the networks ran: AWIN, Addrevenue, Impact and
      Partnerize in that order. */
  function RunJob(steps: seq<Step>): (s: Snapshot)
    requires |steps| == 4
    ensures |s.networks| == 4 && |s.err| <= 500
    ensures s.status == "ok" <==> forall j :: 0 <= j < 4 ==> !steps[j].Raised?
    ensures s.grandTotal == s.networks[0].total + s.networks[1].total + s.networks[2].total + s.networks[3].total
    ensures s.grandConfirmed == s.networks[0].confirmed + s.networks[1].confirmed + s.networks[2].confirmed + s.networks[3].confirmed
    ensures s.grandPending == s.networks[0].pending + s.networks[1].pending + s.networks[2].pending + s.networks[3].pending
  {
    var settled := Settle(steps);
    SettleError(steps);
    var ms := settled.0;
    SumsOfFour(ms);
    Snapshot(ms, if settled.1.None? then "ok" else "error",
             match settled.1 case None => "" case Some(msg) => Truncate(ExceptionStr(msg), 500),
             SumTotal(ms), SumConfirmed(ms), SumPending(ms))
  }

  /** The `err` column is `str(e)[:500]` of the first raise: its message
      without the class, cut to 500 characters. */
  lemma RunJobErr(steps: seq<Step>, i: nat)
    requires |steps| == 4 && i < 4 && steps[i].Raised?
    requires forall j :: 0 <= j < i ==> !steps[j].Raised?
    ensures RunJob(steps).status == "error"
    ensures RunJob(steps).err == Truncate(ExceptionStr(steps[i].message), 500)
  {
    SettleFirstRaise(steps, i);
  }

  /** Without a raise the `err` column is empty. */
  lemma RunJobNoErr(steps: seq<Step>)
    requires |steps| == 4 && forall j :: 0 <= j < 4 ==> !steps[j].Raised?
    ensures RunJob(steps).status == "ok" && RunJob(steps).err == ""
  {
    SettleNoRaise(steps);
  }

  /** A window of more than 31 days in the AWIN step writes the `ValueError`'s
      message, without its class. */
  lemma WindowTooWideReported(steps: seq<Step>)
    requires |steps| == 4 && steps[0] == Raised(WindowError)
    ensures RunJob(steps).err == WindowMessage
  {
    RunJobErr(steps, 0);
    WindowErrorStr();
  }

  lemma SumsOfFour(ms: seq<Metrics>)
    requires |ms| == 4
    ensures SumTotal(ms) == ms[0].total + ms[1].total + ms[2].total + ms[3].total
    ensures SumConfirmed(ms) == ms[0].confirmed + ms[1].confirmed + ms[2].confirmed + ms[3].confirmed
    ensures SumPending(ms) == ms[0].pending + ms[1].pending + ms[2].pending + ms[3].pending
  {
    var m3 := ms[3..];
    assert m3[1..] == [];
    assert ms[2..][1..] == m3 && ms[1..][1..] == ms[2..];
    assert m3[0] == ms[3] && ms[2..][0] == ms[2] && ms[1..][0] == ms[1];
    assert SumTotal(m3) == ms[3].total;
    assert SumTotal(ms[2..]) == ms[2].total + SumTotal(m3);
    assert SumTotal(ms[1..]) == ms[1].total + SumTotal(ms[2..]);
    assert SumConfirmed(m3) == ms[3].confirmed;
    assert SumConfirmed(ms[2..]) == ms[2].confirmed + SumConfirmed(m3);
    assert SumConfirmed(ms[1..]) == ms[1].confirmed + SumConfirmed(ms[2..]);
    assert SumPending(m3) == ms[3].pending;
    assert SumPending(ms[2..]) == ms[2].pending + SumPending(m3);
    assert SumPending(ms[1..]) == ms[1].pending + SumPending(ms[2..]);
  }

  /** A raise is reported exactly when some step raised. */
  lemma {:induction false} SettleError(steps: seq<Step>)
    ensures Settle(steps).1.None? <==> forall j :: 0 <= j < |steps| ==> !steps[j].Raised?
    decreases |steps|
  {
    if steps != [] && !steps[0].Raised? {
      SettleError(steps[1..]);
      assert forall j :: 1 <= j < |steps| ==> steps[j] == steps[1..][j - 1];
    }
  }

  /** The first raise blanks its own network and every later one and is the
      error reported; earlier networks keep what they produced. */
  lemma {:induction false} SettleFirstRaise(steps: seq<Step>, i: nat)
    requires i < |steps| && steps[i].Raised?
    requires forall j :: 0 <= j < i ==> !steps[j].Raised?
    ensures Settle(steps).1 == Some(steps[i].message)
    ensures forall j :: i <= j < |steps| ==> Settle(steps).0[j] == BlankMetrics()
    ensures forall j :: 0 <= j < i ==> Settle(steps).0[j] == (if steps[j].Produced? then steps[j].metrics else BlankMetrics())
    decreases i
  {
    if i > 0 {
      SettleFirstRaise(steps[1..], i - 1);
      var rest := Settle(steps[1..]);
      assert Settle(steps).0 == [Settle(steps).0[0]] + rest.0;
      forall j | 1 <= j < |steps| ensures Settle(steps).0[j] == rest.0[j - 1] && steps[j] == steps[1..][j - 1] {
      }
    }
  }

  /** Without a raise, every network keeps its produced metrics (blank when
      skipped). */
  lemma {:induction false} SettleNoRaise(steps: seq<Step>)
    requires forall j :: 0 <= j < |steps| ==> !steps[j].Raised?
    ensures Settle(steps).1.None?
    ensures forall j :: 0 <= j < |steps| ==> Settle(steps).0[j] == (if steps[j].Produced? then steps[j].metrics else BlankMetrics())
    decreases |steps|
  {
    if steps != [] {
      SettleNoRaise(steps[1..]);
      forall j | 1 <= j < |steps| ensures Settle(steps).0[j] == Settle(steps[1..]).0[j - 1] && steps[j] == steps[1..][j - 1] {
      }
    }
  }

  /** When every network's total is its confirmed plus pending amount (as
      for the transaction aggregators and the stub), so is the grand total. */
  lemma GrandTotalIsSum(steps: seq<Step>)
    requires |steps| == 4
    requires forall j :: 0 <= j < 4 ==> steps[j].Produced? ==> steps[j].metrics.total == steps[j].metrics.confirmed + steps[j].metrics.pending
    ensures RunJob(steps).grandTotal == RunJob(steps).grandConfirmed + RunJob(steps).grandPending
  {
    var ms := Settle(steps).0;
    if forall j :: 0 <= j < 4 ==> !steps[j].Raised? {
      SettleNoRaise(steps);
    } else {
      var i :| 0 <= i < 4 && steps[i].Raised? && forall j :: 0 <= j < i ==> !steps[j].Raised? by {
        FirstRaiseExists(steps);
      }
      SettleFirstRaise(steps, i);
    }
    assert forall j :: 0 <= j < 4 ==> ms[j].total == ms[j].confirmed + ms[j].pending;
  }

  /** When some network raised, there is a first one that did. */
  lemma FirstRaiseExists(steps: seq<Step>)
    requires exists j :: 0 <= j < |steps| && steps[j].Raised?
    ensures exists i :: 0 <= i < |steps| && steps[i].Raised? && forall j :: 0 <= j < i ==> !steps[j].Raised?
  {
    var k :| 0 <= k < |steps| && steps[k].Raised?;
    FirstRaiseBelow(steps, k);
  }

  lemma {:induction false} FirstRaiseBelow(steps: seq<Step>, k: nat)
    requires k < |steps| && steps[k].Raised?
    ensures exists i :: 0 <= i <= k && steps[i].Raised? && forall j :: 0 <= j < i ==> !steps[j].Raised?
    decreases k
  {
    if exists j :: 0 <= j < k && steps[j].Raised? {
      var j :| 0 <= j < k && steps[j].Raised?;
      FirstRaiseBelow(steps, j);
    }
  }

  /** The normalisation pass leaves every metrics dict the aggregators
      produce unchanged, so the sums are over the values as returned. */
  lemma NormalizePassIsIdentity(steps: seq<Step>, bi: Builtins)
    requires |steps| == 4
    ensures forall j :: 0 <= j < 4 ==>
      Normalized(Dict(MetricsDict(RunJob(steps).networks[j])), Job, bi) == MetricsDict(RunJob(steps).networks[j])
  {
    forall j | 0 <= j < 4
      ensures Normalized(Dict(MetricsDict(RunJob(steps).networks[j])), Job, bi) == MetricsDict(RunJob(steps).networks[j])
    {
      NormalizeKeepsMetrics(RunJob(steps).networks[j], Job, bi);
    }
  }
}
