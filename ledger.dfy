/** How points and the collected total relate to the schedules and vouchers.
    Two ledgers hold from the initial state on:
      total  == the summed weight of the completed schedules,
      points + the summed cost of the vouchers == the summed credit of the completed schedules.
    Every operation keeps both, except `deleteSchedule`: deleting a pending
    schedule subtracts a weight that was never added (the total drops below
    the completed weight), and deleting a completed one removes its weight but
    leaves its credit in the balance. */
module Ledger {
  import opened Records
  import opened Numbers
  import opened Workspace

  /** The weight of the completed schedules. */
  function CompletedWeight(ss: seq<Schedule>): real {
    if ss == [] then 0.0
    else (if ss[0].status == Completed then ss[0].weight else 0.0) + CompletedWeight(ss[1..])
  }

  /** The points `completeSchedule` credited for the completed schedules. */
  function EarnedPoints(ss: seq<Schedule>): int {
    if ss == [] then 0
    else (if ss[0].status == Completed then Round(ss[0].weight * 10.0) else 0) + EarnedPoints(ss[1..])
  }

  /** The points paid for the vouchers. */
  function SpentPoints(vs: seq<Voucher>): int {
    if vs == [] then 0 else vs[0].cost + SpentPoints(vs[1..])
  }

  predicate WeightBalanced(st: State) {
    st.wasteTotal == CompletedWeight(st.schedules)
  }

  predicate PointsBalanced(st: State) {
    st.points + SpentPoints(st.vouchers) == EarnedPoints(st.schedules)
  }

  lemma {:induction false} SumsSplit(a: seq<Schedule>, b: seq<Schedule>)
    ensures CompletedWeight(a + b) == CompletedWeight(a) + CompletedWeight(b)
    ensures EarnedPoints(a + b) == EarnedPoints(a) + EarnedPoints(b)
  {
    if a != [] {
      assert (a + b)[1..] == a[1..] + b;
      SumsSplit(a[1..], b);
    } else {
      assert a + b == b;
    }
  }

  /** What one schedule contributes to each ledger, wherever it stands. */
  lemma SumsAround(a: seq<Schedule>, s: Schedule, b: seq<Schedule>)
    ensures CompletedWeight(a + [s] + b)
         == CompletedWeight(a) + (if s.status == Completed then s.weight else 0.0) + CompletedWeight(b)
    ensures EarnedPoints(a + [s] + b)
         == EarnedPoints(a) + (if s.status == Completed then Round(s.weight * 10.0) else 0) + EarnedPoints(b)
  {
    SumsSplit(a + [s], b);
    SumsSplit(a, [s]);
    assert [s][1..] == [];
  }

  lemma InitialBalanced()
    ensures WeightBalanced(Initial()) && PointsBalanced(Initial())
  {
  }

  /** A new schedule is pending, so submitting keeps both ledgers. */
  lemma SubmitKeepsLedgers(st: State, form: PickupForm, at: Stamp, dateText: string, noteAt: Stamp)
    ensures var r := Submit(st, form, at, dateText, noteAt);
      && (WeightBalanced(st) ==> WeightBalanced(r))
      && (PointsBalanced(st) ==> PointsBalanced(r))
  {
    SumsAround(st.schedules, NewSchedule(form, at), []);
    assert st.schedules + [NewSchedule(form, at)] + [] == st.schedules + [NewSchedule(form, at)];
  }

  /** Completing adds the same weight and the same credit to both sides. */
  lemma CompleteKeepsLedgers(st: State, id: int, noteAt: Stamp)
    ensures var r := Complete(st, id, noteAt);
      && (WeightBalanced(st) ==> WeightBalanced(r))
      && (PointsBalanced(st) ==> PointsBalanced(r))
  {
    var i := FindIndex(st.schedules, id);
    if i >= 0 && st.schedules[i].status == Pending {
      var ss := st.schedules;
      var s := ss[i];
      assert ss == ss[..i] + [s] + ss[i + 1..];
      assert ss[i := s.(status := Completed)] == ss[..i] + [s.(status := Completed)] + ss[i + 1..];
      SumsAround(ss[..i], s, ss[i + 1..]);
      SumsAround(ss[..i], s.(status := Completed), ss[i + 1..]);
    }
  }

  /** Redeeming moves the cost from the balance to the vouchers. */
  lemma RedeemKeepsLedgers(st: State, name: string, cost: int, code: string, voucherAt: Stamp, noteAt: Stamp)
    ensures var r := Redeem(st, name, cost, code, voucherAt, noteAt);
      && (WeightBalanced(st) ==> WeightBalanced(r))
      && (PointsBalanced(st) ==> PointsBalanced(r))
  {
    var r := Redeem(st, name, cost, code, voucherAt, noteAt);
    if st.points >= cost {
      assert r.vouchers[1..] == st.vouchers;
    }
  }

  /** Notifications and navigation touch neither ledger. */
  lemma NoticesKeepLedgers(st: State, page: string, at: Stamp)
    ensures WeightBalanced(st) ==> WeightBalanced(Navigate(st, page)) && WeightBalanced(Greet(st, at))
    ensures PointsBalanced(st) ==> PointsBalanced(Navigate(st, page)) && PointsBalanced(Greet(st, at))
  {
  }

  /** Deleting shifts the ledgers apart: the total always loses the weight,
      the completed weight only when the schedule was completed, the balance
      never, the earned credit only when the schedule was completed. */
  lemma DeleteShiftsLedgers(st: State, id: int)
    requires exists j :: 0 <= j < |st.schedules| && st.schedules[j].id == id
    ensures var s := st.schedules[FindIndex(st.schedules, id)];
      var r := Delete(st, id);
      && r.wasteTotal == st.wasteTotal - s.weight
      && CompletedWeight(r.schedules)
         == CompletedWeight(st.schedules) - (if s.status == Completed then s.weight else 0.0)
      && r.points + SpentPoints(r.vouchers)
         == st.points + SpentPoints(st.vouchers)
      && EarnedPoints(r.schedules)
         == EarnedPoints(st.schedules) - (if s.status == Completed then Round(s.weight * 10.0) else 0)
  {
    var i := FindIndex(st.schedules, id);
    var ss := st.schedules;
    assert ss == ss[..i] + [ss[i]] + ss[i + 1..];
    SumsAround(ss[..i], ss[i], ss[i + 1..]);
    SumsSplit(ss[..i], ss[i + 1..]);
  }

  /** The flagged asymmetry: deleting a pending schedule of positive weight
      from a balanced state leaves the total below the completed weight. */
  lemma DeletingPendingUnbalancesTotal(st: State, id: int)
    requires WeightBalanced(st)
    requires var i := FindIndex(st.schedules, id);
      i >= 0 && st.schedules[i].status == Pending && st.schedules[i].weight > 0.0
    ensures !WeightBalanced(Delete(st, id))
    ensures Delete(st, id).wasteTotal
         == CompletedWeight(Delete(st, id).schedules) - st.schedules[FindIndex(st.schedules, id)].weight
  {
    DeleteShiftsLedgers(st, id);
  }

  /** Deleting a completed schedule keeps the total right but leaves its credit in the balance. */
  lemma DeletingCompletedKeepsCredit(st: State, id: int)
    requires WeightBalanced(st) && PointsBalanced(st)
    requires var i := FindIndex(st.schedules, id); i >= 0 && st.schedules[i].status == Completed
    ensures WeightBalanced(Delete(st, id))
    ensures var s := st.schedules[FindIndex(st.schedules, id)];
      var r := Delete(st, id);
      r.points + SpentPoints(r.vouchers) == EarnedPoints(r.schedules) + Round(s.weight * 10.0)
  {
    DeleteShiftsLedgers(st, id);
  }

  /** On a fresh state, a pending 3 kg schedule created and then deleted
      leaves a total of -3. */
  lemma CreateThenDeleteGoesNegative(form: PickupForm, at: Stamp, dateText: string, noteAt: Stamp)
    requires form.weight == 3.0
    ensures var r := Delete(Submit(Initial(), form, at, dateText, noteAt), at.millis);
      r.wasteTotal == -3.0 && r.schedules == [] && CompletedWeight(r.schedules) == 0.0
  {
    var st := Submit(Initial(), form, at, dateText, noteAt);
    assert st.schedules == [NewSchedule(form, at)];
    assert FindIndex(st.schedules, at.millis) == 0;
  }
}
