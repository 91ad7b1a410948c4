/** Sequences of user actions, and the guarantee that the balance never goes
    negative as long as every submitted weight is non-negative. */
module Runs {
  import opened Records
  import opened Numbers
  import opened Workspace

  /** One event the page forwards to the state. */
  datatype Action =
    | SubmitPickup(form: PickupForm, at: Stamp, dateText: string, noteAt: Stamp)
    | CompletePickup(id: int, noteAt: Stamp)
    | DeletePickup(id: int)
    | RedeemPoints(name: string, cost: int, code: string, voucherAt: Stamp, noteAt: Stamp)
    | OpenPage(page: string)
    | WelcomeUser(at: Stamp)

  function Apply(st: State, a: Action): State {
    match a
    case SubmitPickup(form, at, dateText, noteAt) => Submit(st, form, at, dateText, noteAt)
    case CompletePickup(id, noteAt) => Complete(st, id, noteAt)
    case DeletePickup(id) => Delete(st, id)
    case RedeemPoints(name, cost, code, voucherAt, noteAt) => Redeem(st, name, cost, code, voucherAt, noteAt)
    case OpenPage(page) => Navigate(st, page)
    case WelcomeUser(at) => Greet(st, at)
  }

  /** The actions applied in order. */
  function Run(st: State, acts: seq<Action>): State
    decreases |acts|
  {
    if acts == [] then st else Run(Apply(st, acts[0]), acts[1..])
  }

  predicate NonNegativeWeight(a: Action) {
    a.SubmitPickup? ==> a.form.weight >= 0.0
  }

  /** What keeps the balance from going negative. */
  predicate Sound(st: State) {
    && st.points >= 0
    && forall j :: 0 <= j < |st.schedules| ==> st.schedules[j].weight >= 0.0
  }

  lemma CompleteKeepsSound(st: State, id: int, noteAt: Stamp)
    requires Sound(st)
    ensures Sound(Complete(st, id, noteAt))
  {
    var i := FindIndex(st.schedules, id);
    if i >= 0 && st.schedules[i].status == Pending {
      RoundOfNonNegative(st.schedules[i].weight * 10.0);
      var r := Complete(st, id, noteAt);
      assert forall j :: 0 <= j < |r.schedules| ==> r.schedules[j].weight == st.schedules[j].weight;
    }
  }

  lemma DeleteKeepsSound(st: State, id: int)
    requires Sound(st)
    ensures Sound(Delete(st, id))
  {
    var i := FindIndex(st.schedules, id);
    if i >= 0 {
      var r := Delete(st, id);
      assert forall j :: 0 <= j < |r.schedules| ==>
        r.schedules[j] == (if j < i then st.schedules[j] else st.schedules[j + 1]);
    }
  }

  lemma SubmitKeepsSound(st: State, form: PickupForm, at: Stamp, dateText: string, noteAt: Stamp)
    requires Sound(st) && form.weight >= 0.0
    ensures Sound(Submit(st, form, at, dateText, noteAt))
  {
    var r := Submit(st, form, at, dateText, noteAt);
    assert forall j :: 0 <= j < |r.schedules| ==>
      r.schedules[j] == (if j < |st.schedules| then st.schedules[j] else NewSchedule(form, at));
  }

  lemma ApplyKeepsSound(st: State, a: Action)
    requires Sound(st) && NonNegativeWeight(a)
    ensures Sound(Apply(st, a))
  {
    match a
    case SubmitPickup(form, at, dateText, noteAt) => SubmitKeepsSound(st, form, at, dateText, noteAt);
    case CompletePickup(id, noteAt) => CompleteKeepsSound(st, id, noteAt);
    case DeletePickup(id) => DeleteKeepsSound(st, id);
    case RedeemPoints(name, cost, code, voucherAt, noteAt) =>
    case OpenPage(page) =>
    case WelcomeUser(at) =>
  }

  lemma {:induction false} RunKeepsSound(st: State, acts: seq<Action>)
    requires Sound(st)
    requires forall k :: 0 <= k < |acts| ==> NonNegativeWeight(acts[k])
    ensures Sound(Run(st, acts))
    decreases |acts|
  {
    if acts != [] {
      ApplyKeepsSound(st, acts[0]);
      RunKeepsSound(Apply(st, acts[0]), acts[1..]);
    }
  }

  /** From the initial state, no sequence of actions with non-negative weights
      drives the balance below zero. */
  lemma {:induction false} BalanceNeverNegative(acts: seq<Action>)
    requires forall k :: 0 <= k < |acts| ==> NonNegativeWeight(acts[k])
    ensures Run(Initial(), acts).points >= 0
  {
    RunKeepsSound(Initial(), acts);
  }
}
