/** The application state `appState` (script.js:4-12) as a value, and every
    operation that changes it as a function from the old state to the new one.
    The class `App.AppState` performs these operations in place and is proved
    against these functions. */
module Workspace {
  import opened Records
  import opened Numbers
  import opened Notifications

  datatype State = State(page: string, points: int, schedules: seq<Schedule>,
                         notifications: seq<Notification>, vouchers: seq<Voucher>,
                         wasteTotal: real)

  const StartPage: string := "beranda"
  const NotificationsPage: string := "notifikasi"
  /** The fixed time slot every schedule gets. */
  const PickupSlot: string := "07:00 - 12:00 (Slot Pagi)"

  /** The state before anything is loaded or done. */
  function Initial(): State {
    State(StartPage, 0, [], [], [], 0.0)
  }

  const WelcomeTitle: string := "Selamat Datang! \U{1F389}"
  const WelcomeMessage: string := "Terima kasih telah menggunakan WasteWise. Mari kelola sampah dengan bijak!"
  const CreatedTitle: string := "Jadwal Berhasil Dibuat! \U{1F4C5}"
  const CompletedTitle: string := "Penjemputan Selesai! \U{1F389}"
  const RedeemedTitle: string := "Reward Ditukar! \U{1F381}"

  function CreatedMessage(wasteType: string, dateText: string): string {
    "Penjemputan " + wasteType + " dijadwalkan pada " + dateText + ". Menunggu petugas."
  }

  function CompletedMessage(wasteType: string, earned: int): string {
    "Sampah " + wasteType + " telah dijemput. Anda mendapatkan +" + IntString(earned) + " poin!"
  }

  function RedeemedMessage(name: string, code: string): string {
    "Berhasil menukar " + name + ". Kode Voucher: " + code
  }

  /** `schedules.findIndex(s => s.id === id)`: the first position holding the id, or -1. */
  function FindIndex(ss: seq<Schedule>, id: int): (r: int)
    ensures -1 <= r < |ss|
    ensures r == -1 <==> forall j :: 0 <= j < |ss| ==> ss[j].id != id
    ensures r >= 0 ==> ss[r].id == id && forall j :: 0 <= j < r ==> ss[j].id != id
  {
    if ss == [] then -1
    else if ss[0].id == id then 0
    else
      var k := FindIndex(ss[1..], id);
      if k == -1 then -1 else k + 1
  }

  /** `addNotification` (script.js:477-488): a new unread entry at the head. */
  function Notify(st: State, title: string, message: string, kind: NoticeKind, at: Stamp): State {
    st.(notifications := [Notification(at.millis, title, message, kind, at.iso, false)] + st.notifications)
  }

  /** `markNotificationsAsRead` (script.js:490-493). */
  function MarkAllRead(st: State): State {
    st.(notifications := AllRead(st.notifications))
  }

  /** `addPoints` (script.js:537-540). */
  function Credit(st: State, amount: int): State {
    st.(points := st.points + amount)
  }

  /** The state part of `navigateTo` (script.js:153, 197-199). */
  function Navigate(st: State, page: string): State {
    var moved := st.(page := page);
    if page == NotificationsPage then MarkAllRead(moved) else moved
  }

  /** The welcome notice sent at start-up when the list is empty (script.js:35-41). */
  function Greet(st: State, at: Stamp): State {
    if |st.notifications| == 0 then Notify(st, WelcomeTitle, WelcomeMessage, Success, at) else st
  }

  /** The schedule `handleScheduleSubmit` builds (script.js:220-230). */
  function NewSchedule(form: PickupForm, at: Stamp): Schedule {
    Schedule(at.millis, form.wasteType, form.date, PickupSlot, form.weight,
             form.address, form.lat, form.lng, Pending, at.iso)
  }

  /** The state part of `handleScheduleSubmit` (script.js:220-240): append a
      pending schedule, then notify. `dateText` is what the locale formatter
      makes of the date. */
  function Submit(st: State, form: PickupForm, at: Stamp, dateText: string, noteAt: Stamp): State {
    var added := st.(schedules := st.schedules + [NewSchedule(form, at)]);
    Notify(added, CreatedTitle, CreatedMessage(form.wasteType, dateText), Info, noteAt)
  }

  /** `completeSchedule` (script.js:309-337). */
  function Complete(st: State, id: int, noteAt: Stamp): State {
    var i := FindIndex(st.schedules, id);
    if i == -1 then st
    else
      var s := st.schedules[i];
      if s.status == Completed then st
      else
        var earned := Round(s.weight * 10.0);
        var marked := st.(schedules := st.schedules[i := s.(status := Completed)]);
        var credited := Credit(marked, earned);
        var totalled := credited.(wasteTotal := credited.wasteTotal + s.weight);
        Notify(totalled, CompletedTitle, CompletedMessage(s.wasteType, earned), Success, noteAt)
  }

  /** `deleteSchedule` (script.js:246-255): the weight is subtracted whatever the status. */
  function Delete(st: State, id: int): State {
    var i := FindIndex(st.schedules, id);
    if i == -1 then st
    else
      st.(schedules := st.schedules[..i] + st.schedules[i + 1..],
          wasteTotal := st.wasteTotal - st.schedules[i].weight)
  }

  /** `redeemReward` (script.js:361-394) with the generated code as an input. */
  function Redeem(st: State, name: string, cost: int, code: string, voucherAt: Stamp, noteAt: Stamp): State {
    if st.points < cost then st
    else
      var paid := st.(points := st.points - cost,
                      vouchers := [Voucher(voucherAt.millis, name, code, voucherAt.iso, cost)] + st.vouchers);
      Notify(paid, RedeemedTitle, RedeemedMessage(name, code), Success, noteAt)
  }

  // ---------------------------------------------------------------------
  // Properties of the operations

  /** Changing a schedule without changing its id does not move `findIndex`. */
  lemma {:induction false} FindIndexIgnoresOtherFields(ss: seq<Schedule>, i: nat, x: Schedule, id: int)
    requires i < |ss| && x.id == ss[i].id
    ensures FindIndex(ss[i := x], id) == FindIndex(ss, id)
  {
    if ss != [] && ss[0].id != id && i > 0 {
      assert ss[i := x][1..] == ss[1..][i - 1 := x];
      FindIndexIgnoresOtherFields(ss[1..], i - 1, x, id);
    }
  }

  /** `addNotification` puts one unread entry at index 0 and shifts the rest by one. */
  lemma NotifyPrepends(st: State, title: string, message: string, kind: NoticeKind, at: Stamp)
    ensures var r := Notify(st, title, message, kind, at);
      && |r.notifications| == |st.notifications| + 1
      && r.notifications[0] == Notification(at.millis, title, message, kind, at.iso, false)
      && (forall k :: 0 <= k < |st.notifications| ==> r.notifications[k + 1] == st.notifications[k])
      && UnreadCount(r.notifications) == UnreadCount(st.notifications) + 1
      && r.(notifications := st.notifications) == st
  {
    UnreadAfterPrepend(Notification(at.millis, title, message, kind, at.iso, false), st.notifications);
  }

  /** Marking all as read keeps every entry and its place, and clears the badge. */
  lemma MarkAllReadClearsBadge(st: State)
    ensures var r := MarkAllRead(st);
      && UnreadCount(r.notifications) == 0
      && |r.notifications| == |st.notifications|
      && (forall k :: 0 <= k < |st.notifications| ==>
            r.notifications[k].id == st.notifications[k].id
            && r.notifications[k].title == st.notifications[k].title
            && r.notifications[k].message == st.notifications[k].message)
      && r.(notifications := st.notifications) == st
  {
    NoUnreadAfterMarking(st.notifications);
  }

  /** Entering the notifications page clears the badge; any other page changes only the page. */
  lemma NavigateEffect(st: State, page: string)
    ensures Navigate(st, page).page == page
    ensures page == NotificationsPage ==> Navigate(st, page).notifications == AllRead(st.notifications)
    ensures page == NotificationsPage ==> UnreadCount(Navigate(st, page).notifications) == 0
    ensures page != NotificationsPage ==> Navigate(st, page) == st.(page := page)
    ensures Navigate(st, page).(page := st.page, notifications := st.notifications) == st
  {
    NoUnreadAfterMarking(st.notifications);
  }

  /** The welcome notice is the only entry of a list that was empty; a
      non-empty list suppresses it. Nothing else changes. */
  lemma GreetOnlyWhenEmpty(st: State, at: Stamp)
    ensures |st.notifications| == 0 ==>
      Greet(st, at).notifications == [Notification(at.millis, WelcomeTitle, WelcomeMessage, Success, at.iso, false)]
    ensures |st.notifications| > 0 ==> Greet(st, at) == st
    ensures Greet(st, at).(notifications := st.notifications) == st
  {
  }

  /** Submitting appends one pending schedule at the end and one info notice at the head. */
  lemma SubmitAppendsPending(st: State, form: PickupForm, at: Stamp, dateText: string, noteAt: Stamp)
    ensures var r := Submit(st, form, at, dateText, noteAt);
      && |r.schedules| == |st.schedules| + 1
      && r.schedules[..|st.schedules|] == st.schedules
      && r.schedules[|st.schedules|]
         == Schedule(at.millis, form.wasteType, form.date, PickupSlot, form.weight,
                     form.address, form.lat, form.lng, Pending, at.iso)
      && r.notifications[1..] == st.notifications
      && r.notifications[0]
         == Notification(noteAt.millis, CreatedTitle, CreatedMessage(form.wasteType, dateText),
                         Info, noteAt.iso, false)
      && r.points == st.points && r.wasteTotal == st.wasteTotal && r.vouchers == st.vouchers
      && r.page == st.page
  {
  }

  /** An id that no schedule has: completing or deleting it changes nothing. */
  lemma UnknownIdIsIgnored(st: State, id: int, noteAt: Stamp)
    requires forall j :: 0 <= j < |st.schedules| ==> st.schedules[j].id != id
    ensures Complete(st, id, noteAt) == st
    ensures Delete(st, id) == st
  {
  }

  /** Completing an already completed schedule changes nothing. */
  lemma CompleteOnCompletedIsIgnored(st: State, id: int, noteAt: Stamp)
    requires var i := FindIndex(st.schedules, id); i >= 0 && st.schedules[i].status == Completed
    ensures Complete(st, id, noteAt) == st
  {
  }

  /** Completing a pending schedule: only that schedule's status changes, the
      balance rises by `Math.round(weight * 10)`, the total by the weight, and
      one success notice is put at the head. */
  lemma CompleteCreditsOnce(st: State, id: int, noteAt: Stamp)
    requires var i := FindIndex(st.schedules, id); i >= 0 && st.schedules[i].status == Pending
    ensures var i := FindIndex(st.schedules, id);
      var w := st.schedules[i].weight;
      var r := Complete(st, id, noteAt);
      && |r.schedules| == |st.schedules|
      && r.schedules[i] == st.schedules[i].(status := Completed)
      && (forall j :: 0 <= j < |st.schedules| && j != i ==> r.schedules[j] == st.schedules[j])
      && r.points == st.points + Round(w * 10.0)
      && r.wasteTotal == st.wasteTotal + w
      && r.notifications[1..] == st.notifications
      && r.notifications[0]
         == Notification(noteAt.millis, CompletedTitle,
                         CompletedMessage(st.schedules[i].wasteType, Round(w * 10.0)),
                         Success, noteAt.iso, false)
      && UnreadCount(r.notifications) == UnreadCount(st.notifications) + 1
      && r.vouchers == st.vouchers && r.page == st.page
  {
    var i := FindIndex(st.schedules, id);
    var s := st.schedules[i];
    var earned := Round(s.weight * 10.0);
    var r := Complete(st, id, noteAt);
    UnreadAfterPrepend(r.notifications[0], st.notifications);
    assert r.notifications == [r.notifications[0]] + st.notifications;
  }

  /** `completeSchedule` is idempotent: a second call, whatever its clock
      input, leaves the state of the first. */
  lemma CompleteIdempotent(st: State, id: int, first: Stamp, second: Stamp)
    ensures Complete(Complete(st, id, first), id, second) == Complete(st, id, first)
  {
    var i := FindIndex(st.schedules, id);
    if i >= 0 && st.schedules[i].status == Pending {
      var s := st.schedules[i];
      FindIndexIgnoresOtherFields(st.schedules, i, s.(status := Completed), id);
    }
  }

  /** Deleting an id that is present removes exactly its first schedule, keeps
      the order of the others, subtracts that schedule's weight from the total
      (pending or not) and touches nothing else. */
  lemma DeleteRemovesFirstMatch(st: State, id: int)
    requires exists j :: 0 <= j < |st.schedules| && st.schedules[j].id == id
    ensures var i := FindIndex(st.schedules, id);
      var r := Delete(st, id);
      && 0 <= i
      && st.schedules[i].id == id && (forall j :: 0 <= j < i ==> st.schedules[j].id != id)
      && |r.schedules| == |st.schedules| - 1
      && (forall j :: 0 <= j < i ==> r.schedules[j] == st.schedules[j])
      && (forall j :: i <= j < |r.schedules| ==> r.schedules[j] == st.schedules[j + 1])
      && multiset(r.schedules) + multiset{st.schedules[i]} == multiset(st.schedules)
      && r.wasteTotal == st.wasteTotal - st.schedules[i].weight
      && r.points == st.points && r.vouchers == st.vouchers
      && r.notifications == st.notifications && r.page == st.page
  {
    var i := FindIndex(st.schedules, id);
    var ss := st.schedules;
    assert ss == ss[..i] + [ss[i]] + ss[i + 1..];
  }

  /** A balance below the cost: nothing changes. */
  lemma RedeemRejected(st: State, name: string, cost: int, code: string, voucherAt: Stamp, noteAt: Stamp)
    requires st.points < cost
    ensures Redeem(st, name, cost, code, voucherAt, noteAt) == st
  {
  }

  /** A balance that covers the cost: the cost is deducted, one voucher and one
      notice are put at the head of their lists, everything else is kept. */
  lemma RedeemAccepted(st: State, name: string, cost: int, code: string, voucherAt: Stamp, noteAt: Stamp)
    requires st.points >= cost
    ensures var r := Redeem(st, name, cost, code, voucherAt, noteAt);
      && r.points == st.points - cost
      && r.points >= 0
      && |r.vouchers| == |st.vouchers| + 1
      && r.vouchers[0] == Voucher(voucherAt.millis, name, code, voucherAt.iso, cost)
      && r.vouchers[1..] == st.vouchers
      && |r.notifications| == |st.notifications| + 1
      && r.notifications[1..] == st.notifications
      && r.notifications[0]
         == Notification(noteAt.millis, RedeemedTitle, RedeemedMessage(name, code), Success, noteAt.iso, false)
      && UnreadCount(r.notifications) == UnreadCount(st.notifications) + 1
      && r.schedules == st.schedules && r.wasteTotal == st.wasteTotal && r.page == st.page
  {
    var r := Redeem(st, name, cost, code, voucherAt, noteAt);
    UnreadAfterPrepend(r.notifications[0], st.notifications);
    assert r.notifications == [r.notifications[0]] + st.notifications;
  }
}
