/** The shared `appState` object (script.js:4-12) and the operations that
    update it in place. Each method is proved to leave the state that the
    matching function of `Workspace` describes. */
module App {
  import opened Records
  import opened Numbers
  import opened Notifications
  import opened VoucherCode
  import opened Workspace

  class AppState {
    var currentPage: string
    var points: int
    var schedules: seq<Schedule>
    var notifications: seq<Notification>
    var vouchers: seq<Voucher>
    var totalWasteCollected: real

    /** The fields as one value. */
    function Snapshot(): State
      reads this
    {
      State(currentPage, points, schedules, notifications, vouchers, totalWasteCollected)
    }

    /** The object literal at script.js:4-12. */
    constructor ()
      ensures Snapshot() == Initial()
    {
      currentPage := StartPage;
      points := 0;
      schedules := [];
      notifications := [];
      vouchers := [];
      totalWasteCollected := 0.0;
    }

    method AddNotification(title: string, message: string, kind: NoticeKind, at: Stamp)
      modifies this
      ensures Snapshot() == Notify(old(Snapshot()), title, message, kind, at)
    {
      var notification := Notification(at.millis, title, message, kind, at.iso, false);
      notifications := [notification] + notifications;
    }

    method MarkNotificationsAsRead()
      modifies this
      ensures Snapshot() == MarkAllRead(old(Snapshot()))
    {
      var i := 0;
      while i < |notifications|
        invariant 0 <= i <= |notifications| == |old(notifications)|
        invariant forall k :: 0 <= k < i ==> notifications[k] == old(notifications)[k].(read := true)
        invariant forall k :: i <= k < |notifications| ==> notifications[k] == old(notifications)[k]
        invariant currentPage == old(currentPage) && points == old(points)
        invariant schedules == old(schedules) && vouchers == old(vouchers)
        invariant totalWasteCollected == old(totalWasteCollected)
      {
        notifications := notifications[i := notifications[i].(read := true)];
        i := i + 1;
      }
      assert notifications == AllRead(old(notifications));
    }

    method AddPoints(amount: int)
      modifies this
      ensures Snapshot() == Credit(old(Snapshot()), amount)
    {
      points := points + amount;
    }

    method NavigateTo(page: string)
      modifies this
      ensures Snapshot() == Navigate(old(Snapshot()), page)
    {
      currentPage := page;
      if page == NotificationsPage {
        MarkNotificationsAsRead();
      }
    }

    /** The start-up greeting (script.js:35-41). */
    method GreetIfEmpty(at: Stamp)
      modifies this
      ensures Snapshot() == Greet(old(Snapshot()), at)
    {
      if |notifications| == 0 {
        AddNotification(WelcomeTitle, WelcomeMessage, Success, at);
      }
    }

    method HandleScheduleSubmit(form: PickupForm, at: Stamp, dateText: string, noteAt: Stamp)
      modifies this
      ensures Snapshot() == Submit(old(Snapshot()), form, at, dateText, noteAt)
    {
      var schedule := NewSchedule(form, at);
      schedules := schedules + [schedule];
      AddNotification(CreatedTitle, CreatedMessage(form.wasteType, dateText), Info, noteAt);
    }

    method DeleteSchedule(id: int)
      modifies this
      ensures Snapshot() == Delete(old(Snapshot()), id)
    {
      var index := FindIndex(schedules, id);
      if index != -1 {
        var schedule := schedules[index];
        schedules := schedules[..index] + schedules[index + 1..];
        totalWasteCollected := totalWasteCollected - schedule.weight;
      }
    }

    method CompleteSchedule(id: int, noteAt: Stamp)
      modifies this
      ensures Snapshot() == Complete(old(Snapshot()), id, noteAt)
    {
      var index := FindIndex(schedules, id);
      if index != -1 {
        var schedule := schedules[index];
        if schedule.status == Completed {
          return;
        }
        schedules := schedules[index := schedule.(status := Completed)];
        var pointsEarned := Round(schedule.weight * 10.0);
        AddPoints(pointsEarned);
        totalWasteCollected := totalWasteCollected + schedule.weight;
        AddNotification(CompletedTitle, CompletedMessage(schedule.wasteType, pointsEarned), Success, noteAt);
      }
    }

    /** `redeemReward`; `draws` are the values `Math.random()` returns while
        the code is generated. The result tells whether the guard let the
        redemption through. */
    method RedeemReward(rewardName: string, pointsCost: int, draws: seq<real>, voucherAt: Stamp, noteAt: Stamp)
      returns (redeemed: bool)
      requires ValidDraws(draws)
      modifies this
      ensures redeemed == (old(points) >= pointsCost)
      ensures Snapshot() == Redeem(old(Snapshot()), rewardName, pointsCost, CodeFrom(draws), voucherAt, noteAt)
    {
      if points < pointsCost {
        return false;
      }
      points := points - pointsCost;
      var voucherCode := GenerateVoucherCode(draws);
      var voucher := Voucher(voucherAt.millis, rewardName, voucherCode, voucherAt.iso, pointsCost);
      vouchers := [voucher] + vouchers;
      AddNotification(RedeemedTitle, RedeemedMessage(rewardName, voucherCode), Success, noteAt);
      redeemed := true;
    }
  }
}
