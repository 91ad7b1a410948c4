/** Client code driving `App.AppState` through three usage scenarios:
    completing a pickup, redeeming a reward and deleting a pending pickup.
    Each assertion is proved from the method contracts alone. */
module Scenarios {
  import opened Records
  import opened Notifications
  import opened VoucherCode
  import opened Workspace
  import opened App

  const Demo: PickupForm := PickupForm("organik", "2025-01-06", 2.5, "Jl. Demo", "-6.175392", "106.827153")

  /** Complete a 2.5 kg pickup: +25 points, +2.5 kg, one unread success notice
      at the head; completing it again changes nothing. */
  method CompletionScenario() {
    var app := new AppState();
    app.HandleScheduleSubmit(Demo, Stamp(1, "t1"), "Senin, 6 Januari 2025", Stamp(1, "t1"));
    app.CompleteSchedule(1, Stamp(2, "t2"));
    assert app.points == 25;
    assert app.totalWasteCollected == 2.5;
    assert |app.notifications| == 2;
    assert app.notifications[0].kind == Success && !app.notifications[0].read;
    assert app.schedules[0].status == Completed;
    var before := app.Snapshot();
    app.CompleteSchedule(1, Stamp(3, "t3"));
    assert app.Snapshot() == before;
  }

  /** Earn 50 points, redeem a 50-point reward: the balance is 0 and one
      voucher with an eight-character code is at the head. */
  method RedemptionScenario() {
    var app := new AppState();
    app.HandleScheduleSubmit(Demo.(weight := 5.0), Stamp(1, "t1"), "Senin, 6 Januari 2025", Stamp(1, "t1"));
    app.CompleteSchedule(1, Stamp(2, "t2"));
    assert app.points == 50;
    var draws := [0.0, 0.5, 0.25, 0.75, 0.1, 0.9, 0.3, 0.6];
    var ok := app.RedeemReward("Bibit Tanaman", 50, draws, Stamp(3, "t3"), Stamp(3, "t3"));
    assert ok && app.points == 0;
    assert |app.vouchers| == 1 && |app.vouchers[0].code| == 8;
    assert |app.notifications| == 3;
    ok := app.RedeemReward("Bibit Tanaman", 50, draws, Stamp(4, "t4"), Stamp(4, "t4"));
    assert !ok && app.points == 0 && |app.vouchers| == 1;
  }

  /** Create a 3 kg pickup and delete it while pending: the total drops to -3. */
  method PendingDeletionScenario() {
    var app := new AppState();
    app.HandleScheduleSubmit(Demo.(weight := 3.0), Stamp(7, "t1"), "Kamis, 9 Januari 2025", Stamp(7, "t1"));
    app.DeleteSchedule(7);
    assert app.schedules == [] && app.totalWasteCollected == -3.0;
    var listed := app.notifications;
    app.NavigateTo(NotificationsPage);
    NoUnreadAfterMarking(listed);
    assert UnreadCount(app.notifications) == 0 && |app.notifications| == 1;
  }
}
