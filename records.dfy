/** The records held in the application state: pickup schedules,
    notifications and vouchers, each a plain value. */
module Records {

  /** A pickup request is created `Pending` and becomes `Completed` at most once. */
  datatype Status = Pending | Completed

  /** The `type` of a notification: the icon map of the notification list knows these three. */
  datatype NoticeKind = Info | Success | Warning

  /** One reading of the clock: `Date.now()` (used as an id) and
      `new Date().toISOString()` (used as a timestamp). The two are independent inputs. */
  datatype Stamp = Stamp(millis: int, iso: string)

  /** The values the schedule form supplies on submission. `weight` is the
      number `parseFloat` gives, taken as an exact real. */
  datatype PickupForm = PickupForm(wasteType: string, date: string, weight: real,
                                   address: string, lat: string, lng: string)

  /** One pickup request. */
  datatype Schedule = Schedule(id: int, wasteType: string, date: string, time: string,
                               weight: real, address: string, lat: string, lng: string,
                               status: Status, createdAt: string)

  /** One notification; `read` is the only field that ever changes. */
  datatype Notification = Notification(id: int, title: string, message: string,
                                       kind: NoticeKind, timestamp: string, read: bool)

  /** The receipt of one redeemed reward. */
  datatype Voucher = Voucher(id: int, name: string, code: string, date: string, cost: int)
}
