/** `GET /api/admin/stats`: the dashboard's five counters. */
module StatsRoute {
  import opened Wrappers
  import opened Seqs
  import opened Store
  import opened Http

  datatype Stats = Stats(products: nat, orders: nat, pincodes: nat, dealers: nat, pendingOrders: nat)

  predicate IsActive(p: Row<Pincode>) {
    p.data.isActive
  }

  predicate IsPending(q: Row<OrderInquiry>) {
    q.data.status == OrderStatus.Pending
  }

  /**
   * 401 without a session. Otherwise: every product, enquiry and dealer
   * application, but only the active pincodes and the PENDING enquiries.
   */
  function GetStats(session: Option<Session>, db: Database): (r: Response<Stats>)
    reads db
    ensures session.None? ==> r == Unauthorized()
    ensures session.Some? ==> r.Ok? && r.status == 200
    ensures r.Ok? ==>
      && r.body.products == |db.products.rows| && r.body.orders == |db.inquiries.rows|
      && r.body.dealers == |db.dealers.rows|
      && r.body.pincodes == |Filter(db.pincodes.rows, IsActive)|
      && r.body.pendingOrders == |Filter(db.inquiries.rows, IsPending)|
      && r.body.pendingOrders <= r.body.orders && r.body.pincodes <= |db.pincodes.rows|
  {
    if session.None? then Unauthorized()
    else
      CountIsFilterLength(db.pincodes.rows, IsActive);
      CountIsFilterLength(db.inquiries.rows, IsPending);
      Ok(200, Stats(
        products := |db.products.rows|,
        orders := |db.inquiries.rows|,
        pincodes := Count(db.pincodes.rows, IsActive),
        dealers := |db.dealers.rows|,
        pendingOrders := Count(db.inquiries.rows, IsPending)))
  }

  /** A pending counter of zero means no enquiry is PENDING. */
  lemma NoPendingMeansNonePending(session: Session, db: Database)
    ensures GetStats(Some(session), db).body.pendingOrders == 0 <==>
      forall i :: 0 <= i < |db.inquiries.rows| ==> db.inquiries.rows[i].data.status != OrderStatus.Pending
  {
    CountZero(db.inquiries.rows, IsPending);
  }
}
