/**
 * The admin dealers page: the application list with its pending count, a
 * detail panel for the selected application, and status changes.
 */
module DealersPage {
  import opened Wrappers
  import opened Seqs
  import opened Store
  import opened Client

  /** The status choices of the status menu. */
  const StatusOptions: seq<DealerStatus> := [DealerStatus.Pending, Reviewing, Accepted, Rejected]

  /** The menu offers every status exactly once. */
  lemma StatusOptionsListEachOnce(s: DealerStatus)
    ensures multiset(StatusOptions)[s] == 1
  {
  }

  const StatusUpdated := "Status updated!"

  predicate IsPending(d: Row<DealerApplication>) {
    d.data.status == DealerStatus.Pending
  }

  /** The "N pending" figure in the page header. */
  function PendingCount(dealers: seq<Row<DealerApplication>>): (n: nat)
    ensures n <= |dealers|
  {
    Count(dealers, IsPending)
  }

  /** The header reads "0 pending" exactly when no listed application is pending. */
  lemma NoPendingIffNoneListed(dealers: seq<Row<DealerApplication>>)
    ensures PendingCount(dealers) == 0 <==>
      forall i :: 0 <= i < |dealers| ==> dealers[i].data.status != DealerStatus.Pending
  {
    CountZero(dealers, IsPending);
  }

  /** A freshly submitted application is counted: appending one raises the pending count by exactly one. */
  lemma {:induction false} NewApplicationCounted(dealers: seq<Row<DealerApplication>>, d: Row<DealerApplication>)
    requires d.data.status == DealerStatus.Pending
    ensures PendingCount(dealers + [d]) == PendingCount(dealers) + 1
  {
    CountAppend(dealers, [d], IsPending);
    assert [d][1..] == [];
  }

  class Page {
    var dealers: seq<Row<DealerApplication>>
    var selected: Option<Row<DealerApplication>>
    var toast: Option<Toast>

    constructor ()
      ensures dealers == [] && selected.None? && toast.None?
    {
      dealers, selected, toast := [], None, None;
    }

    /** `fetchDealers`: the list as the dealers route returned it (None when no list came back). */
    method Refresh(data: Option<seq<Row<DealerApplication>>>)
      modifies this`dealers
      ensures dealers == data.GetOr(old(dealers))
    {
      if data.Some? {
        dealers := data.value;
      }
    }

    /** A row was clicked, or the detail panel closed (None). */
    method Select(d: Option<Row<DealerApplication>>)
      modifies this`selected
      ensures selected == d
    {
      selected := d;
    }

    /**
     * `updateStatus`: the PUT is always sent; only a successful answer
     * shows the toast, reloads the list and, when the application is the
     * one in the detail panel, updates the panel's status and nothing else.
     */
    method UpdateStatus(id: nat, newStatus: DealerStatus, outcome: FetchOutcome, refreshed: Option<seq<Row<DealerApplication>>>)
      returns (req: Request<DealerStatus>)
      modifies this`dealers, this`selected, this`toast
      ensures req == Request(PUT, Item(id), newStatus)
      ensures !Succeeded(outcome) ==> dealers == old(dealers) && selected == old(selected) && toast == old(toast)
      ensures Succeeded(outcome) ==>
        && toast == Some(Toast(Success, StatusUpdated))
        && dealers == refreshed.GetOr(old(dealers))
        && (old(selected).Some? && old(selected).value.id == id ==>
              && selected.Some? && selected.value.data.status == newStatus
              && selected.value == old(selected).value.(data := old(selected).value.data.(status := newStatus)))
        && (old(selected).None? || old(selected).value.id != id ==> selected == old(selected))
    {
      req := Request(PUT, Item(id), newStatus);
      if Succeeded(outcome) {
        toast := Some(Toast(Success, StatusUpdated));
        Refresh(refreshed);
        if selected.Some? && selected.value.id == id {
          selected := Some(selected.value.(data := selected.value.data.(status := newStatus)));
        }
      }
    }
  }
}
