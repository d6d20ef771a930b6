/**
 * The order dashboard (src/app/admin/page.tsx): the search over the listed
 * rows, the total shown for each order, which status buttons each order
 * offers, and the set of orders whose file is being downloaded.
 */
module Admin {
  import opened Wrappers
  import opened Text
  import opened Records
  import opened Webhooks

  // ---------------------------------------------------------------------------
  // Search

  /** `(x || "")`: a missing text searches as the empty string. */
  function TextOrEmpty(s: Option<string>): string {
    s.GetOr("")
  }

  function FileNameOf(r: Row): string {
    if r.printDoc.Some? then r.printDoc.value.args.fileName else ""
  }

  /** The term occurs in the lower-cased file name, customer email or customer name. */
  predicate RowMatches(r: Row, term: string) {
    || Contains(ToLower(FileNameOf(r)), term)
    || Contains(ToLower(TextOrEmpty(r.order.order.customerEmail)), term)
    || Contains(ToLower(TextOrEmpty(r.order.order.customerName)), term)
  }

  /** The search term: trimmed and lower-cased. */
  function SearchTerm(q: string): string {
    ToLower(Trim(q))
  }

  function KeepMatching(rows: seq<Row>, term: string): (r: seq<Row>)
    ensures forall x :: x in r <==> x in rows && RowMatches(x, term)
    ensures |r| <= |rows|
  {
    if |rows| == 0 then []
    else
      var init := KeepMatching(rows[..|rows| - 1], term);
      var last := rows[|rows| - 1];
      assert rows == rows[..|rows| - 1] + [last];
      if RowMatches(last, term) then init + [last] else init
  }

  /** `filtered`: the rows unchanged for an empty term, otherwise the matching rows in their order. */
  function Filtered(rows: seq<Row>, q: string): (r: seq<Row>)
    ensures SearchTerm(q) == "" ==> r == rows
    ensures SearchTerm(q) != "" ==> forall x :: x in r <==> x in rows && RowMatches(x, SearchTerm(q))
  {
    var term := SearchTerm(q);
    if term == "" then rows else KeepMatching(rows, term)
  }

  /** a can be obtained from b by deleting elements. */
  predicate IsSubsequence<T(==)>(a: seq<T>, b: seq<T>)
    decreases |b|
  {
    if |a| == 0 then true
    else if |b| == 0 then false
    else if a[|a| - 1] == b[|b| - 1] then IsSubsequence(a[..|a| - 1], b[..|b| - 1])
    else IsSubsequence(a, b[..|b| - 1])
  }

  lemma {:induction false} SubsequenceOfSelf<T>(s: seq<T>)
    ensures IsSubsequence(s, s)
    decreases |s|
  {
    if |s| > 0 {
      SubsequenceOfSelf(s[..|s| - 1]);
    }
  }

  lemma {:induction false} KeepMatchingIsSubsequence(rows: seq<Row>, term: string)
    ensures IsSubsequence(KeepMatching(rows, term), rows)
    decreases |rows|
  {
    if |rows| > 0 {
      var init := rows[..|rows| - 1];
      KeepMatchingIsSubsequence(init, term);
      var r := KeepMatching(rows, term);
      if RowMatches(rows[|rows| - 1], term) {
        assert r[..|r| - 1] == KeepMatching(init, term);
      }
    }
  }

  /**
   * The search keeps the rows in their listed order, drops only rows that do
   * not match, and every kept row has the term in its file name, email or name.
   */
  lemma FilteredIsOrderPreservingSelection(rows: seq<Row>, q: string)
    ensures IsSubsequence(Filtered(rows, q), rows)
    ensures forall x :: x in rows && RowMatches(x, SearchTerm(q)) ==> x in Filtered(rows, q)
    ensures forall x :: x in Filtered(rows, q) ==> x in rows && RowMatches(x, SearchTerm(q))
  {
    if SearchTerm(q) == "" {
      SubsequenceOfSelf(rows);
      forall x | x in rows
        ensures RowMatches(x, SearchTerm(q))
      {
        ContainsEmpty(ToLower(FileNameOf(x)));
      }
    } else {
      KeepMatchingIsSubsequence(rows, SearchTerm(q));
    }
  }

  /** Surrounding spaces in the search box change nothing. */
  lemma SearchIgnoresSurroundingWhitespace(rows: seq<Row>, q: string)
    ensures Filtered(rows, Trim(q)) == Filtered(rows, q)
  {
    TrimIdempotent(q);
  }

  // ---------------------------------------------------------------------------
  // Total and status actions

  /** `order.amountTotal ?? print?.total ?? 0`. */
  function DisplayTotal(r: Row): (t: real)
    ensures r.order.order.amountTotal.Some? ==> t == r.order.order.amountTotal.value
    ensures r.order.order.amountTotal.None? && r.printDoc.Some? ==> t == r.printDoc.value.args.total
    ensures r.order.order.amountTotal.None? && r.printDoc.None? ==> t == 0.0
  {
    if r.order.order.amountTotal.Some? then r.order.order.amountTotal.value
    else if r.printDoc.Some? then r.printDoc.value.args.total
    else 0.0
  }

  /** A new order shows its print's estimated total. */
  lemma NewOrderShowsEstimate(id: OrderId, printId: PrintId, p: Print, now: int)
    ensures DisplayTotal(Row(OrderDoc(id, NewOrder(printId, now)), Some(p))) == p.args.total
  {
  }

  /** Once a completed session with a non-zero total is stored, the dashboard shows Stripe's amount. */
  lemma PaidOrderShowsChargedAmount(id: OrderId, o: Order, s: RetrievedSession, p: Option<Print>, cents: int)
    requires s.amountTotalCents == Some(cents) && cents != 0
    ensures 100.0 * DisplayTotal(Row(OrderDoc(id, CompletedOrder(o, s)), p)) == cents as real
  {
  }

  predicate ShowsMarkPaid(o: Order) {
    o.status != Paid
  }

  predicate ShowsCancel(o: Order) {
    o.status != Canceled
  }

  /** Every order offers at least one button; a paid order can be canceled and a canceled one marked paid. */
  lemma StatusButtons(o: Order)
    ensures ShowsMarkPaid(o) || ShowsCancel(o)
    ensures o.status == Paid ==> ShowsCancel(o) && !ShowsMarkPaid(o)
    ensures o.status == Canceled ==> ShowsMarkPaid(o) && !ShowsCancel(o)
    ensures o.status == Draft ==> ShowsMarkPaid(o) && ShowsCancel(o)
    ensures ShowsMarkPaid(o) ==> PatchStatus(o, Paid).status == Paid && !ShowsMarkPaid(PatchStatus(o, Paid))
    ensures ShowsCancel(o) ==> !ShowsCancel(PatchStatus(o, Canceled))
  {
  }

  // ---------------------------------------------------------------------------
  // Downloads

  /** How a download attempt ends: no URL, a failed fetch, or a saved file. */
  datatype DownloadResult = NoUrl | Failed(message: string) | Saved

  class AdminPage {
    var downloadingIds: set<OrderId>

    constructor ()
      ensures downloadingIds == {}
    {
      downloadingIds := {};
    }

    /** The download button of an order is disabled while its download runs. */
    function DownloadDisabled(id: OrderId): (r: bool)
      reads this
      ensures r <==> id in downloadingIds
    {
      id in downloadingIds
    }

    method StartDownload(id: OrderId)
      modifies this
      ensures downloadingIds == old(downloadingIds) + {id}
      ensures DownloadDisabled(id)
    {
      downloadingIds := downloadingIds + {id};
    }

    method FinishDownload(id: OrderId)
      modifies this
      ensures downloadingIds == old(downloadingIds) - {id}
      ensures !DownloadDisabled(id)
    {
      downloadingIds := downloadingIds - {id};
    }

    /**
     * The download handler: mark the order as downloading, run the download,
     * and unmark it in `finally`, whichever way the download ended.
     */
    method Download(id: OrderId, result: DownloadResult) returns (saved: bool)
      modifies this
      ensures saved <==> result.Saved?
      ensures downloadingIds == old(downloadingIds) - {id}
    {
      StartDownload(id);
      match result {
        case NoUrl => saved := false;
        case Failed(_) => saved := false;
        case Saved => saved := true;
      }
      FinishDownload(id);
    }
  }
}
