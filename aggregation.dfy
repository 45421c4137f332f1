/** The two summaries folded from the normalised leads (GdeslonApi.js,
    `getStatisticsOffersByOfferId` and `getWebmasterCommissions`). Each running total is rounded
    to cents after every addition. */
module Aggregation {
  import opened Wrappers
  import opened DateWindow
  import opened Statuses
  import opened Money
  import opened LeadFeed

  /** The buckets of the offer-centric summary: hold counts as open, paid as approved. */
  const OFFER_REJECTED: set<Status> := {Rejected}
  const OFFER_OPEN: set<Status> := {Open, Hold}
  const OFFER_APPROVED: set<Status> := {Approved, Paid}

  /** The buckets of the webmaster summary: approved and paid are kept apart. */
  const WEBMASTER_REJECTED: set<Status> := {Rejected}
  const WEBMASTER_OPEN: set<Status> := {Open, Hold}
  const WEBMASTER_APPROVED: set<Status> := {Approved}
  const WEBMASTER_PAID: set<Status> := {Paid}

  /** The result object of `getStatisticsOffersByOfferId`. */
  datatype OfferStatistics = OfferStatistics(
    offerId: Option<int>,
    clicks: int,
    backUrlCount: int,
    leadsRejected: nat,
    leadsOpen: nat,
    leadsApproved: nat,
    commissionRejected: real,
    commissionOpen: real,
    commissionApproved: real)

  /** The result object of `getWebmasterCommissions`. */
  datatype WebmasterCommissions = WebmasterCommissions(
    commissionRejected: real,
    commissionOpen: real,
    commissionApproved: real,
    paid: real)

  /** Why `getWebmasterCommissions` throws: `for (let item of false)` after a failed fetch. */
  datatype Error = NotIterable

  /** The number of leads whose status is in `bucket`: the counter `leads...++`. */
  function BucketCount(leads: seq<Lead>, bucket: set<Status>): nat
  {
    if leads == [] then 0
    else
      var last := leads[|leads| - 1];
      BucketCount(leads[..|leads| - 1], bucket) + if last.status in bucket then 1 else 0
  }

  /** A bucket's running total after all the leads, rounded after every lead of the bucket:
      `total = Number((total + item.commission).toFixed(2))`. */
  function BucketTotal(leads: seq<Lead>, bucket: set<Status>): real
  {
    if leads == [] then 0.0
    else
      var last := leads[|leads| - 1];
      var before := BucketTotal(leads[..|leads| - 1], bucket);
      if last.status in bucket then Round2(before + last.commission) else before
  }

  /** The offer-centric summary, bucket by bucket. */
  function OfferSummary(offerId: Option<int>, leads: seq<Lead>): OfferStatistics
  {
    OfferStatistics(
      offerId, 0, 0,
      BucketCount(leads, OFFER_REJECTED),
      BucketCount(leads, OFFER_OPEN),
      BucketCount(leads, OFFER_APPROVED),
      BucketTotal(leads, OFFER_REJECTED),
      BucketTotal(leads, OFFER_OPEN),
      BucketTotal(leads, OFFER_APPROVED))
  }

  /** The webmaster summary, bucket by bucket. */
  function WebmasterSummary(leads: seq<Lead>): WebmasterCommissions
  {
    WebmasterCommissions(
      BucketTotal(leads, WEBMASTER_REJECTED),
      BucketTotal(leads, WEBMASTER_OPEN),
      BucketTotal(leads, WEBMASTER_APPROVED),
      BucketTotal(leads, WEBMASTER_PAID))
  }

  // ---------------------------------------------------------------- A bucket as a list

  /** The leads whose status is in `bucket`, in list order. */
  function Selected(leads: seq<Lead>, bucket: set<Status>): seq<Lead>
  {
    if leads == [] then []
    else
      var last := leads[|leads| - 1];
      Selected(leads[..|leads| - 1], bucket) + if last.status in bucket then [last] else []
  }

  /** The commissions of some leads, in the same order. */
  function Commissions(leads: seq<Lead>): (cs: seq<real>)
    ensures |cs| == |leads|
    ensures forall i :: 0 <= i < |leads| ==> cs[i] == leads[i].commission
  {
    if leads == [] then [] else Commissions(leads[..|leads| - 1]) + [leads[|leads| - 1].commission]
  }

  lemma CommissionsSnoc(leads: seq<Lead>, l: Lead)
    ensures Commissions(leads + [l]) == Commissions(leads) + [l.commission]
  {
    assert (leads + [l])[..|leads|] == leads;
  }

  /** A bucket's count is the number of its leads. */
  lemma {:induction false} CountIsSelected(leads: seq<Lead>, bucket: set<Status>)
    ensures BucketCount(leads, bucket) == |Selected(leads, bucket)|
  {
    if leads != [] {
      CountIsSelected(leads[..|leads| - 1], bucket);
    }
  }

  /** A bucket's total is the per-step rounded fold over the commissions of its own leads, in
      list order, from 0: the interleaving of the other buckets does not matter. */
  lemma {:induction false} TotalIsFoldOfSelected(leads: seq<Lead>, bucket: set<Status>)
    ensures BucketTotal(leads, bucket) == RoundedSum(Commissions(Selected(leads, bucket)))
  {
    if leads != [] {
      var init, last := leads[..|leads| - 1], leads[|leads| - 1];
      TotalIsFoldOfSelected(init, bucket);
      var sel := Selected(init, bucket);
      if last.status in bucket {
        assert Selected(leads, bucket) == sel + [last];
        CommissionsSnoc(sel, last);
        RoundedSumSnoc(Commissions(sel), last.commission);
      } else {
        assert Selected(leads, bucket) == sel + [] == sel;
      }
    }
  }

  /** Every bucket total is a whole number of cents, within half a cent per lead of the bucket
      of the exact sum of that bucket's commissions. */
  lemma BucketTotalBounds(leads: seq<Lead>, bucket: set<Status>)
    ensures IsCents(BucketTotal(leads, bucket))
    ensures var exact, n := Sum(Commissions(Selected(leads, bucket))), BucketCount(leads, bucket);
      -0.005 * n as real <= BucketTotal(leads, bucket) - exact <= 0.005 * n as real
  {
    CountIsSelected(leads, bucket);
    TotalIsFoldOfSelected(leads, bucket);
    RoundedSumBounds(Commissions(Selected(leads, bucket)));
  }

  /** Selection distributes over concatenation, so a bucket keeps the list order. */
  lemma {:induction false} SelectedAppend(a: seq<Lead>, b: seq<Lead>, bucket: set<Status>)
    ensures Selected(a + b, bucket) == Selected(a, bucket) + Selected(b, bucket)
  {
    if b == [] {
      assert a + b == a;
    } else {
      var init, last := b[..|b| - 1], b[|b| - 1];
      assert a + b == (a + init) + [last];
      assert (a + b)[..|a + b| - 1] == a + init;
      SelectedAppend(a, init, bucket);
    }
  }

  // ---------------------------------------------------------------- Properties of the buckets

  /** One more lead adds one to the count and its commission, rounded, to the total of its
      own bucket, and leaves a bucket it is not in as it was. */
  lemma BucketStep(leads: seq<Lead>, l: Lead, bucket: set<Status>)
    ensures BucketCount(leads + [l], bucket)
         == BucketCount(leads, bucket) + if l.status in bucket then 1 else 0
    ensures BucketTotal(leads + [l], bucket)
         == if l.status in bucket then Round2(BucketTotal(leads, bucket) + l.commission)
            else BucketTotal(leads, bucket)
  {
    assert (leads + [l])[..|leads|] == leads;
  }

  /** Two disjoint buckets count as many leads as their union. */
  lemma {:induction false} CountDisjointUnion(leads: seq<Lead>, b1: set<Status>, b2: set<Status>)
    requires b1 !! b2
    ensures BucketCount(leads, b1 + b2) == BucketCount(leads, b1) + BucketCount(leads, b2)
  {
    if leads != [] {
      CountDisjointUnion(leads[..|leads| - 1], b1, b2);
    }
  }

  /** A lead with a passed-through status changes no count and no total of a bucket of
      canonical statuses, wherever it stands in the list. */
  lemma {:induction false} BucketIgnoresUnknown(a: seq<Lead>, u: Lead, b: seq<Lead>, bucket: set<Status>)
    requires !u.status.IsCanonical() && forall s :: s in bucket ==> s.IsCanonical()
    ensures BucketCount(a + [u] + b, bucket) == BucketCount(a + b, bucket)
    ensures BucketTotal(a + [u] + b, bucket) == BucketTotal(a + b, bucket)
  {
    if b == [] {
      assert a + [u] + b == a + [u] && a + b == a;
      BucketStep(a, u, bucket);
    } else {
      var init, last := b[..|b| - 1], b[|b| - 1];
      BucketIgnoresUnknown(a, u, init, bucket);
      assert a + [u] + b == (a + [u] + init) + [last];
      assert a + b == (a + init) + [last];
      BucketStep(a + [u] + init, last, bucket);
      BucketStep(a + init, last, bucket);
    }
  }

  /** The three offer buckets together count exactly the leads with a canonical status. */
  lemma OfferCountConservation(offerId: Option<int>, leads: seq<Lead>)
    ensures var s := OfferSummary(offerId, leads);
      s.leadsRejected + s.leadsOpen + s.leadsApproved == BucketCount(leads, CANONICAL)
  {
    CountDisjointUnion(leads, OFFER_REJECTED, OFFER_OPEN);
    CountDisjointUnion(leads, OFFER_REJECTED + OFFER_OPEN, OFFER_APPROVED);
    assert OFFER_REJECTED + OFFER_OPEN + OFFER_APPROVED == CANONICAL;
  }

  /** The offer-centric summary is unchanged by a lead whose status was passed through,
      wherever it stands in the list. */
  lemma OfferIgnoresUnknown(offerId: Option<int>, a: seq<Lead>, u: Lead, b: seq<Lead>)
    requires !u.status.IsCanonical()
    ensures OfferSummary(offerId, a + [u] + b) == OfferSummary(offerId, a + b)
  {
    BucketIgnoresUnknown(a, u, b, OFFER_REJECTED);
    BucketIgnoresUnknown(a, u, b, OFFER_OPEN);
    BucketIgnoresUnknown(a, u, b, OFFER_APPROVED);
  }

  /** The webmaster summary is unchanged by a lead whose status was passed through. */
  lemma WebmasterIgnoresUnknown(a: seq<Lead>, u: Lead, b: seq<Lead>)
    requires !u.status.IsCanonical()
    ensures WebmasterSummary(a + [u] + b) == WebmasterSummary(a + b)
  {
    BucketIgnoresUnknown(a, u, b, WEBMASTER_REJECTED);
    BucketIgnoresUnknown(a, u, b, WEBMASTER_OPEN);
    BucketIgnoresUnknown(a, u, b, WEBMASTER_APPROVED);
    BucketIgnoresUnknown(a, u, b, WEBMASTER_PAID);
  }

  /** One more lead moves the offer summary by one count and one rounded addition in its own
      bucket, and not at all when its status was passed through. */
  lemma OfferStep(offerId: Option<int>, leads: seq<Lead>, l: Lead)
    ensures var before, after := OfferSummary(offerId, leads), OfferSummary(offerId, leads + [l]);
      && (l.status == Rejected ==>
            after == before.(leadsRejected := before.leadsRejected + 1,
                             commissionRejected := Round2(before.commissionRejected + l.commission)))
      && (l.status == Open || l.status == Hold ==>
            after == before.(leadsOpen := before.leadsOpen + 1,
                             commissionOpen := Round2(before.commissionOpen + l.commission)))
      && (l.status == Approved || l.status == Paid ==>
            after == before.(leadsApproved := before.leadsApproved + 1,
                             commissionApproved := Round2(before.commissionApproved + l.commission)))
      && (!l.status.IsCanonical() ==> after == before)
  {
    BucketStep(leads, l, OFFER_REJECTED);
    BucketStep(leads, l, OFFER_OPEN);
    BucketStep(leads, l, OFFER_APPROVED);
  }

  /** One more lead changes at most one webmaster total, the one of its own bucket, by one
      rounded addition; approved and paid leads reach different totals. */
  lemma WebmasterStep(leads: seq<Lead>, l: Lead)
    ensures var before, after := WebmasterSummary(leads), WebmasterSummary(leads + [l]);
      && (l.status == Rejected ==>
            after == before.(commissionRejected := Round2(before.commissionRejected + l.commission)))
      && (l.status == Open || l.status == Hold ==>
            after == before.(commissionOpen := Round2(before.commissionOpen + l.commission)))
      && (l.status == Approved ==>
            after == before.(commissionApproved := Round2(before.commissionApproved + l.commission)))
      && (l.status == Paid ==> after == before.(paid := Round2(before.paid + l.commission)))
      && (!l.status.IsCanonical() ==> after == before)
  {
    BucketStep(leads, l, WEBMASTER_REJECTED);
    BucketStep(leads, l, WEBMASTER_OPEN);
    BucketStep(leads, l, WEBMASTER_APPROVED);
    BucketStep(leads, l, WEBMASTER_PAID);
  }

  /** The two summaries agree on rejected and open; the offer summary's approved count is the
      webmaster's approved leads plus its paid leads. */
  lemma SummariesCompared(offerId: Option<int>, leads: seq<Lead>)
    ensures OfferSummary(offerId, leads).commissionRejected == WebmasterSummary(leads).commissionRejected
    ensures OfferSummary(offerId, leads).commissionOpen == WebmasterSummary(leads).commissionOpen
    ensures OfferSummary(offerId, leads).leadsApproved
         == BucketCount(leads, WEBMASTER_APPROVED) + BucketCount(leads, WEBMASTER_PAID)
  {
    CountDisjointUnion(leads, WEBMASTER_APPROVED, WEBMASTER_PAID);
    assert WEBMASTER_APPROVED + WEBMASTER_PAID == OFFER_APPROVED;
  }

  // ---------------------------------------------------------------- A regression fixture

  /** The fixture of mixed statuses: a paid lead of 10.005, an approved one of 5.00 and a
      rejected one of 2.00, whatever their other fields. */
  predicate MixedFixture(a: Lead, b: Lead, c: Lead)
  {
    && a.status == Paid && a.commission == 10.005
    && b.status == Approved && b.commission == 5.0
    && c.status == Rejected && c.commission == 2.0
  }

  /** The offer summary of the fixture counts two approved leads worth 15.01 (10.005 is rounded
      to 10.01 as it is added) and one rejected lead worth 2.00. */
  lemma OfferScenario(offerId: Option<int>, a: Lead, b: Lead, c: Lead)
    requires MixedFixture(a, b, c)
    ensures var o := OfferSummary(offerId, [a, b, c]);
      && o.leadsApproved == 2 && o.commissionApproved == 15.01
      && o.leadsRejected == 1 && o.commissionRejected == 2.0
      && o.leadsOpen == 0 && o.commissionOpen == 0.0
  {
    assert Round2Cents(10.005) == 1001 && Round2Cents(15.01) == 1501 && Round2Cents(2.0) == 200;
    assert [] + [a] == [a] && [a] + [b] == [a, b] && [a, b] + [c] == [a, b, c];
    assert OfferSummary(offerId, []) == OfferStatistics(offerId, 0, 0, 0, 0, 0, 0.0, 0.0, 0.0);
    OfferStep(offerId, [], a);
    assert OfferSummary(offerId, [a]) == OfferStatistics(offerId, 0, 0, 0, 0, 1, 0.0, 0.0, 10.01);
    OfferStep(offerId, [a], b);
    assert OfferSummary(offerId, [a, b]) == OfferStatistics(offerId, 0, 0, 0, 0, 2, 0.0, 0.0, 15.01);
    OfferStep(offerId, [a, b], c);
  }

  /** The webmaster summary of the same fixture keeps 5.00 approved apart from 10.01 paid. */
  lemma WebmasterScenario(a: Lead, b: Lead, c: Lead)
    requires MixedFixture(a, b, c)
    ensures var w := WebmasterSummary([a, b, c]);
      && w.commissionApproved == 5.0 && w.paid == 10.01
      && w.commissionRejected == 2.0 && w.commissionOpen == 0.0
  {
    assert Round2Cents(10.005) == 1001 && Round2Cents(5.0) == 500 && Round2Cents(2.0) == 200;
    assert [] + [a] == [a] && [a] + [b] == [a, b] && [a, b] + [c] == [a, b, c];
    assert WebmasterSummary([]) == WebmasterCommissions(0.0, 0.0, 0.0, 0.0);
    WebmasterStep([], a);
    assert WebmasterSummary([a]) == WebmasterCommissions(0.0, 0.0, 0.0, 10.01);
    WebmasterStep([a], b);
    assert WebmasterSummary([a, b]) == WebmasterCommissions(0.0, 0.0, 5.0, 10.01);
    WebmasterStep([a, b], c);
  }

  // ---------------------------------------------------------------- The client's loops

  /** The loop of `getStatisticsOffersByOfferId`: one pass that updates the result object's
      counters and totals field by field. */
  method StatisticsOfLeads(offerId: Option<int>, leads: seq<Lead>) returns (s: OfferStatistics)
    ensures s == OfferSummary(offerId, leads)
  {
    s := OfferStatistics(offerId, 0, 0, 0, 0, 0, 0.0, 0.0, 0.0);
    for i := 0 to |leads|
      invariant s == OfferSummary(offerId, leads[..i])
    {
      var item := leads[i];
      assert leads[..i + 1] == leads[..i] + [item];
      OfferStep(offerId, leads[..i], item);
      if item.status == Rejected {
        s := s.(leadsRejected := s.leadsRejected + 1,
                commissionRejected := Round2(s.commissionRejected + item.commission));
      } else if item.status == Open || item.status == Hold {
        s := s.(leadsOpen := s.leadsOpen + 1,
                commissionOpen := Round2(s.commissionOpen + item.commission));
      } else if item.status == Approved || item.status == Paid {
        s := s.(leadsApproved := s.leadsApproved + 1,
                commissionApproved := Round2(s.commissionApproved + item.commission));
      }
    }
    assert leads[..|leads|] == leads;
  }

  /** The loop of `getWebmasterCommissions`: four running totals in local variables. */
  method CommissionsOfLeads(leads: seq<Lead>) returns (s: WebmasterCommissions)
    ensures s == WebmasterSummary(leads)
  {
    var commissionOpen, commissionApproved, commissionRejected, paid := 0.0, 0.0, 0.0, 0.0;
    for i := 0 to |leads|
      invariant commissionRejected == BucketTotal(leads[..i], WEBMASTER_REJECTED)
      invariant commissionOpen == BucketTotal(leads[..i], WEBMASTER_OPEN)
      invariant commissionApproved == BucketTotal(leads[..i], WEBMASTER_APPROVED)
      invariant paid == BucketTotal(leads[..i], WEBMASTER_PAID)
    {
      var item, done := leads[i], leads[..i];
      assert leads[..i + 1] == done + [item];
      BucketStep(done, item, WEBMASTER_REJECTED);
      BucketStep(done, item, WEBMASTER_OPEN);
      BucketStep(done, item, WEBMASTER_APPROVED);
      BucketStep(done, item, WEBMASTER_PAID);
      if item.status == Rejected {
        commissionRejected := Round2(commissionRejected + item.commission);
      } else if item.status == Open || item.status == Hold {
        commissionOpen := Round2(commissionOpen + item.commission);
      } else if item.status == Approved {
        commissionApproved := Round2(commissionApproved + item.commission);
      } else if item.status == Paid {
        paid := Round2(paid + item.commission);
      }
    }
    assert leads[..|leads|] == leads;
    s := WebmasterCommissions(commissionRejected, commissionOpen, commissionApproved, paid);
  }

  /** `getStatisticsOffersByOfferId`: `false` exactly when the fetch gave no array; otherwise
      the summary of the normalised leads under the requested offer id. */
  method GetStatisticsOffersByOfferId(dateFrom: int, dateTo: int, local: CalendarDate,
                                      offerId: Option<int>, subAccount: Option<string>,
                                      response: Response)
    returns (params: RequestParams, r: Option<OfferStatistics>)
    modifies ResponseFrame(response)
    ensures params == BuildParams(dateFrom, dateTo, local, offerId, subAccount)
    ensures r.None? <==> !response.ArrayBody?
    ensures response.ArrayBody? ==>
      r == Some(OfferSummary(offerId, NormalizeAll(old(response.items[..]))))
    ensures r.Some? ==> r.value.offerId == offerId && r.value.clicks == 0 && r.value.backUrlCount == 0
    ensures response.ArrayBody? ==> forall i :: 0 <= i < response.items.Length ==>
      NormalizedFrom(response.items[i], old(response.items[i]))
  {
    var fetched;
    params, fetched := GetLeadsByOfferId(dateFrom, dateTo, local, offerId, subAccount, response);
    if fetched.Fetched? {
      var leads := LeadsOf(fetched.items[..]);
      var s := StatisticsOfLeads(offerId, leads);
      r := Some(s);
    } else {
      r := None;
    }
  }

  /** `getWebmasterCommissions`: the request carries no sub-account; a failed fetch leaves
      `false` to the loop, which throws. */
  method GetWebmasterCommissions(dateFrom: int, dateTo: int, local: CalendarDate,
                                 offerId: Option<int>, response: Response)
    returns (params: RequestParams, r: Result<WebmasterCommissions, Error>)
    modifies ResponseFrame(response)
    ensures params == BuildParams(dateFrom, dateTo, local, offerId, None)
    ensures r.Failure? <==> !response.ArrayBody?
    ensures r.Failure? ==> r.error == NotIterable
    ensures response.ArrayBody? ==>
      r == Success(WebmasterSummary(NormalizeAll(old(response.items[..]))))
    ensures response.ArrayBody? ==> forall i :: 0 <= i < response.items.Length ==>
      NormalizedFrom(response.items[i], old(response.items[i]))
  {
    var fetched;
    params, fetched := GetLeadsByOfferId(dateFrom, dateTo, local, offerId, None, response);
    if fetched.Fetched? {
      var leads := LeadsOf(fetched.items[..]);
      var s := CommissionsOfLeads(leads);
      r := Success(s);
    } else {
      r := Failure(NotIterable);
    }
  }
}
