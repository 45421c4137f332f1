/** The lead request and the normalisation of the records it returns (GdeslonApi.js,
    `getLeadsByOfferId`). The HTTP call itself (`apiRequest`) is a parameter: its outcome is given
    as a `Response`. */
module LeadFeed {
  import opened Wrappers
  import opened Js
  import opened Decimal
  import opened DateWindow
  import opened Statuses

  /** One record as the network sends it, with an absent or `null` sub-id as `None`.
      Timestamps are already what `new Date(t).valueOf()` gives: epoch milliseconds, `Some(0)`
      for a `null` timestamp, and `None` for an absent or unparseable one (`NaN`). */
  datatype RawLead = RawLead(
    gdeslonOrderId: int,
    subId1: Option<string>,
    subId2: Option<string>,
    merchantId: int,
    merchantName: string,
    state: int,
    partnerPayment: real,
    createdAt: Option<int>,
    confirmedAt: Option<int>)

  /** The canonical lead. `None` as a time is the invalid date (`NaN`) that `new Date(undefined)`
      or an unparseable text yields. */
  datatype Lead = Lead(
    orderId: string,
    subaccount1: Option<string>,
    subaccount2: Option<string>,
    offerId: int,
    offerName: string,
    status: Status,
    commission: real,
    leadTime: Option<int>,
    uploadTime: Option<int>)

  /** An element of the fetched array: the record's own fields, and the canonical fields once
      normalisation has written them onto the same object. */
  datatype Item = Item(raw: RawLead, lead: Option<Lead>)

  /** What the network call produced: a failure (`apiRequest` returned `false`), a JSON body
      that is not an array, or an array of records. */
  datatype Response = RequestFailed | NonArrayBody | ArrayBody(items: array<Item>)

  /** The outcome of `getLeadsByOfferId`: `false`, or the fetched array, normalised. */
  datatype Fetched = FetchFailed | Fetched(items: array<Item>)

  /** The request body `{created_at: {date, period}, merchant_id?, sub_id?}`. */
  datatype RequestParams = RequestParams(
    date: string, period: real, merchantId: Option<int>, subId: Option<string>)

  /** The objects a response lets the client change. */
  function ResponseFrame(response: Response): set<object>
  {
    if response.ArrayBody? then {response.items} else {}
  }

  /** The canonical lead of one record: the order id as text, the status mapped, the other
      fields carried across. */
  function Normalize(raw: RawLead): Lead
  {
    Lead(IntToString(raw.gdeslonOrderId), raw.subId1, raw.subId2, raw.merchantId,
         raw.merchantName, LeadStatus(raw.state), raw.partnerPayment, raw.createdAt, raw.confirmedAt)
  }

  /** The `orderId` of a lead is the decimal text of the record's order id: it reads back as
      that id, and distinct ids give distinct texts. */
  lemma OrderIdRoundTrip(raw: RawLead)
    ensures IsIntText(Normalize(raw).orderId)
    ensures ParseInt(Normalize(raw).orderId) == raw.gdeslonOrderId
  {
    IntRoundTrip(raw.gdeslonOrderId);
  }

  /** Distinct order ids give distinct `orderId` strings. */
  lemma OrderIdsDistinct(a: RawLead, b: RawLead)
    ensures Normalize(a).orderId == Normalize(b).orderId <==> a.gdeslonOrderId == b.gdeslonOrderId
  {
    IntToStringInjective(a.gdeslonOrderId, b.gdeslonOrderId);
  }

  /** The canonical leads of a list of records, in the same order. */
  function NormalizeAll(items: seq<Item>): (leads: seq<Lead>)
    ensures |leads| == |items|
    ensures forall i :: 0 <= i < |items| ==> leads[i] == Normalize(items[i].raw)
  {
    seq(|items|, i requires 0 <= i < |items| => Normalize(items[i].raw))
  }

  /** The canonical fields of normalised records. */
  function LeadsOf(items: seq<Item>): (leads: seq<Lead>)
    requires forall i :: 0 <= i < |items| ==> items[i].lead.Some?
    ensures |leads| == |items|
    ensures forall i :: 0 <= i < |items| ==> leads[i] == items[i].lead.value
  {
    seq(|items|, i requires 0 <= i < |items| => items[i].lead.value)
  }

  /** The request body for a date window and the optional filters: the offer and the
      sub-account are sent only when truthy. */
  function BuildParams(dateFrom: int, dateTo: int, local: CalendarDate,
                       offerId: Option<int>, subAccount: Option<string>): (p: RequestParams)
    ensures p.date == FormatDate(local)
    ensures p.period * MS_PER_DAY as real == (dateTo - dateFrom) as real
    ensures p.merchantId.Some? <==> TruthyNumber(offerId)
    ensures p.merchantId.Some? ==> p.merchantId == offerId
    ensures p.subId.Some? <==> TruthyString(subAccount)
    ensures p.subId.Some? ==> p.subId == subAccount
  {
    RequestParams(
      FormatDate(local),
      Period(dateFrom, dateTo),
      if TruthyNumber(offerId) then offerId else None,
      if TruthyString(subAccount) then subAccount else None)
  }

  /** `now` is the record `was` with its canonical fields written. */
  predicate NormalizedFrom(now: Item, was: Item)
  {
    now == Item(was.raw, Some(Normalize(was.raw)))
  }

  /** Records given their canonical fields, position by position, yield the canonical leads of
      the records in the same order. */
  lemma LeadsOfNormalized(now: seq<Item>, was: seq<Item>)
    requires |now| == |was|
    requires forall i :: 0 <= i < |now| ==> NormalizedFrom(now[i], was[i])
    ensures forall i :: 0 <= i < |now| ==> now[i].lead.Some?
    ensures LeadsOf(now) == NormalizeAll(was)
  {
    assert forall i :: 0 <= i < |now| ==> now[i].lead.Some? by {
      forall i | 0 <= i < |now| ensures now[i].lead.Some? {
        assert NormalizedFrom(now[i], was[i]);
      }
    }
    forall i | 0 <= i < |now| ensures LeadsOf(now)[i] == NormalizeAll(was)[i] {
      assert NormalizedFrom(now[i], was[i]);
    }
  }

  /** `result.map(item => { item.orderId = ...; ... })`: every record of the array gets its
      canonical fields, in place; its own fields stay as they were. */
  method NormalizeInPlace(items: array<Item>)
    modifies items
    ensures forall i :: 0 <= i < items.Length ==> NormalizedFrom(items[i], old(items[i]))
    ensures forall i :: 0 <= i < items.Length ==> items[i].lead.Some?
    ensures LeadsOf(items[..]) == NormalizeAll(old(items[..]))
  {
    for i := 0 to items.Length
      invariant forall j :: 0 <= j < i ==> NormalizedFrom(items[j], old(items[j]))
      invariant forall j :: i <= j < items.Length ==> items[j] == old(items[j])
    {
      var item := items[i];
      items[i] := Item(item.raw, Some(Normalize(item.raw)));
    }
    LeadsOfNormalized(items[..], old(items[..]));
  }

  /** `getLeadsByOfferId`: sends the request body built from the window and filters, and
      returns `false` unless the outcome is an array, whose records are then normalised in place. */
  method GetLeadsByOfferId(dateFrom: int, dateTo: int, local: CalendarDate,
                           offerId: Option<int>, subAccount: Option<string>, response: Response)
    returns (params: RequestParams, r: Fetched)
    modifies ResponseFrame(response)
    ensures params == BuildParams(dateFrom, dateTo, local, offerId, subAccount)
    ensures r.FetchFailed? <==> !response.ArrayBody?
    ensures r.Fetched? ==> r.items == response.items
    ensures r.Fetched? ==> forall i :: 0 <= i < r.items.Length ==> NormalizedFrom(r.items[i], old(r.items[i]))
    ensures r.Fetched? ==> forall i :: 0 <= i < r.items.Length ==> r.items[i].lead.Some?
    ensures r.Fetched? ==> LeadsOf(r.items[..]) == NormalizeAll(old(r.items[..]))
  {
    params := BuildParams(dateFrom, dateTo, local, offerId, subAccount);
    if response.ArrayBody? {
      NormalizeInPlace(response.items);
      r := Fetched(response.items);
    } else {
      r := FetchFailed;
    }
  }
}
