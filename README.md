# GdeslonApi — a verified model of the Gdeslon affiliate-network client

`GdeslonApi` is a small JavaScript client for the Gdeslon affiliate network. It asks the
network for the leads (orders) of a date window and normalises each record into a canonical
lead. It sums the leads' commissions into an offer-centric summary and a webmaster summary, and
it turns the network's shop feed into deep links. This project models that client in Dafny and
proves what its operations compute.

Modules, in dependency order:

- `Wrappers`: `Option` and `Result`.
- `Js`: JavaScript truthiness of an optional number or string (`if (offerId)`, `if (subAccount)`).
- `Decimal`: decimal text of integers (`Number.prototype.toString` for integers) and its parser.
- `Statuses`: the five canonical statuses and `getLeadStatus`, which maps numeric state codes
  to them. A code outside 0..4 passes through unchanged as `Unknown(code)`.
- `DateWindow`: `toGdeslonFormatDate` (`YYYY-MM-DD` with zero-padded month and day) and the
  request's period in days.
- `Money`: `Number(x.toFixed(2))` on exact decimals, and the running total that rounds after
  every addition.
- `LeadFeed`: the request body of `getLeadsByOfferId` and the in-place normalisation of the
  fetched array (an `array<Item>`). The network call's outcome is a parameter.
- `Aggregation`: the loops of `getStatisticsOffersByOfferId` and `getWebmasterCommissions`,
  proved equal to bucket-by-bucket specification functions, and the laws of those summaries.
- `OfferLinks`: the shop loop of `getOfferLinksByOfferId`: the token check, the offer filter,
  the `http://` to `https://` rewrite and the lower-cased shop name.

The statistics loops are methods over the list of normalised leads. Each one is proved equal to
a specification built from two left folds per bucket:

- `BucketCount` counts the leads whose status is in the bucket.
- `BucketTotal` applies `total := Round2(total + commission)` for those leads.

The lemmas then relate these folds to the bucket's own leads in list order (`Selected`) and to
the exact sum of their commissions.

A status bucket is a set of statuses:

| summary | bucket | statuses |
|---|---|---|
| offer | rejected | `Rejected` |
| offer | open | `Open`, `Hold` |
| offer | approved | `Approved`, `Paid` |
| webmaster | rejected | `Rejected` |
| webmaster | open | `Open`, `Hold` |
| webmaster | approved | `Approved` |
| webmaster | paid | `Paid` |

## Model

| member | source | states |
|---|---|---|
| `Js.TruthyNumber` | GdeslonApi.js:38 | `if (offerId)` on a number that may be `null`: true exactly for a present, non-zero value. |
| `Js.TruthyString` | GdeslonApi.js:41 | `if (subAccount)` on a string that may be `null`: true exactly for a present, non-empty value. |
| `Statuses.LeadStatus` | GdeslonApi.js:158-173 | Codes 0, 1, 2, 3, 4 map to open, rejected, hold, approved and paid, each in both directions. A status is canonical exactly when the code is in 0..4. Any other code is passed through with its raw value. |
| `Statuses.Name` | GdeslonApi.js:5-9 | A status has a public string name exactly when it is canonical. |
| `Statuses.CodeRoundTrip` | GdeslonApi.js:158-173 | The state code can always be recovered from the mapped status, so distinct codes give distinct statuses. |
| `Statuses.StatusRoundTrip` | GdeslonApi.js:158-173 | Every status the mapping can produce comes back from its own code. |
| `Statuses.NamesDistinct` | GdeslonApi.js:5-9 | The five status strings are pairwise distinct. |
| `Statuses.CanonicalSet` | GdeslonApi.js:5-9 | The five named statuses are exactly the canonical ones. |
| `Decimal.NatToString` | GdeslonApi.js:47 | The decimal text of a natural number is non-empty and all digits. It has a leading zero only for 0, and is one digit exactly below 10. |
| `Decimal.IntToString` | GdeslonApi.js:47 | The text starts with `-` exactly for negative numbers; otherwise it is the digits of the number. |
| `Decimal.NatRoundTrip` | GdeslonApi.js:47 | Parsing the decimal text of a natural number gives the number back. |
| `Decimal.IntRoundTrip` | GdeslonApi.js:47 | The decimal text of any integer is well-formed integer text and parses back to the integer. |
| `Decimal.IntToStringInjective` | GdeslonApi.js:47 | Two integers have the same text exactly when they are equal. |
| `DateWindow.Pad2` | GdeslonApi.js:28 | `(n > 9 ? '' : '0') + n`: a leading zero before a one-digit number; its meaning is stated by `Pad2Digits`. |
| `DateWindow.FormatDate` | GdeslonApi.js:25-29 | The year, the padded month and the padded day joined with `-`; `DateRoundTrip` and `FormatDateShape` state what the text means. |
| `DateWindow.Pad2Digits` | GdeslonApi.js:26-28 | A month or day below 100, zero-padded, is exactly two digits that read back as the number. |
| `DateWindow.DateRoundTrip` | GdeslonApi.js:25-29 | The `YYYY-MM-DD` text of a valid calendar date parses back to that date. |
| `DateWindow.ParseJoined` | GdeslonApi.js:28 | Joining a year and two two-digit fields with `-` splits back into the same three fields. |
| `DateWindow.FormatDateShape` | GdeslonApi.js:28 | The date text is the year's text, then `-`, two digits, `-`, two digits. |
| `DateWindow.Period` | GdeslonApi.js:35 | The period times the milliseconds of a day is exactly `dateTo - dateFrom`: no floor to whole days and no sign check (the quotient is exact in the model's reals). It is non-negative exactly when `dateFrom <= dateTo`. |
| `DateWindow.PeriodWholeDays` | GdeslonApi.js:35 | A window of whole days has that number of days as its period. |
| `Money.Round2Cents` | GdeslonApi.js:84 | `toFixed(2)` picks the nearest whole number of cents, with a tie going away from zero. |
| `Money.Round2` | GdeslonApi.js:84 | `Number(x.toFixed(2))`: the cents of `Round2Cents` as an amount; `Round2Properties` states what it guarantees. |
| `Money.Round2Properties` | GdeslonApi.js:84 | A rounded amount is whole cents, within half a cent of its argument, and whole cents are left alone. |
| `Money.RoundedSum` | GdeslonApi.js:84 | The running total `total = Number((total + c).toFixed(2))` over the amounts in order, from 0; bounded by `RoundedSumBounds`. |
| `Money.RoundedSumSnoc` | GdeslonApi.js:84 | One more commission in the running total means one more rounding of total plus commission. |
| `Money.RoundedSumBounds` | GdeslonApi.js:84 | Every running total is whole cents, within half a cent per addition of the exact sum. |
| `Money.CentsAdd` | GdeslonApi.js:84 | The sum of two whole-cent amounts is whole cents. |
| `Money.RoundedSumOfCents` | GdeslonApi.js:84 | When every commission is whole cents, rounding at each step gives exactly the exact sum. |
| `Money.RoundingIsIncremental` | GdeslonApi.js:84 | Rounding at each step differs from rounding once: two amounts of 0.006 total 0.02 step by step, while their exact sum 0.012 rounds to 0.01. No intermediate value is near a tie, so the source's doubles give the same two results. |
| `LeadFeed.Normalize` | GdeslonApi.js:47-55 | The canonical lead of one record: the order id as decimal text, the two sub-ids, the merchant id and name, the status mapped by `LeadStatus`, the payment as commission, and the two timestamps. `OrderIdRoundTrip` and `OrderIdsDistinct` state what the order id text keeps. |
| `LeadFeed.OrderIdRoundTrip` | GdeslonApi.js:47 | A lead's `orderId` is integer text that reads back as the record's `gdeslon_order_id`. The source promises this only for order ids up to 2^53 (see `Decimal.IntToString` under Left out). |
| `LeadFeed.OrderIdsDistinct` | GdeslonApi.js:47 | Two leads have the same `orderId` exactly when their records have the same order id. |
| `LeadFeed.NormalizeAll` | GdeslonApi.js:46-56 | The canonical leads of a list of records: one per record, in the same order. |
| `LeadFeed.LeadsOf` | GdeslonApi.js:46-57 | The canonical fields written onto the records, one lead per record, in order. |
| `LeadFeed.BuildParams` | GdeslonApi.js:32-43 | The body carries the formatted start date and the exact period. `merchant_id` is present exactly when the offer id is truthy, and `sub_id` exactly when the sub-account is truthy; each carries the value given. |
| `LeadFeed.LeadsOfNormalized` | GdeslonApi.js:46-56 | Records each given their canonical fields yield the canonical leads of the original records, in order. |
| `LeadFeed.NormalizeInPlace` | GdeslonApi.js:46-56 | Every element of the array gets the canonical fields of its own record, in place, while its own fields stay as they were. The leads read off the array afterwards are the normalisation of the array as it was. |
| `LeadFeed.GetLeadsByOfferId` | GdeslonApi.js:31-60 | Sends the body `BuildParams` describes. Returns `false` exactly when the outcome is not an array. Otherwise returns the same array, in which each record keeps its own fields and gets the canonical fields of that record. |
| `Aggregation.BucketCount` | GdeslonApi.js:83 | A bucket's counter: one per lead whose status is in the bucket (`CountIsSelected`). |
| `Aggregation.BucketTotal` | GdeslonApi.js:84 | A bucket's running total, rounded after each lead of the bucket; `TotalIsFoldOfSelected` and `BucketTotalBounds` say what it is. |
| `Aggregation.OfferSummary` | GdeslonApi.js:69-97 | The offer-centric result: the offer id, zero clicks and back-URL count, and count and total of the rejected (rejected), open (open, hold) and approved (approved, paid) buckets. |
| `Aggregation.WebmasterSummary` | GdeslonApi.js:105-126 | The four webmaster totals: rejected, open (open, hold), approved alone and paid alone. |
| `Aggregation.Selected` | GdeslonApi.js:80-97 | The leads of a bucket, in list order. |
| `Aggregation.Commissions` | GdeslonApi.js:84 | The commissions of some leads, in the same order. |
| `Aggregation.CountIsSelected` | GdeslonApi.js:80-97 | A bucket's count is the number of leads whose status is in the bucket. |
| `Aggregation.TotalIsFoldOfSelected` | GdeslonApi.js:80-97 | A bucket's total is the per-step rounded fold over the commissions of the bucket's own leads, in list order. Leads of other buckets interleaved between them do not matter. |
| `Aggregation.BucketTotalBounds` | GdeslonApi.js:84 | Every summary total is whole cents, within half a cent per counted lead of the exact sum of the bucket's commissions. |
| `Aggregation.SelectedAppend` | GdeslonApi.js:80 | A bucket's leads keep the list order: selecting from two runs of leads concatenates the two selections. |
| `Aggregation.BucketStep` | GdeslonApi.js:81-95 | One more lead adds one to its bucket's count and its commission, rounded, to the bucket's total. A bucket that does not hold its status is unchanged. |
| `Aggregation.CountDisjointUnion` | GdeslonApi.js:86-93 | Two disjoint buckets count as many leads as their union. |
| `Aggregation.BucketIgnoresUnknown` | GdeslonApi.js:81-96 | A lead whose status was passed through changes no count and no total of a canonical bucket, wherever it stands in the list. |
| `Aggregation.OfferCountConservation` | GdeslonApi.js:80-97 | The three offer counts add up to the number of leads with a canonical status. |
| `Aggregation.OfferIgnoresUnknown` | GdeslonApi.js:81-96 | The offer summary is unchanged by a lead with a passed-through status. |
| `Aggregation.WebmasterIgnoresUnknown` | GdeslonApi.js:110-124 | The webmaster summary is unchanged by a lead with a passed-through status. |
| `Aggregation.OfferStep` | GdeslonApi.js:81-95 | One more lead moves exactly its own bucket's count by one and that bucket's total by one rounded addition. A passed-through status changes nothing. |
| `Aggregation.WebmasterStep` | GdeslonApi.js:110-124 | One more lead changes at most one webmaster total, its own bucket's, by one rounded addition. Approved and paid leads go to different totals. |
| `Aggregation.SummariesCompared` | GdeslonApi.js:80-125 | The two summaries agree on the rejected and open totals. The offer summary's approved count is the webmaster's approved leads plus its paid leads. |
| `Aggregation.OfferScenario` | GdeslonApi.js:80-97 | For a paid lead of 10.005, an approved lead of 5.00 and a rejected lead of 2.00, the offer summary has 2 approved leads worth 15.01 and 1 rejected lead worth 2.00. |
| `Aggregation.WebmasterScenario` | GdeslonApi.js:109-126 | For the same leads, the webmaster summary has approved 5.00, paid 10.01, rejected 2.00 and open 0. |
| `Aggregation.StatisticsOfLeads` | GdeslonApi.js:69-98 | The field-by-field loop over the leads computes exactly the bucket-by-bucket offer summary, with the offer id echoed and clicks and back-URL count 0. |
| `Aggregation.CommissionsOfLeads` | GdeslonApi.js:105-126 | The loop over four running totals computes exactly the webmaster summary. |
| `Aggregation.GetStatisticsOffersByOfferId` | GdeslonApi.js:66-101 | Fetches with the offer id and sub-account as filters. Returns `false` exactly when the fetch gave no array. Otherwise returns the offer summary of the normalised leads, with the requested offer id and zero clicks and back-URL count. |
| `Aggregation.GetWebmasterCommissions` | GdeslonApi.js:103-127 | Fetches with the offer id and no sub-account. A fetch that gave no array makes the loop throw. Otherwise returns the webmaster summary of the normalised leads. |
| `OfferLinks.ReplaceFirst` | GdeslonApi.js:137 | `String.prototype.replace` with a string pattern; `ReplaceFirstAbsent` and `ReplaceFirstAt` state what it does. |
| `OfferLinks.Goto` | GdeslonApi.js:137 | The shop URL with its first `http://` replaced by `https://`. |
| `OfferLinks.FindFrom` | GdeslonApi.js:137 | The index found is the first occurrence of the pattern from the starting index on. With no index, there is no occurrence at all. |
| `OfferLinks.ReplaceFirstAbsent` | GdeslonApi.js:137 | A URL without `http://` is left as it is. |
| `OfferLinks.ReplaceFirstAt` | GdeslonApi.js:137 | Only the leftmost occurrence of the pattern is replaced. |
| `OfferLinks.LowerChar` | GdeslonApi.js:145 | A lower-cased character is never an upper-case letter. An upper-case letter becomes a different, lower-case letter whose upper-case form (`UpperChar`) is the original. Characters that are not upper-case letters are kept. |
| `OfferLinks.ToLower` | GdeslonApi.js:145 | Lower-casing works character by character and keeps the length. |
| `OfferLinks.ToLowerKeepsLetters` | GdeslonApi.js:145 | Each upper-case letter of the name becomes its own lower-case form, which upper-cases back to it; every other character stays. |
| `OfferLinks.ToLowerNormalises` | GdeslonApi.js:145 | A lower-cased name has no upper-case letter left, and lower-casing it again changes nothing. |
| `OfferLinks.Keeps` | GdeslonApi.js:139-141 | The filter: a shop is skipped exactly when the offer id is truthy and differs from the shop's id. |
| `OfferLinks.LinkFor` | GdeslonApi.js:142-146 | The entry pushed for a shop: its id, the affiliate link followed by `&goto=` and the rewritten URL, and the lower-cased name (`LinkForShape`). |
| `OfferLinks.Links` | GdeslonApi.js:136-147 | The entries of the shops the filter keeps, in shop order; `LinksAppend`, `LinksMatchOffer` and `LinksUnfiltered` state its laws. |
| `OfferLinks.LinksSnoc` | GdeslonApi.js:136-147 | One more shop adds its entry at the end exactly when the filter keeps it. |
| `OfferLinks.LinksAppend` | GdeslonApi.js:136-147 | The entries of two runs of shops are the first run's entries followed by the second's: shop order is kept. |
| `OfferLinks.LinksMatchOffer` | GdeslonApi.js:139-141 | With a truthy offer id, every entry is for that offer. |
| `OfferLinks.LinksUnfiltered` | GdeslonApi.js:139-147 | With a falsy offer id (`null` or `0`), no shop is skipped: one entry per shop, in order. |
| `OfferLinks.LinkForShape` | GdeslonApi.js:137-146 | A URL that starts with `http://` is linked through its `https://` form. A URL with no `http://` anywhere is linked as it is. Otherwise its first `http://` becomes `https://` (`LinkForFirstHttp`). The link is the affiliate link, then `&goto=`, then the URL. The shop name is lower-cased letter by letter and keeps its length. |
| `OfferLinks.LinkForFirstHttp` | GdeslonApi.js:137-144 | Wherever the first `http://` of a shop URL stands (even inside the query of an `https://` URL), that occurrence and no other becomes `https://` in the link. |
| `OfferLinks.GetOfferLinksByOfferId` | GdeslonApi.js:129-149 | Given the parsed shops, throws exactly when the links token is empty. Otherwise returns one entry per shop the filter keeps, in shop order. |

## Left out

- `apiRequest` (lines 175-191) is not modelled: the HTTP POST, the Basic authorisation header, JSON encoding and decoding, and the error log. Its outcome is a parameter of the lead operations: a failure (`false`), a non-array body, or an array of records.
- The XML feed of `getOfferLinksByOfferId` is left out: the network fetch and the `xml2js` parse. The shop loop gets the parsed shops. The model checks the token before the first shop. The source fetches the feed before it checks the token (line 130 comes before line 131), so a request with an empty token still goes out.
- `OfferLinks.GetOfferLinksByOfferId` starts from shops that are already parsed and well formed, so it does not model the source's other ways to reject. Line 130 has no `catch`, so a failed fetch or `.text()` rejects the call, and with an empty token that error comes before the token check. `parseString` rejects malformed XML (line 134). A feed without the `gdeslon.shops[0].shop` path throws a `TypeError` (line 136). So does a shop without `url` or `id`, for every shop, before the filter (lines 137-138), and a kept shop without `affiliate-link` or `name` (lines 144-145). `OfferLinks.Shop` has an integer `id`, so the `NaN` that `Number(shop['id'][0])` yields for a non-numeric id is not modelled either.
- The constructor (lines 19-23) keeps the username, password and links token. The model passes the token directly, and the username and password matter only to `apiRequest`.
- `getLeadsByOfferId`'s `channelId` parameter is unused by the source and is not part of the model.
- `async`/`await` is not modelled: every operation runs to completion in one step.
- `DateWindow.FormatDate` takes the local calendar fields of `dateFrom` as a parameter. Time zones and converting epoch milliseconds to calendar fields (`new Date(...).getMonth()`) are left out.
- `LeadFeed.Normalize` takes `created_at` and `confirmed_at` already as `new Date(t).valueOf()` gives them. A `null` timestamp must arrive as `Some(0)`, since `new Date(null)` is the epoch. An absent or unparseable one arrives as `None`, in place of JavaScript's `NaN`. Date-string parsing is left out.
- `LeadFeed.Normalize` takes `merchant_id` and `partner_payment` already as numbers. `Number(...)` coercion of strings, including the `NaN` it yields, is left out.
- `LeadFeed.RawLead` has an integer `state`. A non-numeric state, such as the string `"3"`, would be passed through unchanged by the strict `switch`; the model has no such value. `gdeslon_order_id` is an integer too: an id that arrives already as a string is not modelled.
- `LeadFeed.NormalizeInPlace` does not model a record without `gdeslon_order_id`. In the source, `item.gdeslon_order_id.toString()` then throws a `TypeError`. The records before it have already been rewritten in place, and the call rejects instead of returning `false`. `RawLead` has the order id as a plain integer, so that path cannot be expressed.
- `Decimal.IntToString` writes the exact digits of every integer. JavaScript's `toString()` does so only up to 2^53. Above 2^53 it prints the fewest digits that still read back as the same double, padded with zeros: 2^55 = 36028797018963968 prints as `36028797018963970`. From 1e21 on it switches to exponent notation. Neither is modelled, so `LeadFeed.OrderIdRoundTrip` holds of the source only for order ids up to 2^53; `LeadFeed.OrderIdsDistinct` still holds of doubles.
- `DateWindow.Period` is the exact quotient of two integers. The source's division of doubles rounds to the nearest double, and that rounding is not modelled.
- `Money.Round2` rounds the exact decimal value. IEEE-754 doubles are not modelled, so an amount like 1.005, stored below its decimal value and rounded down by `toFixed`, rounds up here. `toFixed`'s switch to exponent form at 1e21 and above is left out as well.
- `OfferLinks.LowerChar` lower-cases only ASCII `A`-`Z` and Cyrillic U+0400-U+042F. The rest of Unicode case mapping done by `toLowerCase` is left out.
- `LeadFeed.NormalizeInPlace` models each element as a value in an array that is updated in place. Aliasing between elements (one object appearing twice in the array) is not modelled.
- The statistics loops run over the list of leads read off the normalised array. Each method's result is tied to the array's contents before normalisation.
