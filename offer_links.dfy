/** The deep links of the shops (GdeslonApi.js, `getOfferLinksByOfferId`). The XML feed is
    fetched and parsed outside the model: the loop gets the shop records already parsed. */
module OfferLinks {
  import opened Wrappers
  import opened Js

  /** One `<shop>` of the feed: its id (as `Number(shop.id[0])`), name, URL and affiliate link. */
  datatype Shop = Shop(id: int, name: string, url: string, affiliateLink: string)

  datatype OfferLink = OfferLink(offerId: int, offerLink: string, shopName: string)

  /** `new Error('no gdeslon token')`. */
  datatype LinkError = NoToken

  // ---------------------------------------------------------------- String.prototype.replace

  /** `pat` occurs in `s` starting at index `i`. */
  predicate OccursAt(s: string, pat: string, i: nat)
  {
    i + |pat| <= |s| && s[i..i + |pat|] == pat
  }

  /** The first index from `from` on at which `pat` occurs in `s`. */
  function FindFrom(s: string, pat: string, from: nat): (r: Option<nat>)
    ensures r.Some? ==> from <= r.value && OccursAt(s, pat, r.value)
    ensures forall j: nat :: from <= j && (r.None? || j < r.value) ==> !OccursAt(s, pat, j)
    decreases |s| - from
  {
    if |s| < from + |pat| then None
    else if OccursAt(s, pat, from) then Some(from)
    else FindFrom(s, pat, from + 1)
  }

  /** `s.replace(pat, rep)` with a string pattern: only the first occurrence is replaced. */
  function ReplaceFirst(s: string, pat: string, rep: string): string
  {
    match FindFrom(s, pat, 0)
    case None => s
    case Some(i) => s[..i] + rep + s[i + |pat|..]
  }

  /** Without an occurrence the string is returned unchanged. */
  lemma ReplaceFirstAbsent(s: string, pat: string, rep: string)
    requires forall j: nat :: !OccursAt(s, pat, j)
    ensures ReplaceFirst(s, pat, rep) == s
  {
  }

  /** The leftmost occurrence, and only it, is replaced. */
  lemma ReplaceFirstAt(s: string, pat: string, rep: string, i: nat)
    requires OccursAt(s, pat, i)
    requires forall j: nat :: j < i ==> !OccursAt(s, pat, j)
    ensures ReplaceFirst(s, pat, rep) == s[..i] + rep + s[i + |pat|..]
  {
    assert FindFrom(s, pat, 0) == Some(i);
  }

  // ---------------------------------------------------------------- String.prototype.toLowerCase

  /** The upper-case letters the model lower-cases: Latin `A`-`Z` and Cyrillic U+0400-U+042F. */
  predicate IsUpper(c: char)
  {
    'A' <= c <= 'Z' || '\U{0400}' <= c <= '\U{042F}'
  }

  /** The lower-case letters that `LowerChar` produces: Latin `a`-`z` and Cyrillic
      U+0430-U+045F. */
  predicate IsLower(c: char)
  {
    'a' <= c <= 'z' || '\U{0430}' <= c <= '\U{045F}'
  }

  /** The upper-case form of a lower-case letter; every other character is kept. */
  function UpperChar(c: char): (d: char)
    ensures IsLower(c) ==> IsUpper(d)
    ensures !IsLower(c) ==> d == c
  {
    if 'a' <= c <= 'z' then (c as int - 32) as char
    else if '\U{0430}' <= c <= '\U{044F}' then (c as int - 32) as char
    else if '\U{0450}' <= c <= '\U{045F}' then (c as int - 80) as char
    else c
  }

  /** The lower-case form of a letter: another character, the lower-case letter whose
      upper-case form is the original; every other character is kept. */
  function LowerChar(c: char): (d: char)
    ensures !IsUpper(d)
    ensures IsUpper(c) ==> d != c && IsLower(d) && UpperChar(d) == c
    ensures !IsUpper(c) ==> d == c
  {
    if 'A' <= c <= 'Z' then (c as int + 32) as char
    else if '\U{0410}' <= c <= '\U{042F}' then (c as int + 32) as char
    else if '\U{0400}' <= c <= '\U{040F}' then (c as int + 80) as char
    else c
  }

  function ToLower(s: string): (r: string)
    ensures |r| == |s|
    ensures forall i :: 0 <= i < |s| ==> r[i] == LowerChar(s[i])
  {
    seq(|s|, i requires 0 <= i < |s| => LowerChar(s[i]))
  }

  /** A lower-cased name has no upper-case letter left, and lower-casing it again changes
      nothing. */
  lemma ToLowerNormalises(s: string)
    ensures forall i :: 0 <= i < |s| ==> !IsUpper(ToLower(s)[i])
    ensures ToLower(ToLower(s)) == ToLower(s)
  {
  }

  /** Lower-casing keeps the name's letters: each upper-case letter becomes its own lower-case
      form, which upper-cases back to it, and every other character stays. */
  lemma ToLowerKeepsLetters(s: string)
    ensures forall i :: 0 <= i < |s| && IsUpper(s[i]) ==> UpperChar(ToLower(s)[i]) == s[i]
    ensures forall i :: 0 <= i < |s| && !IsUpper(s[i]) ==> ToLower(s)[i] == s[i]
  {
  }

  // ---------------------------------------------------------------- The shop loop

  /** `shop['url'][0].replace('http://', 'https://')`. */
  function Goto(url: string): string
  {
    ReplaceFirst(url, "http://", "https://")
  }

  /** The entry pushed for a shop. */
  function LinkFor(shop: Shop): OfferLink
  {
    OfferLink(shop.id, shop.affiliateLink + "&goto=" + Goto(shop.url), ToLower(shop.name))
  }

  /** The filter: `if (offerId && offerId !== xmlOfferId) continue;`. */
  predicate Keeps(offerId: Option<int>, shop: Shop)
  {
    !(TruthyNumber(offerId) && offerId.value != shop.id)
  }

  /** The entries for the shops the filter keeps, in shop order. */
  function Links(offerId: Option<int>, shops: seq<Shop>): seq<OfferLink>
  {
    if shops == [] then []
    else
      var last := shops[|shops| - 1];
      Links(offerId, shops[..|shops| - 1]) + if Keeps(offerId, last) then [LinkFor(last)] else []
  }

  lemma LinksSnoc(offerId: Option<int>, shops: seq<Shop>, shop: Shop)
    ensures Links(offerId, shops + [shop])
         == Links(offerId, shops) + if Keeps(offerId, shop) then [LinkFor(shop)] else []
  {
    assert (shops + [shop])[..|shops|] == shops;
  }

  /** The links of two runs of shops are the links of the first followed by those of the second:
      entries keep the shop order. */
  lemma {:induction false} LinksAppend(offerId: Option<int>, a: seq<Shop>, b: seq<Shop>)
    ensures Links(offerId, a + b) == Links(offerId, a) + Links(offerId, b)
  {
    if b == [] {
      assert a + b == a;
    } else {
      var init, last := b[..|b| - 1], b[|b| - 1];
      assert a + b == (a + init) + [last];
      assert b == init + [last];
      LinksAppend(offerId, a, init);
      LinksSnoc(offerId, a + init, last);
      LinksSnoc(offerId, init, last);
    }
  }

  /** With a truthy offer id every entry is for that offer. */
  lemma {:induction false} LinksMatchOffer(offerId: Option<int>, shops: seq<Shop>)
    requires TruthyNumber(offerId)
    ensures forall k :: 0 <= k < |Links(offerId, shops)| ==> Links(offerId, shops)[k].offerId == offerId.value
  {
    if shops != [] {
      LinksMatchOffer(offerId, shops[..|shops| - 1]);
    }
  }

  /** With a falsy offer id (`null` or `0`) no shop is skipped: one entry per shop, in order. */
  lemma {:induction false} LinksUnfiltered(offerId: Option<int>, shops: seq<Shop>)
    requires !TruthyNumber(offerId)
    ensures |Links(offerId, shops)| == |shops|
    ensures forall k :: 0 <= k < |shops| ==> Links(offerId, shops)[k] == LinkFor(shops[k])
  {
    if shops != [] {
      LinksUnfiltered(offerId, shops[..|shops| - 1]);
    }
  }

  /** A URL that starts with `http://` is sent as its `https://` form, and a URL with no
      `http://` anywhere is sent as it is (`LinkForFirstHttp` covers the rest).
      The shop name is lower-cased letter by letter and keeps its length. */
  lemma LinkForShape(shop: Shop)
    ensures |LinkFor(shop).shopName| == |shop.name|
    ensures forall i :: 0 <= i < |shop.name| ==> !IsUpper(LinkFor(shop).shopName[i])
    ensures forall i :: 0 <= i < |shop.name| ==>
      UpperChar(LinkFor(shop).shopName[i]) == shop.name[i] || LinkFor(shop).shopName[i] == shop.name[i]
    ensures OccursAt(shop.url, "http://", 0) ==>
      LinkFor(shop).offerLink == shop.affiliateLink + "&goto=" + "https://" + shop.url[7..]
    ensures (forall j: nat :: !OccursAt(shop.url, "http://", j)) ==>
      LinkFor(shop).offerLink == shop.affiliateLink + "&goto=" + shop.url
  {
    if OccursAt(shop.url, "http://", 0) {
      ReplaceFirstAt(shop.url, "http://", "https://", 0);
      assert shop.url[..0] == "";
    }
  }

  /** Wherever the first `http://` of the URL stands, it and no other occurrence becomes
      `https://` in the link. */
  lemma LinkForFirstHttp(shop: Shop, i: nat)
    requires OccursAt(shop.url, "http://", i)
    requires forall j: nat :: j < i ==> !OccursAt(shop.url, "http://", j)
    ensures LinkFor(shop).offerLink
         == shop.affiliateLink + "&goto=" + shop.url[..i] + "https://" + shop.url[i + 7..]
  {
    ReplaceFirstAt(shop.url, "http://", "https://", i);
  }

  /** `getOfferLinksByOfferId` from the parsed, well-formed shops: an empty token throws;
      otherwise one entry is pushed for every shop the filter keeps. */
  method GetOfferLinksByOfferId(apiLinksToken: string, offerId: Option<int>, shops: seq<Shop>)
    returns (r: Result<seq<OfferLink>, LinkError>)
    ensures r.Failure? <==> apiLinksToken == ""
    ensures r.Success? ==> r.value == Links(offerId, shops)
  {
    if apiLinksToken == "" {
      return Failure(NoToken);
    }
    var result := [];
    for i := 0 to |shops|
      invariant result == Links(offerId, shops[..i])
    {
      var shop := shops[i];
      assert shops[..i + 1] == shops[..i] + [shop];
      LinksSnoc(offerId, shops[..i], shop);
      var goto := ReplaceFirst(shop.url, "http://", "https://");
      var xmlOfferId := shop.id;
      if TruthyNumber(offerId) && offerId.value != xmlOfferId {
        continue;
      }
      result := result + [OfferLink(xmlOfferId, shop.affiliateLink + "&goto=" + goto, ToLower(shop.name))];
    }
    assert shops[..|shops|] == shops;
    r := Success(result);
  }
}
