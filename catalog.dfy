/** `get_payment_type` and `get_categories`: one catalog request per site, every
    returned record tagged with its site, all records concatenated in site order.
    The request is a parameter: `fetch(site, resource)` is the decoded JSON array
    the endpoint `/sites/{site}/{resource}` answers, or `None` when the request or
    the decoding raises. */
module Catalog {
  import opened Wrappers
  import opened Json
  import opened Tagging

  /** The two catalog endpoints of a site. */
  datatype Resource = PaymentMethods | Categories

  type Fetcher = (string, Resource) -> Option<seq<Record>>

  /** The records of one response, each tagged with `country`, in response order. */
  function TagAll(cats: seq<Record>, country: string): (r: seq<Record>)
  {
    seq(|cats|, i requires 0 <= i < |cats| => AddCountry(cats[i], country))
  }

  /** What the catalog loop returns for `countries`: `None` as soon as one request
      fails, otherwise every tagged response concatenated in site order. */
  function Catalog(countries: seq<string>, resource: Resource, fetch: Fetcher): (r: Option<seq<Record>>)
  {
    if countries == [] then Some([])
    else match fetch(countries[0], resource)
      case None => None
      case Some(cats) => Prepend(TagAll(cats, countries[0]), Catalog(countries[1..], resource, fetch))
  }

  /** Some request among those of `countries` fails. */
  predicate AnyFails(countries: seq<string>, resource: Resource, fetch: Fetcher)
  {
    exists i :: 0 <= i < |countries| && fetch(countries[i], resource).None?
  }

  /** The number of records the successful responses for `countries` hold together. */
  function TotalRecords(countries: seq<string>, resource: Resource, fetch: Fetcher): (n: nat)
  {
    if countries == [] then 0
    else
      var n := match fetch(countries[0], resource) case None => 0 case Some(cats) => |cats|;
      n + TotalRecords(countries[1..], resource, fetch)
  }

  /** The loop of `get_payment_type` / `get_categories`: `data.extend(...)` per site. */
  method FetchCatalog(countries: seq<string>, resource: Resource, fetch: Fetcher)
    returns (data: Option<seq<Record>>)
    ensures data == Catalog(countries, resource, fetch)
  {
    var acc: seq<Record> := [];
    var i := 0;
    assert countries[i..] == countries;
    PrependEmpty(Catalog(countries, resource, fetch));
    while i < |countries|
      invariant 0 <= i <= |countries|
      invariant Catalog(countries, resource, fetch) == Prepend(acc, Catalog(countries[i..], resource, fetch))
    {
      var country := countries[i];
      var cats := fetch(country, resource);
      if cats.None? {
        return None;
      }
      PrependAssociative(acc, TagAll(cats.value, country), Catalog(countries[i + 1..], resource, fetch));
      assert countries[i..][1..] == countries[i + 1..];
      acc := acc + TagAll(cats.value, country);
      i := i + 1;
    }
    assert Catalog(countries[i..], resource, fetch) == Some([]);
    assert acc + [] == acc;
    data := Some(acc);
  }

  /** `get_payment_type`: the payment methods of every site. */
  method GetPaymentType(countries: seq<string>, fetch: Fetcher) returns (data: Option<seq<Record>>)
    ensures data == Catalog(countries, PaymentMethods, fetch)
  {
    data := FetchCatalog(countries, PaymentMethods, fetch);
  }

  /** `get_categories`: the top-level categories of every site. */
  method GetCategories(countries: seq<string>, fetch: Fetcher) returns (data: Option<seq<Record>>)
    ensures data == Catalog(countries, Categories, fetch)
  {
    data := FetchCatalog(countries, Categories, fetch);
  }

  /** The loop aborts exactly when one of its requests fails. */
  lemma {:induction false} CatalogFails(countries: seq<string>, resource: Resource, fetch: Fetcher)
    ensures Catalog(countries, resource, fetch).None? <==> AnyFails(countries, resource, fetch)
  {
    if countries != [] {
      CatalogFails(countries[1..], resource, fetch);
      if AnyFails(countries[1..], resource, fetch) {
        var i :| 0 <= i < |countries[1..]| && fetch(countries[1..][i], resource).None?;
        assert fetch(countries[i + 1], resource).None?;
      }
      if AnyFails(countries, resource, fetch) && fetch(countries[0], resource).Some? {
        var i :| 0 <= i < |countries| && fetch(countries[i], resource).None?;
        assert countries[1..][i - 1] == countries[i];
      }
    }
  }

  /** When nothing fails, the output holds exactly as many records as the responses. */
  lemma {:induction false} CatalogLength(countries: seq<string>, resource: Resource, fetch: Fetcher)
    requires !AnyFails(countries, resource, fetch)
    ensures Catalog(countries, resource, fetch).Some?
    ensures |Catalog(countries, resource, fetch).value| == TotalRecords(countries, resource, fetch)
  {
    CatalogFails(countries, resource, fetch);
    if countries != [] {
      CatalogFails(countries[1..], resource, fetch);
      CatalogLength(countries[1..], resource, fetch);
    }
  }

  /** Order and tagging: the `j`-th record of site `countries[i]` sits right after the
      records of the sites before it, tagged with `countries[i]`. */
  lemma {:induction false} CatalogAt(countries: seq<string>, resource: Resource, fetch: Fetcher, i: nat, j: nat)
    requires !AnyFails(countries, resource, fetch)
    requires i < |countries|
    requires j < |fetch(countries[i], resource).value|
    ensures Catalog(countries, resource, fetch).Some?
    ensures TotalRecords(countries[..i], resource, fetch) + j < |Catalog(countries, resource, fetch).value|
    ensures Catalog(countries, resource, fetch).value[TotalRecords(countries[..i], resource, fetch) + j]
         == AddCountry(fetch(countries[i], resource).value[j], countries[i])
  {
    CatalogLength(countries, resource, fetch);
    var first := fetch(countries[0], resource).value;
    var rest := Catalog(countries[1..], resource, fetch);
    CatalogFails(countries[1..], resource, fetch);
    CatalogLength(countries[1..], resource, fetch);
    if i == 0 {
      assert countries[..i] == [];
    } else {
      assert countries[1..][i - 1] == countries[i];
      CatalogAt(countries[1..], resource, fetch, i - 1, j);
      assert countries[..i][0] == countries[0];
      assert countries[..i][1..] == countries[1..][..i - 1];
    }
  }

  /** Every record the loop returns carries a `country` tag naming one of the sites. */
  lemma {:induction false} CatalogTagged(countries: seq<string>, resource: Resource, fetch: Fetcher)
    requires Catalog(countries, resource, fetch).Some?
    ensures forall k :: 0 <= k < |Catalog(countries, resource, fetch).value| ==>
              var r := Catalog(countries, resource, fetch).value[k];
              CountryKey in r && r[CountryKey].Str? && r[CountryKey].s in countries
  {
    if countries != [] {
      var first := TagAll(fetch(countries[0], resource).value, countries[0]);
      CatalogTagged(countries[1..], resource, fetch);
      var out: seq<Record> := Catalog(countries, resource, fetch).value;
      assert out == first + Catalog(countries[1..], resource, fetch).value;
      forall k | 0 <= k < |out|
        ensures CountryKey in out[k] && out[k][CountryKey].Str? && out[k][CountryKey].s in countries
      {
        if k >= |first| {
          assert out[k] == Catalog(countries[1..], resource, fetch).value[k - |first|];
        }
      }
    }
  }
}
