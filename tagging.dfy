/** `add_country`: tags a decoded record with the site it was fetched from. */
module Tagging {
  import opened Json

  /** The key every catalog record is tagged under. */
  const CountryKey: string := "country"

  /** The record `cat` after `cat['country'] = country`: the key is set (added or
      overwritten) and every other key keeps its value. */
  function AddCountry(cat: Record, country: string): (r: Record)
    ensures CountryKey in r && r[CountryKey] == Str(country)
    ensures r.Keys == cat.Keys + {CountryKey}
    ensures forall k :: k in cat && k != CountryKey ==> r[k] == cat[k]
  {
    cat[CountryKey := Str(country)]
  }

  /** Tagging twice with the same site is tagging once. */
  lemma AddCountryIdempotent(cat: Record, country: string)
    ensures AddCountry(AddCountry(cat, country), country) == AddCountry(cat, country)
  {
    var once := AddCountry(cat, country);
    assert AddCountry(once, country) == once;
  }

  /** Reading the tag back gives the site it was tagged with, and tagging with a
      second site replaces the first one. */
  lemma AddCountryLastWins(cat: Record, first: string, second: string)
    ensures AddCountry(AddCountry(cat, first), second) == AddCountry(cat, second)
    ensures AddCountry(AddCountry(cat, first), second)[CountryKey].s == second
  {
  }

  /** A Python `dict` object: `add_country` writes into the object it is given and
      returns that same object, so a caller holding the dict sees the tag too. */
  class Dict {
    var entries: Record

    constructor (entries: Record)
      ensures this.entries == entries
    {
      this.entries := entries;
    }

    /** `add_country(cat, country)` as the source runs it, in place. */
    static method AddCountryInPlace(cat: Dict, country: string) returns (r: Dict)
      modifies cat
      ensures r == cat
      ensures cat.entries == AddCountry(old(cat.entries), country)
    {
      cat.entries := cat.entries[CountryKey := Str(country)];
      r := cat;
    }
  }
}
