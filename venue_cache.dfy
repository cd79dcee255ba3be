/**
  `fetch_venue_address` from generate_ics_bulk.py: the address of a venue
  page, memoised per venue URL for the whole run.
 */
module VenueCache {
  import opened Wrappers
  import opened Text
  import opened Http

  const DefaultLocation: string := "301 Huntington Rd, Huntington, York YO32 9WT"

  /** What a venue page shows, as far as its address is concerned. */
  datatype VenuePage =
    | NoAddressLabel                       // no <p> whose whole text is "Address"
    | NoEnclosingDiv                       // the label has no enclosing <div>
    | AddressDiv(paragraphs: seq<string>)  // stripped text of every <p> in that <div>, in order

  /** Python's `ps[1:]`, which is empty for an empty list. */
  function Tail(ps: seq<string>): seq<string>
  {
    if ps == [] then [] else ps[1..]
  }

  /** The non-empty strings of `ps`, in order. */
  function NonEmpty(ps: seq<string>): (r: seq<string>)
    ensures forall i :: 0 <= i < |r| ==> r[i] != ""
  {
    if ps == [] then []
    else NonEmpty(ps[..|ps| - 1]) + (if ps[|ps| - 1] == "" then [] else [ps[|ps| - 1]])
  }

  /** The address the source derives from a fetched venue page (`None` when the fetch failed). */
  function AddressOf(page: Option<VenuePage>): string
  {
    match page
    case Some(AddressDiv(ps)) =>
      var lines := NonEmpty(Tail(ps));
      if lines == [] then DefaultLocation else Join(", ", lines)
    case _ => DefaultLocation
  }

  /** Every address is either the default or made of the page's non-empty lines, so it is never empty. */
  lemma AddressNeverEmpty(page: Option<VenuePage>)
    ensures AddressOf(page) != ""
    ensures (page.None? || !page.value.AddressDiv?) ==> AddressOf(page) == DefaultLocation
  {
    if page.Some? && page.value.AddressDiv? {
      var lines := NonEmpty(Tail(page.value.paragraphs));
      if lines != [] {
        JoinNonEmpty(", ", lines);
      }
    }
  }

  /** An address with a single non-empty line below the label is that line. */
  lemma AddressSingleLine(paragraphs: seq<string>, line: string)
    requires NonEmpty(Tail(paragraphs)) == [line]
    ensures AddressOf(Some(AddressDiv(paragraphs))) == line
  {
  }

  /** The loop over the paragraphs that follow the label, keeping those whose text is not empty. */
  method CollectAddressLines(paragraphs: seq<string>) returns (lines: seq<string>)
    ensures lines == NonEmpty(Tail(paragraphs))
  {
    var ps := Tail(paragraphs);
    lines := [];
    var i := 0;
    while i < |ps|
      invariant 0 <= i <= |ps|
      invariant lines == NonEmpty(ps[..i])
    {
      assert ps[..i + 1][..i] == ps[..i];
      if ps[i] != "" {
        lines := lines + [ps[i]];
      }
      i := i + 1;
    }
    assert ps[..i] == ps;
  }

  /** The process-wide `_venue_cache`: venue URL to address. */
  class Cache {
    var entries: map<string, string>

    /** No cached address is empty. */
    ghost predicate Valid()
      reads this
    {
      forall url :: url in entries ==> entries[url] != ""
    }

    constructor ()
      ensures Valid() && entries == map[]
    {
      entries := map[];
    }

    /**
      `fetch_venue_address(venue_url)`. `requested` tells whether `safe_get`
      was called; `sleeps` are its backoff delays.
     */
    method FetchVenueAddress(venueUrl: string, net: nat -> Outcome<VenuePage>)
      returns (address: string, requested: bool, sleeps: seq<nat>)
      requires Valid()
      modifies this
      ensures Valid()
      ensures address != ""
      ensures venueUrl == "" ==> address == DefaultLocation && !requested && entries == old(entries)
      ensures venueUrl != "" && venueUrl in old(entries) ==>
        address == old(entries)[venueUrl] && !requested && entries == old(entries)
      ensures venueUrl != "" && venueUrl !in old(entries) ==>
        requested && address == AddressOf(Fetch(net)) && entries == old(entries)[venueUrl := address]
      ensures venueUrl != "" ==> venueUrl in entries && entries[venueUrl] == address
      ensures sleeps == if requested then Backoff(net) else []
    {
      requested, sleeps := false, [];
      if venueUrl == "" {
        return DefaultLocation, requested, sleeps;
      }
      if venueUrl in entries {
        return entries[venueUrl], requested, sleeps;
      }
      var page;
      page, sleeps := SafeGet(net);
      requested := true;
      AddressNeverEmpty(page);
      if page.None? {
        address := DefaultLocation;
      } else {
        match page.value
        case NoAddressLabel =>
          address := DefaultLocation;
        case NoEnclosingDiv =>
          address := DefaultLocation;
        case AddressDiv(paragraphs) =>
          var lines := CollectAddressLines(paragraphs);
          address := if lines != [] then Join(", ", lines) else DefaultLocation;
      }
      entries := entries[venueUrl := address];
    }
  }
}
