/**
 * The investor's dealflow page (pages/investor/Dealflow.tsx): the filtered
 * list of deals, the sector options derived from the loaded deals, and the
 * optimistic shortlist toggle.
 */
module Dealflow {
  import opened Types
  import opened Constants
  import opened Seqs
  import DataService

  /** `(match_score || 0)`: a missing score counts as zero. */
  function ScoreOrZero(s: Startup): int
  {
    match s.matchScore
    case Some(v) => v
    case None => 0
  }

  /** The card filter: minimum score, optional exact sector, optional exact startup stage, never a passed deal. */
  predicate Shown(d: Deal, filterScore: int, sector: string, stage: string)
  {
    && ScoreOrZero(d.startup) >= filterScore
    && (sector == "" || d.startup.sector == sector)
    && (stage == "" || d.startup.stage.Value() == stage)
    && d.stage != Passed
  }

  /** `filteredDeals`. */
  function FilteredDeals(deals: seq<Deal>, filterScore: int, sector: string, stage: string): (r: seq<Deal>)
    ensures forall d :: d in r <==> d in deals && Shown(d, filterScore, sector, stage)
    ensures IsSubsequence(r, deals)
    ensures |r| == CountIf((d: Deal) => Shown(d, filterScore, sector, stage), deals)
    ensures forall d :: d in r ==> d.stage != Passed
  {
    Filter((d: Deal) => Shown(d, filterScore, sector, stage), deals)
  }

  /** After "Clear Filters", and with no negative score, every deal that is not passed is shown, in order. */
  lemma ClearedFiltersShowAllNotPassed(deals: seq<Deal>)
    requires forall d :: d in deals ==> ScoreOrZero(d.startup) >= 0
    ensures FilteredDeals(deals, 0, "", "") == Filter(NotPassed, deals)
  {
    FilterCongruent((d: Deal) => Shown(d, 0, "", ""), NotPassed, deals);
  }

  /** `deals.map(d => d.startup.sector)`. */
  function SectorValues(deals: seq<Deal>): (r: seq<string>)
    ensures |r| == |deals|
    ensures forall i :: 0 <= i < |deals| ==> r[i] == deals[i].startup.sector
  {
    seq(|deals|, i requires 0 <= i < |deals| => deals[i].startup.sector)
  }

  /** `sectors`: strictly sorted, without duplicates, exactly the sectors of the loaded deals. */
  function Sectors(deals: seq<Deal>): (r: seq<string>)
    ensures StrictlySorted(r) && NoDuplicates(r)
    ensures forall s :: s in r <==> exists d :: d in deals && d.startup.sector == s
  {
    var values := SectorValues(deals);
    var r := SortedDistinct(values);
    assert forall s :: s in values <==> exists d :: d in deals && d.startup.sector == s by {
      forall s ensures s in values <==> exists d :: d in deals && d.startup.sector == s {
        if s in values {
          var i :| 0 <= i < |values| && values[i] == s;
          assert deals[i] in deals;
        }
        if exists d :: d in deals && d.startup.sector == s {
          var d :| d in deals && d.startup.sector == s;
          var i :| 0 <= i < |deals| && deals[i] == d;
          assert values[i] == s;
        }
      }
    }
    r
  }

  /** The sector list does not depend on the order in which the deals arrive. */
  lemma SectorsIgnoreDealOrder(a: seq<Deal>, b: seq<Deal>)
    requires multiset(a) == multiset(b)
    ensures Sectors(a) == Sectors(b)
  {
    forall s ensures s in Sectors(a) <==> s in Sectors(b) {
      if s in Sectors(a) {
        var d :| d in a && d.startup.sector == s;
        assert d in multiset(a);
      }
      if s in Sectors(b) {
        var d :| d in b && d.startup.sector == s;
        assert d in multiset(b);
      }
    }
    StrictlySortedUnique(Sectors(a), Sectors(b));
  }

  /** `prev.map(d => d.id === id ? { ...d, is_shortlisted: !d.is_shortlisted } : d)`. */
  function ToggleShortlisted(deals: seq<Deal>, id: string): (r: seq<Deal>)
    ensures |r| == |deals|
    ensures forall i :: 0 <= i < |deals| && deals[i].id != id ==> r[i] == deals[i]
    ensures forall i :: 0 <= i < |deals| && deals[i].id == id ==>
      r[i] == deals[i].(isShortlisted := !deals[i].isShortlisted)
  {
    seq(|deals|, i requires 0 <= i < |deals| =>
      if deals[i].id == id then deals[i].(isShortlisted := !deals[i].isShortlisted) else deals[i])
  }

  /** Toggling the same id twice restores the list. */
  lemma ToggleTwice(deals: seq<Deal>, id: string)
    ensures ToggleShortlisted(ToggleShortlisted(deals, id), id) == deals
  {
  }

  /** The toggle changes no id, so it keeps which deals the filters can show, apart from the flag. */
  lemma ToggleKeepsIdsAndStages(deals: seq<Deal>, id: string)
    ensures forall i :: 0 <= i < |deals| ==>
      ToggleShortlisted(deals, id)[i].(isShortlisted := deals[i].isShortlisted) == deals[i]
  {
  }

  /** `deals.find(d => d.id === id)`: the index of the first deal with that id. */
  function FindIndex(deals: seq<Deal>, id: string): (r: Option<nat>)
    ensures r.None? <==> forall d :: d in deals ==> d.id != id
    ensures r.Some? ==> r.value < |deals| && deals[r.value].id == id
    ensures r.Some? ==> forall k :: 0 <= k < r.value ==> deals[k].id != id
  {
    if deals == [] then None
    else if deals[0].id == id then Some(0)
    else
      match FindIndex(deals[1..], id)
      case None =>
        assert deals == [deals[0]] + deals[1..];
        None
      case Some(k) => Some(k + 1)
  }

  /** The call `handleToggleShortlist` makes to the data layer: `toggleShortlist(id, deal.is_shortlisted)`. */
  datatype ShortlistCall = ShortlistCall(dealId: string, currentState: bool)

  /**
   * What the data layer writes for a call agrees with the flag the optimistic
   * update gave the first deal with that id.
   */
  lemma RemoteWriteMatchesLocalFlag(deals: seq<Deal>, id: string, client: DataService.Client)
    requires FindIndex(deals, id).Some?
    ensures var k := FindIndex(deals, id).value;
      DataService.ToggleShortlist(Some(client), id, deals[k].isShortlisted)
        == Some(DataService.ShortlistWrite(id, ToggleShortlisted(deals, id)[k].isShortlisted))
  {
  }

  /** The positions of the score slider: 0, 5, ..., 95. */
  predicate OnSlider(v: int)
  {
    0 <= v <= 95 && v % 5 == 0
  }

  /** The page's state. */
  class DealflowView {
    var deals: seq<Deal>
    var loading: bool
    var filterScore: int
    var selectedSector: string
    var selectedStage: string

    ghost predicate Valid()
      reads this
    {
      OnSlider(filterScore)
    }

    constructor ()
      ensures Valid()
      ensures deals == [] && loading
      ensures filterScore == 0 && selectedSector == "" && selectedStage == ""
    {
      deals := [];
      loading := true;
      filterScore := 0;
      selectedSector := "";
      selectedStage := "";
    }

    /** The cards on screen. */
    function Visible(): seq<Deal>
      reads this
    {
      FilteredDeals(deals, filterScore, selectedSector, selectedStage)
    }

    /** `loadDeals`: on a resolved fetch the deals are stored and loading ends; a rejected one changes nothing. */
    method DealsLoaded(outcome: DataService.Outcome<seq<Deal>>)
      modifies this
      ensures outcome.Resolved? ==> deals == outcome.value && !loading
      ensures outcome.Rejected? ==> deals == old(deals) && loading == old(loading)
      ensures filterScore == old(filterScore) && selectedSector == old(selectedSector)
      ensures selectedStage == old(selectedStage)
    {
      if outcome.Resolved? {
        deals := outcome.value;
        loading := false;
      }
    }

    /** The score slider; it only produces its own positions. */
    method SetFilterScore(v: int)
      requires Valid() && OnSlider(v)
      modifies this
      ensures Valid()
      ensures filterScore == v && deals == old(deals)
      ensures selectedSector == old(selectedSector) && selectedStage == old(selectedStage) && loading == old(loading)
    {
      filterScore := v;
    }

    method SetSector(s: string)
      modifies this
      ensures selectedSector == s && deals == old(deals) && filterScore == old(filterScore)
      ensures selectedStage == old(selectedStage) && loading == old(loading)
    {
      selectedSector := s;
    }

    method SetStage(s: string)
      modifies this
      ensures selectedStage == s && deals == old(deals) && filterScore == old(filterScore)
      ensures selectedSector == old(selectedSector) && loading == old(loading)
    {
      selectedStage := s;
    }

    /** "Clear Filters": afterwards, with no negative score, every deal that is not passed is on screen, in order. */
    method ClearFilters()
      modifies this
      ensures Valid()
      ensures filterScore == 0 && selectedSector == "" && selectedStage == ""
      ensures deals == old(deals) && loading == old(loading)
      ensures (forall d :: d in deals ==> ScoreOrZero(d.startup) >= 0) ==> Visible() == Filter(NotPassed, deals)
    {
      filterScore := 0;
      selectedSector := "";
      selectedStage := "";
      if forall d :: d in deals ==> ScoreOrZero(d.startup) >= 0 {
        ClearedFiltersShowAllNotPassed(deals);
      }
    }

    /**
     * `handleToggleShortlist(id)`: when a deal with that id is loaded, every deal
     * with that id has its flag flipped and the data layer is called with the
     * first one's previous flag; otherwise nothing changes and nothing is called.
     */
    method ToggleShortlist(id: string) returns (call: Option<ShortlistCall>)
      modifies this
      ensures FindIndex(old(deals), id).None? ==> call.None? && deals == old(deals)
      ensures FindIndex(old(deals), id).Some? ==>
        call == Some(ShortlistCall(id, old(deals)[FindIndex(old(deals), id).value].isShortlisted)) &&
        deals == ToggleShortlisted(old(deals), id)
      ensures filterScore == old(filterScore) && selectedSector == old(selectedSector)
      ensures selectedStage == old(selectedStage) && loading == old(loading)
    {
      var found := FindIndex(deals, id);
      if found.None? {
        call := None;
        return;
      }
      var deal := deals[found.value];
      deals := ToggleShortlisted(deals, id);
      call := Some(ShortlistCall(id, deal.isShortlisted));
    }
  }

  /** A four-element list whose first and third elements satisfy `p` filters down to those two. */
  lemma FilterFirstAndThird<T(!new)>(p: T -> bool, s: seq<T>)
    requires |s| == 4 && p(s[0]) && !p(s[1]) && p(s[2]) && !p(s[3])
    ensures Filter(p, s) == [s[0], s[2]]
  {
    var s3, s2, s1 := s[3..], s[2..], s[1..];
    assert Filter(p, s3) == [] by {
      assert s3 == [s[3]] + [];
      FilterCons(p, s[3], []);
    }
    assert Filter(p, s2) == [s[2]] by {
      assert s2 == [s[2]] + s3;
      FilterCons(p, s[2], s3);
    }
    assert Filter(p, s1) == [s[2]] by {
      assert s1 == [s[1]] + s2;
      FilterCons(p, s[1], s2);
    }
    assert s == [s[0]] + s1;
    FilterCons(p, s[0], s1);
  }

  /** With the mock deals, a minimum score of 90 and no other filter, the page shows `d_1` (98) and `d_3` (92). */
  lemma MockDealsAtScore90(clock: LoadClock)
    ensures FilteredDeals(MockDeals(clock), 90, "", "") == [MockDeals(clock)[0], MockDeals(clock)[2]]
    ensures FilteredDeals(MockDeals(clock), 90, "", "")[0].id == "d_1"
    ensures FilteredDeals(MockDeals(clock), 90, "", "")[1].id == "d_3"
  {
    var ds := MockDeals(clock);
    assert Shown(ds[0], 90, "", "") && !Shown(ds[1], 90, "", "");
    assert Shown(ds[2], 90, "", "") && !Shown(ds[3], 90, "", "");
    FilterFirstAndThird((d: Deal) => Shown(d, 90, "", ""), ds);
  }

  /** With the filters cleared, all four mock deals are shown. */
  lemma MockDealsUnfiltered(clock: LoadClock)
    ensures FilteredDeals(MockDeals(clock), 0, "", "") == MockDeals(clock)
  {
    var ds := MockDeals(clock);
    MockDealsConsistent(clock);
    assert forall d :: d in ds ==> ScoreOrZero(d.startup) >= 0;
    FilterAll((d: Deal) => Shown(d, 0, "", ""), ds);
  }
}
