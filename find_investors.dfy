/**
 * The founder's investor search (pages/founder/FindInvestors.tsx): a
 * case-insensitive substring search over name and thesis, combined with an
 * exact match on the investor type, and the sorted list of distinct types
 * offered by the type selector.
 *
 * Letter case is folded for ASCII letters only; a `char` stands for one
 * UTF-16 code unit.
 */
module FindInvestors {
  import opened Types
  import opened Constants
  import opened Seqs

  /** `toLowerCase` on one code unit, for the ASCII letters `A`..`Z`. */
  function LowerChar(c: char): (l: char)
    ensures 'A' <= c <= 'Z' ==> l as int == c as int + 32
    ensures !('A' <= c <= 'Z') ==> l == c
    ensures !('A' <= l <= 'Z')
  {
    if 'A' <= c <= 'Z' then (c as int + 32) as char else c
  }

  /** `s.toLowerCase()`. */
  function Lower(s: string): (r: string)
    ensures |r| == |s|
    ensures forall i :: 0 <= i < |s| ==> r[i] == LowerChar(s[i])
  {
    seq(|s|, i requires 0 <= i < |s| => LowerChar(s[i]))
  }

  /** Lowering twice is lowering once. */
  lemma LowerIdempotent(s: string)
    ensures Lower(Lower(s)) == Lower(s)
  {
  }

  /** `t` occurs in `s` starting at position `i`. */
  predicate OccursAt(s: string, t: string, i: int)
  {
    0 <= i && i + |t| <= |s| && s[i..i + |t|] == t
  }

  /**
   * Past a position where `t` does not start, `t` occurs in `s` exactly when
   * it occurs in the rest of `s`.
   */
  lemma OccursPastHead(s: string, t: string)
    requires s != [] && !OccursAt(s, t, 0)
    ensures (exists i :: OccursAt(s, t, i)) <==> exists i :: OccursAt(s[1..], t, i)
  {
    if exists i :: OccursAt(s[1..], t, i) {
      var i :| OccursAt(s[1..], t, i);
      assert s[i + 1..i + 1 + |t|] == s[1..][i..i + |t|];
      assert OccursAt(s, t, i + 1);
    }
    if exists i :: OccursAt(s, t, i) {
      var i :| OccursAt(s, t, i);
      assert i != 0;
      assert s[1..][i - 1..i - 1 + |t|] == s[i..i + |t|];
      assert OccursAt(s[1..], t, i - 1);
    }
  }

  /**
   * `s.includes(t)`: compare `t` with each suffix of `s` in turn. It holds
   * exactly when `t` occurs at some position of `s`; the empty string occurs
   * everywhere.
   */
  function Contains(s: string, t: string): (b: bool)
    ensures b <==> exists i :: OccursAt(s, t, i)
    decreases |s|
  {
    if |t| > |s| then false
    else if s[..|t|] == t then
      assert OccursAt(s, t, 0);
      true
    else
      OccursPastHead(s, t);
      Contains(s[1..], t)
  }

  /** Every string contains the empty string. */
  lemma ContainsEmpty(s: string)
    ensures Contains(s, "")
  {
    assert OccursAt(s, "", 0);
  }

  /** `matchesSearch`: the lowered name or the lowered thesis contains the lowered term. */
  predicate MatchesSearch(inv: InvestorDirectoryItem, term: string)
  {
    Contains(Lower(inv.name), Lower(term)) || Contains(Lower(inv.thesis), Lower(term))
  }

  /** `matchesType`: no type selected, or exactly the selected type (letter case counts). */
  predicate MatchesType(inv: InvestorDirectoryItem, selectedType: string)
  {
    selectedType == "" || inv.investorType == selectedType
  }

  predicate Kept(inv: InvestorDirectoryItem, term: string, selectedType: string)
  {
    MatchesSearch(inv, term) && MatchesType(inv, selectedType)
  }

  /** `filteredInvestors`: the loaded investors that match both the search and the type, in order. */
  function FilteredInvestors(investors: seq<InvestorDirectoryItem>, term: string, selectedType: string)
    : (r: seq<InvestorDirectoryItem>)
    ensures forall inv :: inv in r <==>
      inv in investors &&
      (exists i :: OccursAt(Lower(inv.name), Lower(term), i) || OccursAt(Lower(inv.thesis), Lower(term), i)) &&
      (selectedType == "" || inv.investorType == selectedType)
    ensures IsSubsequence(r, investors)
    ensures |r| == CountIf((inv: InvestorDirectoryItem) => Kept(inv, term, selectedType), investors)
  {
    var r := Filter((inv: InvestorDirectoryItem) => Kept(inv, term, selectedType), investors);
    r
  }

  /** With an empty search term and no type selected, every investor is listed, in order. */
  lemma EmptyFiltersKeepAll(investors: seq<InvestorDirectoryItem>)
    ensures FilteredInvestors(investors, "", "") == investors
  {
    forall inv | inv in investors
      ensures Kept(inv, "", "")
    {
      ContainsEmpty(Lower(inv.name));
    }
    FilterAll((inv: InvestorDirectoryItem) => Kept(inv, "", ""), investors);
  }

  /** The result does not depend on the letter case of the search term. */
  lemma SearchIgnoresCase(investors: seq<InvestorDirectoryItem>, t1: string, t2: string, selectedType: string)
    requires Lower(t1) == Lower(t2)
    ensures FilteredInvestors(investors, t1, selectedType) == FilteredInvestors(investors, t2, selectedType)
  {
    FilterCongruent(
      (inv: InvestorDirectoryItem) => Kept(inv, t1, selectedType),
      (inv: InvestorDirectoryItem) => Kept(inv, t2, selectedType),
      investors);
  }

  /** In particular, searching for a term and for its lowered form list the same investors. */
  lemma SearchTermLowered(investors: seq<InvestorDirectoryItem>, term: string, selectedType: string)
    ensures FilteredInvestors(investors, term, selectedType) == FilteredInvestors(investors, Lower(term), selectedType)
  {
    LowerIdempotent(term);
    SearchIgnoresCase(investors, term, Lower(term), selectedType);
  }

  /** The type filter compares exactly: a selected type that differs in letter case keeps nobody of that type. */
  lemma TypeFilterIsCaseSensitive(inv: InvestorDirectoryItem, term: string)
    requires inv.investorType == "VC"
    ensures !Kept(inv, term, "vc")
    ensures Kept(inv, term, "VC") <==> MatchesSearch(inv, term)
  {
  }

  /** An occurrence of the lowered term in the lowered thesis is a match. */
  lemma ThesisOccurrenceMatches(inv: InvestorDirectoryItem, term: string, i: int)
    requires OccursAt(Lower(inv.thesis), Lower(term), i)
    ensures MatchesSearch(inv, term)
  {
  }

  /** The thesis of the fourth directory entry has the letters "ai" of "Chain" at position 100. */
  lemma FourthThesisMentionsChain()
    ensures |MockInvestorDirectory[3].thesis| > 101
    ensures MockInvestorDirectory[3].thesis[100] == 'a' && MockInvestorDirectory[3].thesis[101] == 'i'
  {
  }

  /** An investor that passes both filters is listed. */
  lemma KeptIsListed(investors: seq<InvestorDirectoryItem>, term: string, selectedType: string, k: nat)
    requires k < |investors| && Kept(investors[k], term, selectedType)
    ensures investors[k] in FilteredInvestors(investors, term, selectedType)
  {
    assert investors[k] in investors;
  }

  /** Matching is on substrings: "AI" finds the investor whose thesis mentions "Supply Chain". */
  lemma AiMatchesSupplyChain()
    ensures MatchesSearch(MockInvestorDirectory[3], "AI")
    ensures MockInvestorDirectory[3] in FilteredInvestors(MockInvestorDirectory, "AI", "")
  {
    var inv := MockInvestorDirectory[3];
    assert MatchesSearch(inv, "AI") by {
      FourthThesisMentionsChain();
      assert OccursAt(Lower(inv.thesis), Lower("AI"), 100) by {
        assert Lower("AI") == "ai";
        assert Lower(inv.thesis)[100..102] == "ai";
      }
      ThesisOccurrenceMatches(inv, "AI", 100);
    }
    KeptIsListed(MockInvestorDirectory, "AI", "", 3);
  }

  /** `investors.map(i => i.type)`. */
  function TypeValues(investors: seq<InvestorDirectoryItem>): (r: seq<string>)
    ensures |r| == |investors|
    ensures forall i :: 0 <= i < |investors| ==> r[i] == investors[i].investorType
  {
    seq(|investors|, i requires 0 <= i < |investors| => investors[i].investorType)
  }

  /** `investorTypes`: strictly sorted, without duplicates, exactly the types of the loaded investors. */
  function InvestorTypes(investors: seq<InvestorDirectoryItem>): (r: seq<string>)
    ensures StrictlySorted(r) && NoDuplicates(r)
    ensures forall t :: t in r <==> exists inv :: inv in investors && inv.investorType == t
  {
    var values := TypeValues(investors);
    assert forall t :: t in values <==> exists inv :: inv in investors && inv.investorType == t by {
      forall t ensures t in values <==> exists inv :: inv in investors && inv.investorType == t {
        if t in values {
          var i :| 0 <= i < |values| && values[i] == t;
          assert investors[i] in investors;
        }
        if exists inv :: inv in investors && inv.investorType == t {
          var inv :| inv in investors && inv.investorType == t;
          var i :| 0 <= i < |investors| && investors[i] == inv;
          assert values[i] == t;
        }
      }
    }
    SortedDistinct(values)
  }

  /** The type options do not depend on the order in which the investors arrive. */
  lemma InvestorTypesIgnoreOrder(a: seq<InvestorDirectoryItem>, b: seq<InvestorDirectoryItem>)
    requires multiset(a) == multiset(b)
    ensures InvestorTypes(a) == InvestorTypes(b)
  {
    forall t ensures t in InvestorTypes(a) <==> t in InvestorTypes(b) {
      if t in InvestorTypes(a) {
        var inv :| inv in a && inv.investorType == t;
        assert inv in multiset(a);
      }
      if t in InvestorTypes(b) {
        var inv :| inv in b && inv.investorType == t;
        assert inv in multiset(b);
      }
    }
    StrictlySortedUnique(InvestorTypes(a), InvestorTypes(b));
  }

  /** The stage chips on a card: the first three stages, and how many more there are (shown as `+n` when positive). */
  function StageChips(stages: seq<string>): (r: (seq<string>, nat))
    ensures |r.0| <= 3 && |r.0| <= |stages| && r.0 == stages[..|r.0|]
    ensures |r.0| + r.1 == |stages|
    ensures r.1 > 0 ==> |r.0| == 3
  {
    if |stages| <= 3 then (stages, 0) else (stages[..3], |stages| - 3)
  }
}
