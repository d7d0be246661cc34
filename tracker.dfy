/**
 * The investor's pipeline board (pages/investor/Tracker.tsx): four columns, one
 * per stage other than `Passed`, each listing the loaded deals at its stage
 * with a count badge.
 */
module Tracker {
  import opened Types
  import opened Seqs
  import DataService

  /** One board column; `color` is the header dot's style class. */
  datatype Column = Column(id: DealStage, name: string, color: string)

  /** `COLUMNS`. */
  const Columns: seq<Column> := [
    Column(Sourced, "Sourced", "bg-slate-500"),
    Column(Reviewing, "Reviewing", "bg-blue-500"),
    Column(DueDiligence, "Due Diligence", "bg-indigo-500"),
    Column(Closed, "Closed", "bg-emerald-500")]

  /** Some column is headed by stage `s`. */
  predicate HasColumn(s: DealStage)
  {
    exists k :: 0 <= k < |Columns| && Columns[k].id == s
  }

  /** The columns are the four pipeline stages in order, each headed by its stage's name; `Passed` has none. */
  lemma ColumnsAreThePipelineStages()
    ensures |Columns| == 4
    ensures Columns[0].id == Sourced && Columns[1].id == Reviewing
    ensures Columns[2].id == DueDiligence && Columns[3].id == Closed
    ensures forall k :: 0 <= k < |Columns| ==> Columns[k].name == Columns[k].id.Value()
    ensures forall k, m :: 0 <= k < m < |Columns| ==> Columns[k].id != Columns[m].id
    ensures forall s: DealStage :: HasColumn(s) <==> s != Passed
  {
    forall s: DealStage | s != Passed
      ensures HasColumn(s)
    {
      match s
      case Sourced => assert Columns[0].id == s;
      case Reviewing => assert Columns[1].id == s;
      case DueDiligence => assert Columns[2].id == s;
      case Closed => assert Columns[3].id == s;
    }
  }

  /** `colDeals`: the deals at the column's stage, in their original order. */
  function ColumnDeals(deals: seq<Deal>, stage: DealStage): (r: seq<Deal>)
    ensures forall d :: d in r <==> d in deals && d.stage == stage
    ensures IsSubsequence(r, deals)
  {
    Filter((d: Deal) => d.stage == stage, deals)
  }

  /** The number of deals at a stage, counted one deal at a time. */
  function StageCount(deals: seq<Deal>, stage: DealStage): nat
  {
    if deals == [] then 0 else (if deals[0].stage == stage then 1 else 0) + StageCount(deals[1..], stage)
  }

  /** The column badge, `colDeals.length`, is the number of deals at that stage. */
  lemma {:induction false} BadgeCountsStage(deals: seq<Deal>, stage: DealStage)
    ensures |ColumnDeals(deals, stage)| == StageCount(deals, stage)
  {
    if deals != [] {
      BadgeCountsStage(deals[1..], stage);
      FilterCons((d: Deal) => d.stage == stage, deals[0], deals[1..]);
      assert deals == [deals[0]] + deals[1..];
    }
  }

  /** The badges of the four columns. */
  function BadgeTotal(deals: seq<Deal>): nat
  {
    |ColumnDeals(deals, Sourced)| + |ColumnDeals(deals, Reviewing)|
      + |ColumnDeals(deals, DueDiligence)| + |ColumnDeals(deals, Closed)|
  }

  /** The number of deals that are not passed. */
  function PipelineCount(deals: seq<Deal>): nat
  {
    if deals == [] then 0 else (if NotPassed(deals[0]) then 1 else 0) + PipelineCount(deals[1..])
  }

  lemma {:induction false} StageCountsAddUp(deals: seq<Deal>)
    ensures StageCount(deals, Sourced) + StageCount(deals, Reviewing)
      + StageCount(deals, DueDiligence) + StageCount(deals, Closed) == PipelineCount(deals)
  {
    if deals != [] {
      StageCountsAddUp(deals[1..]);
    }
  }

  /** The badges add up to the number of deals that are not passed: each such deal is counted once. */
  lemma BadgesAddUp(deals: seq<Deal>)
    ensures BadgeTotal(deals) == PipelineCount(deals)
    ensures BadgeTotal(deals) == |Filter(NotPassed, deals)|
  {
    BadgeCountsStage(deals, Sourced);
    BadgeCountsStage(deals, Reviewing);
    BadgeCountsStage(deals, DueDiligence);
    BadgeCountsStage(deals, Closed);
    StageCountsAddUp(deals);
    PipelineCountIsFilterLength(deals);
  }

  lemma {:induction false} PipelineCountIsFilterLength(deals: seq<Deal>)
    ensures PipelineCount(deals) == |Filter(NotPassed, deals)|
  {
    if deals != [] {
      PipelineCountIsFilterLength(deals[1..]);
      FilterCons(NotPassed, deals[0], deals[1..]);
      assert deals == [deals[0]] + deals[1..];
    }
  }

  /**
   * A loaded deal is in a column exactly when the column is its stage's, so a
   * deal that is not passed is in exactly one column (the column stages are
   * distinct), and a passed deal is in none.
   */
  lemma EachDealInOneColumn(deals: seq<Deal>, d: Deal)
    requires d in deals
    ensures forall k :: 0 <= k < |Columns| ==> (d in ColumnDeals(deals, Columns[k].id) <==> Columns[k].id == d.stage)
    ensures d.stage != Passed <==> exists k :: 0 <= k < |Columns| && d in ColumnDeals(deals, Columns[k].id)
  {
    if d.stage != Passed {
      var k := match d.stage
        case Sourced => 0
        case Reviewing => 1
        case DueDiligence => 2
        case Closed => 3;
      assert Columns[k].id == d.stage;
      assert d in ColumnDeals(deals, Columns[k].id);
    } else {
      forall k | 0 <= k < |Columns|
        ensures d !in ColumnDeals(deals, Columns[k].id)
      {
        assert Columns[k].id != Passed;
      }
    }
  }

  /** `getDeals().then(setDeals)`: the board starts empty and shows what a resolved fetch gives. */
  function BoardDeals(outcome: DataService.Outcome<seq<Deal>>): (r: seq<Deal>)
    ensures outcome.Resolved? ==> r == outcome.value
    ensures outcome.Rejected? ==> r == []
  {
    match outcome
    case Resolved(v) => v
    case Rejected => []
  }
}
