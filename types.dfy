/**
 * The shared record shapes and enumerations of the application (types.ts).
 * An optional property (`x?: T`) is an `Option`; a TypeScript string enum is a
 * datatype whose `Value()` is the string the enum member stands for.
 */
module Types {

  datatype Option<+T> = None | Some(value: T)

  datatype Result<+T> = Success(value: T) | Failure(error: string)

  datatype Role = Investor | Founder
  {
    function Value(): string
    {
      match this
      case Investor => "INVESTOR"
      case Founder => "FOUNDER"
    }
  }

  datatype StartupStage = Seed | SeriesA | SeriesB | Growth
  {
    function Value(): string
    {
      match this
      case Seed => "Seed"
      case SeriesA => "Series A"
      case SeriesB => "Series B"
      case Growth => "Growth"
    }
  }

  datatype DealStage = Sourced | Reviewing | DueDiligence | Closed | Passed
  {
    function Value(): string
    {
      match this
      case Sourced => "Sourced"
      case Reviewing => "Reviewing"
      case DueDiligence => "Due Diligence"
      case Closed => "Closed"
      case Passed => "Passed"
    }
  }

  /** Every member of each enumeration, in declaration order. */
  const AllStartupStages: seq<StartupStage> := [Seed, SeriesA, SeriesB, Growth]
  const AllDealStages: seq<DealStage> := [Sourced, Reviewing, DueDiligence, Closed, Passed]

  /** `DealStage` has exactly the five members listed, with five distinct string values. */
  lemma DealStageMembers(s: DealStage)
    ensures s in AllDealStages
    ensures |AllDealStages| == 5
    ensures forall i, j :: 0 <= i < j < |AllDealStages| ==> AllDealStages[i].Value() != AllDealStages[j].Value()
  {
  }

  /** `StartupStage` has exactly the four members listed, with four distinct string values. */
  lemma StartupStageMembers(s: StartupStage)
    ensures s in AllStartupStages
    ensures |AllStartupStages| == 4
    ensures forall i, j :: 0 <= i < j < |AllStartupStages| ==> AllStartupStages[i].Value() != AllStartupStages[j].Value()
  {
  }

  /** `Document.type`: one of four literal strings. */
  datatype DocType = Pdf | Excel | Deck | Legal
  {
    function Value(): string
    {
      match this
      case Pdf => "PDF"
      case Excel => "Excel"
      case Deck => "Deck"
      case Legal => "Legal"
    }
  }

  /** `Document.status`: one of two literal strings. */
  datatype DocStatus = Ready | Processing
  {
    function Value(): string
    {
      match this
      case Ready => "Ready"
      case Processing => "Processing"
    }
  }

  datatype Profile = Profile(
    id: string,
    role: Role,
    name: string,
    firmName: Option<string>,
    title: Option<string>,
    avatarUrl: Option<string>)

  datatype StartupStats = StartupStats(mrr: int, growth: int)

  /** `matchScore`, `stats` and `logoUrl` are optional. */
  datatype Startup = Startup(
    id: string,
    founderId: string,
    name: string,
    description: string,
    sector: string,
    stage: StartupStage,
    ask: int,
    valuation: int,
    location: string,
    logoUrl: Option<string>,
    matchScore: Option<int>,
    stats: Option<StartupStats>)

  datatype Deal = Deal(
    id: string,
    investorId: string,
    startupId: string,
    startup: Startup,
    stage: DealStage,
    isShortlisted: bool,
    notes: Option<string>,
    updatedAt: string)

  /** A deal still in the pipeline: every stage but `Passed`. */
  predicate NotPassed(d: Deal)
  {
    d.stage != Passed
  }

  datatype Document = Document(
    id: string,
    startupId: string,
    name: string,
    docType: DocType,
    size: string,
    uploadedAt: string,
    status: DocStatus)

  datatype Message = Message(
    id: string,
    threadId: string,
    senderId: string,
    content: string,
    createdAt: string,
    isAiGenerated: Option<bool>)

  /** `lastMessage` is optional; `unreadCount` is always present. */
  datatype Thread = Thread(
    id: string,
    participants: seq<Profile>,
    lastMessage: Option<Message>,
    unreadCount: int)

  /** Unlike `Startup.matchScore`, the directory's `matchScore` is required. */
  datatype InvestorDirectoryItem = InvestorDirectoryItem(
    id: string,
    name: string,
    website: string,
    hq: string,
    stages: seq<string>,
    thesis: string,
    investorType: string,
    chequeRange: string,
    matchScore: int)
}
