/**
 * The fixture data of constants.tsx: the navigation table, the two mock
 * profiles, and the mock startups, deals, documents, threads and investor
 * directory that the data layer falls back to.
 */
module Constants {
  import opened Types

  /** One navigation entry; the icon is presentation only and is not modelled. */
  datatype NavItem = NavItem(labelText: string, path: string)

  /** `NAV_ITEMS[role]`: the role-specific entries. */
  function RoleNavItems(role: Role): seq<NavItem>
  {
    match role
    case Investor => [
      NavItem("Dealflow", "/investor/dealflow"),
      NavItem("Tracker", "/investor/tracker"),
      NavItem("Directory", "/investor/directory"),
      NavItem("Portfolio", "/investor/portfolio")]
    case Founder => [
      NavItem("Find Investors", "/founder/investors"),
      NavItem("Deal Room", "/founder/dealroom")]
  }

  /** `NAV_ITEMS.COMMON`: the entries shown to both roles. */
  const CommonNavItems: seq<NavItem> := [NavItem("Messages", "/messages")]

  const MockInvestor: Profile := Profile(
    "inv_1", Investor, "Warren Buffett (AI)",
    Some("Berkshire Next"), Some("Managing Partner"), Some("https://picsum.photos/200/200?random=1"))

  const MockFounder: Profile := Profile(
    "fnd_1", Founder, "Elon Musk (AI)",
    Some("Mars Express"), Some("CEO"), Some("https://picsum.photos/200/200?random=2"))

  const MockStartups: seq<Startup> := [
    Startup("s_1", "fnd_1", "Nebula AI", "Generative AI for autonomous supply chain optimization.",
      "Artificial Intelligence", SeriesA, 5000000, 25000000, "San Francisco, CA",
      Some("https://picsum.photos/100/100?random=10"), Some(98), Some(StartupStats(120000, 15))),
    Startup("s_2", "fnd_2", "GreenSynthetics", "Carbon-negative synthetic biology manufacturing platform.",
      "Biotech", Seed, 2000000, 12000000, "Boston, MA",
      Some("https://picsum.photos/100/100?random=11"), Some(85), Some(StartupStats(25000, 8))),
    Startup("s_3", "fnd_3", "QuantumLeap", "Quantum computing hardware for financial modeling.",
      "Deep Tech", SeriesB, 15000000, 80000000, "Toronto, ON",
      Some("https://picsum.photos/100/100?random=12"), Some(92), Some(StartupStats(450000, 5))),
    Startup("s_4", "fnd_4", "UrbanFarms", "Vertical farming solutions for dense urban centers.",
      "AgriTech", Seed, 1500000, 8000000, "New York, NY",
      Some("https://picsum.photos/100/100?random=13"), Some(74), Some(StartupStats(15000, 12)))]

  /**
   * The clock readings taken when the fixtures are built: each mock deal's
   * `updated_at`, and the `created_at` of each thread's last message (the
   * second one is read as "now minus one day"). They are opaque here.
   */
  datatype LoadClock = LoadClock(
    deal1: string, deal2: string, deal3: string, deal4: string,
    thread1: string, thread2: string)

  function MockDeals(clock: LoadClock): seq<Deal>
  {
    [ Deal("d_1", "inv_1", "s_1", MockStartups[0], Reviewing, true, None, clock.deal1),
      Deal("d_2", "inv_1", "s_2", MockStartups[1], Sourced, false, None, clock.deal2),
      Deal("d_3", "inv_1", "s_3", MockStartups[2], DueDiligence, true, None, clock.deal3),
      Deal("d_4", "inv_1", "s_4", MockStartups[3], Sourced, false, None, clock.deal4)]
  }

  const MockDocs: seq<Document> := [
    Document("doc_1", "s_1", "Pitch Deck Q3", Deck, "12 MB", "2023-10-15", Ready),
    Document("doc_2", "s_1", "Financial Model", Excel, "4.5 MB", "2023-10-16", Ready),
    Document("doc_3", "s_1", "Incorporation Docs", Legal, "2 MB", "2023-10-10", Processing)]

  function MockThreads(clock: LoadClock): seq<Thread>
  {
    [ Thread("t_1", [MockInvestor, MockFounder.(name := "Sarah Connor")],
        Some(Message("m_1", "t_1", "fnd_1", "Here is the updated deck you asked for.", clock.thread1, None)), 2),
      Thread("t_2", [MockInvestor, MockFounder.(name := "Tony Stark")],
        Some(Message("m_2", "t_2", "inv_1", "Lets schedule a call next Tuesday.", clock.thread2, None)), 0)]
  }

  const MockInvestorDirectory: seq<InvestorDirectoryItem> := [
      InvestorDirectoryItem("inv_dir_1", "[s\U{00C4}\U{00AB}c] Ventures", "https://www.sicstudio.org/ventures/ventures", "San Francisco, CA",
        ["Idea", "Prototype", "Early Revenue", "Growth"],
        "We invest in emerging markets startups.",
        "VC", "$10k - $200k", 95),
      InvestorDirectoryItem("inv_dir_2", "1 4 All Group", "https://1-4-all.group/", "Dubai, UAE",
        ["Early Revenue", "Scaling", "Growth"],
        "Financial, Consumer, Healthcare, Energy/Mining/Industrials, IT/Media, and Infrastructure sectors. Value investors seeking realistic valuations.",
        "Angel network", "$50k - $14M", 88),
      InvestorDirectoryItem("inv_dir_3", "01 Ventures", "https://www.01ventures.com/", "Amsterdam, NL",
        ["Prototype", "Early Revenue"],
        "We invest in deep tech innovations including software and hardware solutions to the world's biggest challenges.",
        "VC", "$250k - $2M", 91),
      InvestorDirectoryItem("inv_dir_4", "1Sharpe Ventures", "https://www.1sharpe.ventures/", "Oakland, CA",
        ["Prototype", "Early Revenue", "Idea/Patent"],
        "We invest in Fintech, Real Estate Tech, Proptech, Architecture, Engineering, Construction, Supply Chain, Logistics, Climate.",
        "VC", "$500k - $2M", 87),
      InvestorDirectoryItem("inv_dir_5", "1st Course Capital", "https://www.1cc.vc/", "Redwood City, CA",
        ["Prototype", "Early Revenue", "Scaling"],
        "We invest in business model and technology innovations across the food supply chain.",
        "VC", "$25k - $200k", 82),
      InvestorDirectoryItem("inv_dir_6", "2|Twelve", "https://212angels.com", "Tiburon, CA",
        ["Prototype", "Early Revenue"],
        "We invest in B2B, Enterprise, SaaS, B2B Fintech at seed stage.",
        "VC", "$100k - $300k", 89),
      InvestorDirectoryItem("inv_dir_7", "3CC Third Culture Capital", "https://3cc.io", "Boston, MA",
        ["Early Revenue", "Scaling", "Prototype", "Idea/Patent"],
        "We invest in diverse founders who innovate at the intersection of culture and healthcare delivery.",
        "VC", "$250k - $2M", 94),
      InvestorDirectoryItem("inv_dir_8", "3cubed VC", "https://3cubed.vc", "San Francisco, CA",
        ["Idea/Patent", "Prototype", "Early Revenue", "Growth"],
        "We invest in AI, Fintech, Blockchain Tech, Enterprise Software, Consumer Internet, Health Tech.",
        "VC", "$50k - $1M", 85),
      InvestorDirectoryItem("inv_dir_9", "3one4 Capital", "https://www.3one4capital.com", "Bengaluru, India",
        ["Prototype", "Early Revenue", "Scaling"],
        "We invest in SaaS, Enterprise & SMB Automation, Fintech, Consumer Internet, and Digital Health.",
        "VC", "$100k - $5M", 90),
      InvestorDirectoryItem("inv_dir_10", "3VC", "https://www.three.vc/", "Vienna, Austria",
        ["Early Revenue", "Scaling"],
        "We invest in AI, dev tools, deep tech, security, AR/VR, data analytics, digital health.",
        "VC", "$1M - $5M", 86),
      InvestorDirectoryItem("inv_dir_11", "4F Ventures", "https://4fventures.com/", "Orange County, CA",
        ["Prototype", "Early Revenue", "Scaling"],
        "We invest in traditionally overlooked founders building seed-stage eCommerce and FinTech companies.",
        "VC", "$50k - $250k", 93),
      InvestorDirectoryItem("inv_dir_12", "4impact", "https://www.4impact.vc/", "The Hague, Netherlands",
        ["Prototype", "Early Revenue"],
        "We invest in European software startups that achieve tangible positive impact in environment, health, or inclusion.",
        "VC", "$500k - $3M", 88),
      InvestorDirectoryItem("inv_dir_13", "7percent Ventures", "http://www.7percent.vc", "London, UK",
        ["Idea/Patent", "Prototype", "Early Revenue"],
        "We invest in frontier (i.e. deeptech) and transformative technologies.",
        "VC", "$100k - $2M", 91),
      InvestorDirectoryItem("inv_dir_14", "9Unicorns", "https://www.9unicorns.in/", "Mumbai, India",
        ["Early Revenue", "Scaling", "Prototype", "Idea/Patent"],
        "We invest in early stage startups across all sectors. The fund will operate uniquely as an accelerator.",
        "VC", "$100k - $2M", 84),
      InvestorDirectoryItem("inv_dir_15", "10D", "https://www.10d.vc/", "Tel Aviv, Israel",
        ["Idea/Patent", "Prototype", "Early Revenue"],
        "We invest in Israeli exceptional entrepreneurs, from early-stage to Seed and Series A rounds.",
        "VC", "$500k - $5M", 89),
      InvestorDirectoryItem("inv_dir_16", "10K Ventures", "https://www.10kventures.co/", "Berlin, Germany",
        ["Idea/Patent", "Prototype", "Early Revenue"],
        "We invest in early stage startups and funds globally.",
        "Family office", "$100k - $200k", 79),
      InvestorDirectoryItem("inv_dir_17", "10x Founders", "https://www.10xfounders.com/", "Munich, Germany",
        ["Idea/Patent", "Prototype", "Early Revenue"],
        "We invest in the most ambitious tech founders in pre/seed across Europe and the US.",
        "VC", "$100k - $3M", 92),
      InvestorDirectoryItem("inv_dir_18", "10X Venture Partners", "https://10xvp.com", "Manchester, NH",
        ["Prototype", "Early Revenue", "Scaling"],
        "We invest in SaaS, AI, Artificial Intelligence, CV, Computer Vision SportsTech, CyberSecurity.",
        "Angel network", "$20k - $200k", 81),
      InvestorDirectoryItem("inv_dir_19", "11 Tribes Ventures", "https://11tribes.vc/", "Chicago, IL",
        ["Prototype", "Early Revenue", "Scaling"],
        "We invest in purpose driven entrepreneurs that are creating category defining technologies.",
        "VC", "$100k - $300k", 87),
      InvestorDirectoryItem("inv_dir_20", "13o3", "https://13o3.com", "London, UK",
        ["Pre-IPO", "Growth", "Scaling", "Early Revenue"],
        "We invest in IoT, Blockchain, Real Estate, Media, B2B Saas, Clean Energy, Supply Chain and Logistics, Insure-tech, Fintech, and Web3.",
        "PE fund", "$200k - $1M", 75),
      InvestorDirectoryItem("inv_dir_21", "14Peaks Capital", "https://www.14peaks.capital/", "Zug, Switzerland",
        ["Prototype", "Early Revenue", "Scaling"],
        "We invest in B2B SaaS, Fintech, Future of Work. Stage: Pre-Seed, Seed and Series A.",
        "VC", "$300k - $1M", 90),
      InvestorDirectoryItem("inv_dir_22", "20 Ventures", "http://20v.it/", "Rome, Italy",
        ["Idea/Patent", "Prototype", "Early Revenue"],
        "We invest in disruptive ideas and talented people. We are a Venture Builder focused on pre-seed stage.",
        "Startup studio", "$60k - $120k", 83),
      InvestorDirectoryItem("inv_dir_23", "27V (Twenty Seven Ventures)", "https://twentyseven.ventures/", "Cayman Islands",
        ["Prototype", "Idea/Patent", "Early Revenue"],
        "We invest in global EdTech and Future of Work startups at the Pre-Seed/Seed stages.",
        "VC", "$25k - $250k", 86),
      InvestorDirectoryItem("inv_dir_24", "30N Ventures", "https://30n.vc", "Santiago, Chile",
        ["Early Revenue", "Scaling", "Growth"],
        "We invest in Fintech, Foodtech, and Retail transforming the landscape.",
        "VC", "$300k - $5M", 88),
      InvestorDirectoryItem("inv_dir_25", "35 North Ventures", "https://www.35northventures.com/", "Mumbai, India",
        ["Growth", "Pre-IPO"],
        "We invest in early growth-stage companies, Pre-Series A and above.",
        "VC", "$1M - $5M", 78),
      InvestorDirectoryItem("inv_dir_26", "42CAP", "https://www.42cap.com/", "Munich, Germany",
        ["Early Revenue", "Prototype"],
        "We invest in seed-stage tech- and data-driven B2B software companies across Europe.",
        "VC", "$500k - $2M", 93),
      InvestorDirectoryItem("inv_dir_27", "43North", "https://www.43north.org/", "Buffalo, NY",
        ["Early Revenue", "Scaling"],
        "We invest in startups that have a full-time founding team, are generating revenue, and have raised outside capital.",
        "Incubator, Accelerator", "$1M", 85),
      InvestorDirectoryItem("inv_dir_28", "44 Capital Management", "https://www.44.capital/", "New York, NY",
        ["Idea/Patent", "Prototype", "Early Revenue", "Scaling"],
        "We invest in companies at the intersection of Blockchain + real estate / emerging proptech.",
        "VC", "$50k - $500k", 80),
      InvestorDirectoryItem("inv_dir_29", "50 Partners Capital", "http://www.50partners.fr/", "Paris, France",
        ["Idea/Patent", "Prototype", "Early Revenue"],
        "We only invest in the companies accelerated by 50 Partners.",
        "Angel network", "$20k - $500k", 82),
      InvestorDirectoryItem("inv_dir_30", "500 Global", "https://500.co/", "San Francisco, CA",
        ["Idea/Patent", "Prototype", "Early Revenue", "Scaling", "Growth"],
        "We invest in companies in markets where technology, innovation, and capital can unlock long-term value.",
        "VC", "$150k - $2.5M", 97)]

  // ---------------------------------------------------------------------------
  // Consistency of the fixtures.

  /** Each mock deal points at the startup it embeds and belongs to the mock investor; none is passed. */
  lemma MockDealsConsistent(clock: LoadClock)
    ensures |MockDeals(clock)| == 4
    ensures forall d :: d in MockDeals(clock) ==>
      d.startupId == d.startup.id && d.investorId == MockInvestor.id && d.stage != Passed
  {
  }

  /** Every mock document belongs to startup `s_1`, the first mock startup. */
  lemma MockDocsBelongToFirstStartup()
    ensures forall doc :: doc in MockDocs ==> doc.startupId == "s_1" == MockStartups[0].id
  {
  }

  /** Each mock thread's last message belongs to it, and its first participant is the mock investor. */
  lemma MockThreadsConsistent(clock: LoadClock)
    ensures forall t :: t in MockThreads(clock) ==>
      t.lastMessage.Some? && t.lastMessage.value.threadId == t.id &&
      |t.participants| == 2 && t.participants[0] == MockInvestor
  {
  }

  /**
   * A numeric rank for the directory ids `inv_dir_1` .. `inv_dir_30`: by length,
   * then by the last two characters. Different ranks mean different ids.
   */
  function IdRank(id: string): int
  {
    if |id| < 2 then 0 else |id| * 100000 + (id[|id| - 2] as int) * 1000 + id[|id| - 1] as int
  }

  /** Ranks that increase from each entry to the next increase along the whole list. */
  lemma {:induction false} IncreasingRanks(items: seq<InvestorDirectoryItem>)
    requires forall k :: 0 <= k < |items| - 1 ==> IdRank(items[k].id) < IdRank(items[k + 1].id)
    ensures forall i, j :: 0 <= i < j < |items| ==> IdRank(items[i].id) < IdRank(items[j].id)
  {
    if |items| > 1 {
      var rest := items[1..];
      assert forall k :: 0 <= k < |rest| - 1 ==> IdRank(rest[k].id) < IdRank(rest[k + 1].id) by {
        forall k | 0 <= k < |rest| - 1 ensures IdRank(rest[k].id) < IdRank(rest[k + 1].id) {
          assert rest[k] == items[k + 1] && rest[k + 1] == items[k + 2];
        }
      }
      IncreasingRanks(rest);
      forall i, j | 0 <= i < j < |items| ensures IdRank(items[i].id) < IdRank(items[j].id) {
        if i == 0 {
          if j > 1 {
            assert rest[0] == items[1] && rest[j - 1] == items[j];
          }
        } else {
          assert rest[i - 1] == items[i] && rest[j - 1] == items[j];
        }
      }
    }
  }

  /** Each directory id ranks below the next one. */
  lemma MockInvestorDirectoryRanksStep()
    ensures |MockInvestorDirectory| == 30
    ensures forall k :: 0 <= k < |MockInvestorDirectory| - 1 ==>
      IdRank(MockInvestorDirectory[k].id) < IdRank(MockInvestorDirectory[k + 1].id)
  {
  }

  /** The directory has thirty entries, with pairwise distinct ids. */
  lemma MockInvestorDirectoryIdsDistinct()
    ensures |MockInvestorDirectory| == 30
    ensures forall i, j :: 0 <= i < j < |MockInvestorDirectory| ==>
      MockInvestorDirectory[i].id != MockInvestorDirectory[j].id
  {
    MockInvestorDirectoryRanksStep();
    IncreasingRanks(MockInvestorDirectory);
  }

  /** Every directory score lies between 0 and 100. */
  lemma MockInvestorDirectoryScoresInRange()
    ensures forall k :: 0 <= k < |MockInvestorDirectory| ==> 0 <= MockInvestorDirectory[k].matchScore <= 100
  {
  }
}
