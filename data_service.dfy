/**
 * The data layer (services/dataService.ts) and the rule that decides whether a
 * remote client exists (supabaseClient.ts).
 *
 * The remote store is a trust boundary: what a query answers is a parameter
 * (`Reply`). A fetch returns the remote rows only when a client exists and the
 * reply carries data and no error; otherwise it returns the fixed mock list.
 * The functions have no `try`: a remote call that throws makes the fetch reject.
 */
module DataService {
  import opened Types
  import opened Constants

  /** A configured connection to the hosted store. */
  datatype Client = Client(url: string, key: string)

  /** What one remote query gives back: the `{ data, error }` pair, or a thrown exception. */
  datatype Reply<T> = Reply(data: Option<seq<T>>, error: Option<string>) | Threw

  /** How an awaited data-layer call ends. */
  datatype Outcome<T> = Resolved(value: T) | Rejected

  /** `process.env.X || ''`: an unset variable reads as the empty string. */
  function EnvOrEmpty(v: Option<string>): (s: string)
    ensures s == "" <==> v.None? || v.value == ""
    ensures v.Some? ==> s == v.value
  {
    match v
    case Some(x) => x
    case None => ""
  }

  /** The client exists exactly when both the URL and the key are non-empty. */
  function CreateClient(urlVar: Option<string>, keyVar: Option<string>): (c: Option<Client>)
    ensures c.Some? <==> EnvOrEmpty(urlVar) != "" && EnvOrEmpty(keyVar) != ""
    ensures c.Some? ==> c.value == Client(urlVar.value, keyVar.value)
  {
    var url := EnvOrEmpty(urlVar);
    var key := EnvOrEmpty(keyVar);
    if url != "" && key != "" then Some(Client(url, key)) else None
  }

  /** `if (!error && data)`: the remote rows are used. */
  predicate UsesRemote<T>(client: Option<Client>, reply: Reply<T>)
  {
    client.Some? && reply.Reply? && reply.error.None? && reply.data.Some?
  }

  /** The shared shape of every fetch: remote rows when usable, else the fallback. */
  function FetchOrFallback<T>(client: Option<Client>, reply: Reply<T>, fallback: seq<T>): (r: Outcome<seq<T>>)
    ensures r.Rejected? <==> client.Some? && reply.Threw?
    ensures UsesRemote(client, reply) ==> r == Resolved(reply.data.value)
    ensures r.Resolved? && !UsesRemote(client, reply) ==> r == Resolved(fallback)
  {
    if client.Some? then
      match reply
      case Threw => Rejected
      case Reply(data, error) =>
        if error.None? && data.Some? then Resolved(data.value) else Resolved(fallback)
    else
      Resolved(fallback)
  }

  /** `getDeals`: the pipeline rows joined with their startups, or `MOCK_DEALS`. */
  function GetDeals(client: Option<Client>, reply: Reply<Deal>, clock: LoadClock): (r: Outcome<seq<Deal>>)
    ensures UsesRemote(client, reply) ==> r == Resolved(reply.data.value)
    ensures client.None? || (reply.Reply? && !UsesRemote(client, reply)) ==> r == Resolved(MockDeals(clock))
    ensures client.Some? && reply.Threw? ==> r == Rejected
  {
    FetchOrFallback(client, reply, MockDeals(clock))
  }

  /** `getStartups`: the startup rows, or `MOCK_STARTUPS`. */
  function GetStartups(client: Option<Client>, reply: Reply<Startup>): (r: Outcome<seq<Startup>>)
    ensures UsesRemote(client, reply) ==> r == Resolved(reply.data.value)
    ensures client.None? || (reply.Reply? && !UsesRemote(client, reply)) ==> r == Resolved(MockStartups)
    ensures client.Some? && reply.Threw? ==> r == Rejected
  {
    FetchOrFallback(client, reply, MockStartups)
  }

  /**
   * `getDocuments(startupId)`: the remote rows for that startup (`reply` is what
   * the store answered to that filtered query), or all of `MOCK_DOCS`.
   */
  function GetDocuments(client: Option<Client>, startupId: string, reply: Reply<Document>): (r: Outcome<seq<Document>>)
    ensures UsesRemote(client, reply) ==> r == Resolved(reply.data.value)
    ensures client.None? || (reply.Reply? && !UsesRemote(client, reply)) ==> r == Resolved(MockDocs)
    ensures client.Some? && reply.Threw? ==> r == Rejected
  {
    FetchOrFallback(client, reply, MockDocs)
  }

  /** Without a client the reply is never looked at: a fetch returns the fallback. */
  lemma NoClientIgnoresReply<T>(r1: Reply<T>, r2: Reply<T>, fallback: seq<T>)
    ensures FetchOrFallback(None, r1, fallback) == FetchOrFallback(None, r2, fallback) == Resolved(fallback)
  {
  }

  /** A missing client, an error and missing data all give the same answer: the fallback is error-path invariant. */
  lemma FallbackIsErrorPathInvariant<T>(c1: Option<Client>, r1: Reply<T>, c2: Option<Client>, r2: Reply<T>, fallback: seq<T>)
    requires !UsesRemote(c1, r1) && !(c1.Some? && r1.Threw?)
    requires !UsesRemote(c2, r2) && !(c2.Some? && r2.Threw?)
    ensures FetchOrFallback(c1, r1, fallback) == FetchOrFallback(c2, r2, fallback)
  {
  }

  /** An empty remote answer is returned as it is: `[]` is truthy, so it is not replaced by mock data. */
  lemma EmptyRemoteAnswerIsKept(c: Client, clock: LoadClock)
    ensures GetDeals(Some(c), Reply(Some([]), None), clock) == Resolved([])
    ensures GetDeals(Some(c), Reply(Some([]), None), clock) != Resolved(MockDeals(clock))
  {
    MockDealsConsistent(clock);
  }

  /** The fallback for documents does not filter by `startupId`. */
  lemma DocumentsFallbackIgnoresStartup(client: Option<Client>, reply: Reply<Document>, id1: string, id2: string)
    requires !UsesRemote(client, reply) && !(client.Some? && reply.Threw?)
    ensures GetDocuments(client, id1, reply) == GetDocuments(client, id2, reply) == Resolved(MockDocs)
  {
  }

  /** The update `toggleShortlist` sends: `{ is_shortlisted: !currentState }` for one id. */
  datatype ShortlistWrite = ShortlistWrite(dealId: string, isShortlisted: bool)

  /**
   * `toggleShortlist(dealId, currentState)`: the write sent to the store, if any.
   * Without a client only a log line is written. The store's answer to the
   * update is never inspected, so it is not a parameter.
   */
  function ToggleShortlist(client: Option<Client>, dealId: string, currentState: bool): (w: Option<ShortlistWrite>)
    ensures w.Some? <==> client.Some?
    ensures w.Some? ==> w.value.dealId == dealId && w.value.isShortlisted != currentState
  {
    if client.Some? then Some(ShortlistWrite(dealId, !currentState)) else None
  }

  /** `Partial<Document>`: every field may be missing. */
  datatype DocumentDraft = DocumentDraft(
    id: Option<string>,
    startupId: Option<string>,
    name: Option<string>,
    docType: Option<DocType>,
    size: Option<string>,
    uploadedAt: Option<string>,
    status: Option<DocStatus>)

  /** `x || fallback` on an optional string: missing and empty both take the fallback. */
  function OrElse(x: Option<string>, fallback: string): (s: string)
    ensures x.Some? && x.value != "" ==> s == x.value
    ensures x.None? || x.value == "" ==> s == fallback
  {
    if x.Some? && x.value != "" then x.value else fallback
  }

  /**
   * `uploadDocument(doc)`: builds the stored record locally without contacting
   * the store. `randomId` stands for `Math.random().toString(36)` and `now` for
   * the upload time.
   */
  function UploadDocument(draft: DocumentDraft, randomId: string, now: string): (d: Document)
    ensures d.id == randomId && d.uploadedAt == now && d.status == Ready
    ensures d.startupId == (if draft.startupId.Some? then draft.startupId.value else "")
    ensures d.name == (if draft.name.Some? && draft.name.value != "" then draft.name.value else "Untitled")
    ensures d.docType == (if draft.docType.Some? then draft.docType.value else Pdf)
    ensures d.size == (if draft.size.Some? && draft.size.value != "" then draft.size.value else "1 MB")
  {
    Document(
      randomId,
      OrElse(draft.startupId, ""),
      OrElse(draft.name, "Untitled"),
      match draft.docType case Some(t) => t case None => Pdf,
      OrElse(draft.size, "1 MB"),
      now,
      Ready)
  }

  /** The draft's own id, upload time and status never reach the stored record. */
  lemma UploadIgnoresDraftBookkeeping(draft: DocumentDraft, randomId: string, now: string)
    ensures UploadDocument(draft, randomId, now)
         == UploadDocument(draft.(id := None, uploadedAt := None, status := None), randomId, now)
  {
  }

  /** `getThreads`: takes no client and no user into account and always answers `MOCK_THREADS`. */
  function GetThreads(client: Option<Client>, userId: string, clock: LoadClock): (r: seq<Thread>)
    ensures |r| == 2 && r[0].id == "t_1" && r[1].id == "t_2"
  {
    MockThreads(clock)
  }

  lemma ThreadsIgnoreClientAndUser(c1: Option<Client>, u1: string, c2: Option<Client>, u2: string, clock: LoadClock)
    ensures GetThreads(c1, u1, clock) == GetThreads(c2, u2, clock) == MockThreads(clock)
  {
  }
}
