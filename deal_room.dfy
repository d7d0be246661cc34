/**
 * The founder's data room (pages/founder/DealRoom.tsx): the documents of the
 * founder's startup and the simulated upload, which marks the page as
 * uploading, prepends the stored document when the data layer answers, and
 * always clears the flag afterwards.
 *
 * The upload is asynchronous, so it is two steps here: `BeginUpload` runs up
 * to the awaited call and `FinishUpload` runs once it has settled.
 */
module DealRoom {
  import opened Types
  import opened Constants
  import DataService

  /** `currentStartupId`: always the first mock startup. */
  function CurrentStartupId(): (id: string)
    ensures id == MockStartups[0].id == "s_1"
  {
    MockStartups[0].id
  }

  /** The partial document the page asks the data layer to store. */
  function UploadRequest(): (d: DataService.DocumentDraft)
    ensures d.startupId == Some(CurrentStartupId())
    ensures d.name == Some("New Due Diligence Item") && d.docType == Some(Pdf) && d.size == Some("3.2 MB")
    ensures d.id.None? && d.uploadedAt.None? && d.status.None?
  {
    DataService.DocumentDraft(None, Some(CurrentStartupId()), Some("New Due Diligence Item"), Some(Pdf),
      Some("3.2 MB"), None, None)
  }

  /** What the data layer stores for the page's request: every field the page set survives, and it is ready. */
  lemma UploadedDocumentKeepsRequest(randomId: string, now: string)
    ensures DataService.UploadDocument(UploadRequest(), randomId, now)
         == Document(randomId, "s_1", "New Due Diligence Item", Pdf, "3.2 MB", now, Ready)
  {
    assert "New Due Diligence Item" != "" && "3.2 MB" != "" && "s_1" != "";
  }

  datatype Tab = Docs | Checklist

  /** The page's state. */
  class DealRoomView {
    var activeTab: Tab
    var docs: seq<Document>
    var uploading: bool

    constructor ()
      ensures activeTab == Docs && docs == [] && !uploading
    {
      activeTab := Docs;
      docs := [];
      uploading := false;
    }

    /** `getDocuments(currentStartupId).then(setDocs)`: a resolved fetch replaces the list; a rejected one leaves it. */
    method DocumentsLoaded(outcome: DataService.Outcome<seq<Document>>)
      modifies this
      ensures outcome.Resolved? ==> docs == outcome.value
      ensures outcome.Rejected? ==> docs == old(docs)
      ensures activeTab == old(activeTab) && uploading == old(uploading)
    {
      if outcome.Resolved? {
        docs := outcome.value;
      }
    }

    /** The tab buttons. */
    method SetTab(t: Tab)
      modifies this
      ensures activeTab == t && docs == old(docs) && uploading == old(uploading)
    {
      activeTab := t;
    }

    /** The header's "Upload File" button is enabled exactly when no upload is running. */
    predicate UploadButtonEnabled()
      reads this
    {
      activeTab == Docs && !uploading
    }

    /**
     * An upload can be started from the documents tab: from the header button
     * when none is running, or from the empty list's "Upload First Document"
     * button, which is never disabled.
     */
    predicate CanStartUpload()
      reads this
    {
      activeTab == Docs && (!uploading || docs == [])
    }

    /** `handleSimulateUpload` up to the awaited call: the page is uploading and the request is sent. */
    method BeginUpload() returns (request: DataService.DocumentDraft)
      requires CanStartUpload()
      modifies this
      ensures uploading && request == UploadRequest()
      ensures !UploadButtonEnabled()
      ensures docs == old(docs) && activeTab == old(activeTab)
    {
      uploading := true;
      request := UploadRequest();
    }

    /**
     * The rest of `handleSimulateUpload`: on success the stored document is put
     * in front of the list, which is otherwise unchanged; on failure the list is
     * kept; either way the page is no longer uploading.
     */
    method FinishUpload(outcome: DataService.Outcome<Document>)
      modifies this
      ensures outcome.Resolved? ==> docs == [outcome.value] + old(docs)
      ensures outcome.Rejected? ==> docs == old(docs)
      ensures |docs| == |old(docs)| + (if outcome.Resolved? then 1 else 0)
      ensures docs[|docs| - |old(docs)|..] == old(docs)
      ensures !uploading && activeTab == old(activeTab)
      ensures activeTab == Docs ==> UploadButtonEnabled()
    {
      if outcome.Resolved? {
        docs := [outcome.value] + docs;
      }
      uploading := false;
    }

    /**
     * A whole upload against the data layer, which always answers: the new
     * document is ready, carries the requested fields, and heads the list.
     */
    method SimulateUpload(randomId: string, now: string)
      requires CanStartUpload()
      modifies this
      ensures docs == [Document(randomId, "s_1", "New Due Diligence Item", Pdf, "3.2 MB", now, Ready)] + old(docs)
      ensures !uploading && activeTab == old(activeTab)
    {
      var request := BeginUpload();
      UploadedDocumentKeepsRequest(randomId, now);
      FinishUpload(DataService.Resolved(DataService.UploadDocument(request, randomId, now)));
    }

    /**
     * With no documents, a second upload can start while the first runs. The
     * first to finish clears the flag although the other is still pending, and
     * each finished upload puts its document in front.
     */
    method OverlappingUploads(first: Document, second: Document)
      requires activeTab == Docs && docs == [] && !uploading
      modifies this
      ensures docs == [second, first] && !uploading
    {
      var _ := BeginUpload();
      var _ := BeginUpload();
      FinishUpload(DataService.Resolved(first));
      assert !uploading && UploadButtonEnabled();
      FinishUpload(DataService.Resolved(second));
    }
  }
}
