/**
 * The study planner (frontend/src/pages/StudyPlanner.js): documents are
 * uploaded and selected, the selected ones are listed, and a plan of the
 * chosen number of days is requested for them.
 */
module StudyPlanner {
  import opened Wrappers
  import opened Text
  import opened Lists
  import opened Selection
  import opened Uploads
  import opened ChatApi

  /** The durations the select offers, in days. */
  const DurationOptions: seq<nat> := [3, 5, 7, 14, 30]

  const DefaultDuration: nat := 7

  /** The request text: `Create a {duration} day study plan`. */
  function PlanPrompt(duration: nat): string {
    "Create a " + NatToString(duration) + " day study plan"
  }

  /** Different durations give different request texts. */
  lemma {:induction false} PlanPromptFixesDuration(a: nat, b: nat)
    requires PlanPrompt(a) == PlanPrompt(b)
    ensures a == b
  {
    var na, nb := NatToString(a), NatToString(b);
    var head, tail := "Create a ", " day study plan";
    assert PlanPrompt(a) == head + na + tail && PlanPrompt(b) == head + nb + tail;
    assert na == PlanPrompt(a)[|head|..|head| + |na|];
    assert nb == PlanPrompt(b)[|head|..|head| + |nb|];
    ParseNatToString(a);
    ParseNatToString(b);
  }

  /** `documents.filter(doc => selectedDocs.includes(doc._id))`: the selected-documents panel. */
  function SelectedDocuments(documents: seq<Document>, selected: seq<Id>): (r: seq<Document>)
    ensures |r| <= |documents|
    ensures forall i :: 0 <= i < |r| ==> r[i].id in selected
  {
    Filter(documents, (d: Document) => d.id in selected)
  }

  /** The panel lists, in library order, exactly the library documents whose id is selected. */
  lemma SelectedDocumentsSelection(documents: seq<Document>, selected: seq<Id>, d: Document)
    ensures IsSubsequence(SelectedDocuments(documents, selected), documents)
    ensures d in SelectedDocuments(documents, selected) <==> d in documents && d.id in selected
  {
    FilterIsSubsequence(documents, (d': Document) => d'.id in selected);
    FilterMembership(documents, (d': Document) => d'.id in selected, d);
  }

  /** Toggling an id adds or removes its documents from the panel and leaves the others as they were. */
  lemma ToggledPanel(documents: seq<Document>, selected: seq<Id>, id: Id, d: Document)
    requires d in documents
    ensures d.id == id ==> (d in SelectedDocuments(documents, Toggle(selected, id)) <==> id !in selected)
    ensures d.id != id ==> (d in SelectedDocuments(documents, Toggle(selected, id)) <==> d in SelectedDocuments(documents, selected))
  {
    SelectedDocumentsSelection(documents, Toggle(selected, id), d);
    SelectedDocumentsSelection(documents, selected, d);
  }

  /** After a run of uploads every document it added is in the panel. */
  lemma {:induction false} UploadedArePanelled(documents: seq<Document>, selected: seq<Id>, added: seq<Document>, d: Document)
    requires d in added
    ensures d in SelectedDocuments(documents + added, selected + Ids(added))
  {
    var i :| 0 <= i < |added| && added[i] == d;
    assert Ids(added)[i] == d.id;
    assert (selected + Ids(added))[|selected| + i] == d.id;
    SelectedDocumentsSelection(documents + added, selected + Ids(added), d);
  }

  class StudyPlannerPage {
    var documents: seq<Document>
    var selectedDocs: seq<Id>
    var studyPlan: Option<StudyPlan>
    var loading: bool
    var uploading: bool
    var duration: nat

    /** The duration is always one the select offers. */
    predicate Valid()
      reads this
    {
      duration in DurationOptions
    }

    constructor ()
      ensures Valid()
      ensures documents == [] && selectedDocs == [] && studyPlan == None
      ensures !loading && !uploading && duration == DefaultDuration
    {
      documents, selectedDocs, studyPlan := [], [], None;
      loading, uploading, duration := false, false, DefaultDuration;
    }

    /** Choosing option `k` of the duration select. */
    method SetDuration(k: nat)
      requires k < |DurationOptions|
      modifies this`duration
      ensures Valid()
      ensures duration == DurationOptions[k]
    {
      duration := DurationOptions[k];
    }

    /** `toggleDocument(docId)` */
    method ToggleDocument(id: Id)
      requires Valid()
      modifies this`selectedDocs
      ensures Valid()
      ensures selectedDocs == Toggle(old(selectedDocs), id)
    {
      selectedDocs := Toggle(selectedDocs, id);
    }

    /** `onDrop`: every accepted upload appends its document and selects it. */
    method OnDrop(files: seq<File>, results: seq<Outcome<Receipt>>)
      requires Valid() && |files| == |results|
      modifies this`documents, this`selectedDocs, this`uploading
      ensures Valid()
      ensures documents == old(documents) + AddedAll(files, results)
      ensures selectedDocs == old(selectedDocs) + Ids(AddedAll(files, results))
      ensures !uploading
    {
      uploading := true;
      documents, selectedDocs := UploadAll(documents, selectedDocs, files, results);
      uploading := false;
    }

    /**
     * `generateStudyPlan`: with nothing selected no request is made and
     * nothing changes. Otherwise a session is opened, the plan request for the
     * selection is sent on it, the plan is replaced only when the reply
     * carries one, and `loading` ends false.
     */
    method GenerateStudyPlan(session: Outcome<string>, response: Outcome<Reply>) returns (request: Option<MessageRequest>)
      requires Valid()
      modifies this`studyPlan, this`loading
      ensures Valid()
      ensures request.Some? ==> duration in DurationOptions
      ensures selectedDocs == [] ==> request.None? && studyPlan == old(studyPlan) && loading == old(loading)
      ensures selectedDocs != [] ==> !loading
      ensures request.Some? <==> selectedDocs != [] && session.Resolved?
      ensures request.Some? ==>
                request.value == MessageRequest(session.value, PlanPrompt(duration), selectedDocs, "study-plan")
      ensures studyPlan == (if request.Some? && response.Resolved? && response.value.studyPlan.Some?
                            then response.value.studyPlan else old(studyPlan))
    {
      if selectedDocs == [] {
        return None;
      }
      loading := true;
      request := None;
      if session.Resolved? {
        request := Some(MessageRequest(session.value, PlanPrompt(duration), selectedDocs, "study-plan"));
        if response.Resolved? && response.value.studyPlan.Some? {
          studyPlan := response.value.studyPlan;
        }
      }
      loading := false;
    }
  }
}
