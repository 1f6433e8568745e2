/**
 * The search / create / edit workflow of frontend/src/pages/OshiGroupPage.tsx.
 *
 * The page's `useState` cells are the fields of `Page`; each handler is a
 * method that runs to completion (an awaited request is replaced by its
 * outcome, passed in as an argument). The `sent` field records the requests
 * the page has issued, so that "no request" and "exactly this request" can be stated.
 */
module OshiGroupPage {
  import opened Wrappers
  import opened ApiTypes
  import opened ApiClient
  import opened OshiGroupApi
  import opened Validation

  datatype SearchType = GroupNameSearch | CompanySearch

  /** What an error banner shows: nothing, a fixed message, or an `ApiError`. */
  datatype Banner = NoBanner | Text(text: string) | Failed(error: ApiError)

  const NeitherModeMessage := "全文一致かあいまい検索のどちらかを選択してください"
  const BothModesMessage := "全文一致とあいまい検索は同時に選択できません"
  const SearchFailedMessage := "検索に失敗しました"
  const SaveFailedMessage := "保存に失敗しました"
  const CheckInputMessage := "入力内容を確認してください"

  /** The form of a new group: three empty strings. */
  const EmptyForm := GroupForm("", Some(""), Some(""))

  datatype Criteria = Criteria(searchType: SearchType, full: bool, fuzzy: bool, query: string)

  /** The result list (None: `undefined`) and the search banner. */
  datatype SearchView = SearchView(groups: Option<seq<OshiGroupResponse>>, error: Banner)

  /** A failed call's banner: the `ApiError` itself, or the fixed message for anything else. */
  function FailureBanner(failure: Failure, otherwise: string): (b: Banner)
    ensures failure.ApiFailure? ==> b == Failed(failure.error)
    ensures failure.OtherFailure? ==> b == Text(otherwise)
  {
    match failure
    case ApiFailure(e) => Failed(e)
    case OtherFailure => Text(otherwise)
  }

  // ---------------------------------------------------------------- search

  /** The request a search with these criteria issues; None when the mode check stops it. */
  function SearchCall(c: Criteria): (call: Option<ApiCall>)
    ensures call.None? <==> c.searchType == GroupNameSearch && c.full == c.fuzzy
    // a company search ignores the full/fuzzy flags
    ensures c.searchType == CompanySearch ==> call == Some(ListOshiGroupsByCompany(c.query))
    ensures c.searchType == GroupNameSearch && c.full != c.fuzzy ==>
      call == Some(ListOshiGroupsByGroupName(c.full, c.fuzzy, c.query))
  {
    match c.searchType
    case CompanySearch => Some(ListOshiGroupsByCompany(c.query))
    case GroupNameSearch =>
      if !c.full && !c.fuzzy then None
      else if c.full && c.fuzzy then None
      else Some(ListOshiGroupsByGroupName(c.full, c.fuzzy, c.query))
  }

  function CallsOf(call: Option<ApiCall>): seq<ApiCall> {
    match call
    case None => []
    case Some(c) => [c]
  }

  /** The message of the mode check: one for neither flag, another for both. */
  function ModeMessage(full: bool): string {
    if full then BothModesMessage else NeitherModeMessage
  }

  /** The list and banner a search leaves behind. */
  function SearchResult(c: Criteria, outcome: Outcome<seq<OshiGroupResponse>>): (r: SearchView)
    // stopped by the mode check: empty list and the check's message
    ensures SearchCall(c).None? ==> r == SearchView(Some([]), Text(ModeMessage(c.full)))
    // answered: the response replaces the list, nothing merged, no banner
    ensures SearchCall(c).Some? && outcome.Resolved? ==> r == SearchView(outcome.value, NoBanner)
    // failed: empty list and the failure's banner
    ensures SearchCall(c).Some? && outcome.Rejected? ==>
      r == SearchView(Some([]), FailureBanner(outcome.failure, SearchFailedMessage))
  {
    if SearchCall(c).None? then SearchView(Some([]), Text(ModeMessage(c.full)))
    else match outcome
      case Resolved(list) => SearchView(list, NoBanner)
      case Rejected(failure) => SearchView(Some([]), FailureBanner(failure, SearchFailedMessage))
  }

  /**
   * The handler's own mode check accepts exactly what searchModeSchema accepts;
   * for "neither" it reports the schema's message, for "both" a message of its own.
   */
  lemma SearchCheckMatchesSchema(full: bool, fuzzy: bool, query: string)
    ensures SearchCall(Criteria(GroupNameSearch, full, fuzzy, query)).Some? <==> SearchModeSchema(SearchMode(full, fuzzy)).Valid?
    ensures !full && !fuzzy ==> SearchModeSchema(SearchMode(full, fuzzy)).formErrors == [ModeMessage(full)]
    ensures full && fuzzy ==> SearchModeSchema(SearchMode(full, fuzzy)).formErrors != [ModeMessage(full)]
  {
  }

  // ---------------------------------------------------------------- save

  /** `value || undefined`: an empty or absent optional field is not sent. */
  function EmptyToAbsent(v: Option<string>): (r: Option<string>)
    ensures r == None <==> v == None || v == Some("")
    ensures r.Some? ==> r == v
  {
    match v
    case Some(s) => if s == "" then None else v
    case None => None
  }

  /** The name, company and description a payload carries. */
  function PayloadFields(p: Payload): (string, Option<string>, Option<string>) {
    match p
    case CreatePayload(r) => (r.groupName, r.company, r.description)
    case UpdatePayload(r) => (r.groupName, r.company, r.description)
  }

  /** The request a valid submit issues: an update of the group being edited, or a create. */
  function SaveCall(editing: Option<OshiGroupResponse>, data: GroupForm): (c: ApiCall)
    ensures c.path == if editing.Some? then UpdatePath else CreatePath
    ensures c.options.httpMethod == Some("POST") && c.options.json.Some?
    ensures c.options.json.value.UpdatePayload? <==> editing.Some?
    ensures editing.Some? ==> c.options.json.value.update.groupId == editing.value.id
    ensures PayloadFields(c.options.json.value) ==
      (data.groupName, EmptyToAbsent(data.company), EmptyToAbsent(data.description))
  {
    match editing
    case Some(g) =>
      UpdateOshiGroup(UpdateOshiGroupRequest(g.id, data.groupName, EmptyToAbsent(data.company), EmptyToAbsent(data.description)))
    case None =>
      CreateOshiGroup(CreateOshiGroupRequest(data.groupName, EmptyToAbsent(data.company), EmptyToAbsent(data.description)))
  }

  /** The form `openEditModal` fills in from a group: null fields become empty strings. */
  function EditForm(g: OshiGroupResponse): (f: GroupForm)
    ensures f.groupName == g.groupName
    // a stored value is copied, a null one becomes the empty string
    ensures g.company.Some? ==> f.company == g.company
    ensures g.company.None? ==> f.company == Some("")
    ensures g.description.Some? ==> f.description == g.description
    ensures g.description.None? ==> f.description == Some("")
  {
    GroupForm(g.groupName, Some(g.company.GetOr("")), Some(g.description.GetOr("")))
  }

  /**
   * Opening a stored group for editing and saving it unchanged passes
   * validation (when the group satisfies the backend's own rules) and sends
   * the group's own values back, keyed by its id.
   */
  lemma {:induction false} UnchangedEditSendsGroupBack(g: OshiGroupResponse)
    requires g.groupName != ""
    requires g.description.Some? ==> |g.description.value| <= 1000
    ensures GroupFormSchema(EditForm(g)) == Valid(EditForm(g))
    ensures SaveCall(Some(g), EditForm(g)).options.json ==
      Some(UpdatePayload(UpdateOshiGroupRequest(g.id, g.groupName, EmptyToAbsent(g.company), EmptyToAbsent(g.description))))
  {
    var f := EditForm(g);
    assert EmptyToAbsent(f.company) == EmptyToAbsent(g.company);
    assert EmptyToAbsent(f.description) == EmptyToAbsent(g.description);
  }

  /** Keeps a field's message only when it has a non-empty first one (`messages && messages[0]`). */
  predicate HasFirstMessage(messages: seq<string>) {
    |messages| > 0 && messages[0] != ""
  }

  /** The `forEach` of `handleModalSubmit`: each field with errors maps to its first message. */
  method FirstFieldMessages(fieldErrors: map<string, seq<string>>) returns (fieldMap: map<string, string>)
    ensures forall key :: key in fieldMap <==> key in fieldErrors && HasFirstMessage(fieldErrors[key])
    ensures forall key :: key in fieldMap ==>
      key in fieldErrors && HasFirstMessage(fieldErrors[key]) && fieldMap[key] == fieldErrors[key][0]
  {
    fieldMap := map[];
    var pending := fieldErrors.Keys;
    while pending != {}
      invariant pending <= fieldErrors.Keys
      invariant forall key :: key in fieldMap <==> key in fieldErrors && key !in pending && HasFirstMessage(fieldErrors[key])
      invariant forall key :: key in fieldMap ==>
        key in fieldErrors && HasFirstMessage(fieldErrors[key]) && fieldMap[key] == fieldErrors[key][0]
      decreases pending
    {
      var key :| key in pending;
      var messages := fieldErrors[key];
      if |messages| > 0 && messages[0] != "" {
        fieldMap := fieldMap[key := messages[0]];
      }
      pending := pending - {key};
    }
  }

  /** The banner of a rejected form: its first form-level message, else the generic prompt (`??`). */
  function RejectionBanner(formErrors: seq<string>): (b: Banner)
    ensures b == Text(if formErrors == [] then CheckInputMessage else formErrors[0])
  {
    if |formErrors| > 0 then Text(formErrors[0]) else Text(CheckInputMessage)
  }

  // ---------------------------------------------------------------- the page

  /**
   * The page. Every handler names in `modifies` the cells it may assign, so
   * all other cells keep their values.
   */
  class Page {
    var searchType: SearchType
    var searchFull: bool
    var searchFuzzy: bool
    var searchQuery: string
    var groups: Option<seq<OshiGroupResponse>>
    var loading: bool
    var error: Banner
    var modalOpen: bool
    var editingGroup: Option<OshiGroupResponse>
    var formValues: GroupForm
    var formErrors: map<string, string>
    var submitError: Banner
    var submitting: bool
    /** The requests issued so far, oldest first. */
    var sent: seq<ApiCall>

    function CurrentCriteria(): Criteria
      reads this
    {
      Criteria(searchType, searchFull, searchFuzzy, searchQuery)
    }

    /** Exactly one of the two search-mode radios is checked. */
    predicate ModeExclusive()
      reads this
    {
      searchFull != searchFuzzy
    }

    constructor ()
      ensures searchType == GroupNameSearch && searchFull && !searchFuzzy && searchQuery == ""
      ensures groups == Some([]) && !loading && error == NoBanner
      ensures !modalOpen && editingGroup == None && formValues == EmptyForm
      ensures formErrors == map[] && submitError == NoBanner && !submitting
      ensures sent == []
      ensures ModeExclusive()
    {
      searchType, searchFull, searchFuzzy, searchQuery := GroupNameSearch, true, false, "";
      groups, loading, error := Some([]), false, NoBanner;
      modalOpen, editingGroup, formValues := false, None, EmptyForm;
      formErrors, submitError, submitting := map[], NoBanner, false;
      sent := [];
    }

    // search form

    method SelectGroupNameSearch()
      modifies this`searchType
      ensures searchType == GroupNameSearch
    {
      searchType := GroupNameSearch;
    }

    method SelectCompanySearch()
      modifies this`searchType
      ensures searchType == CompanySearch
    {
      searchType := CompanySearch;
    }

    /** The "full match" radio. */
    method SelectFull()
      modifies this`searchFull, this`searchFuzzy
      ensures searchFull && !searchFuzzy
      ensures ModeExclusive()
    {
      searchFull := true;
      searchFuzzy := false;
    }

    /** The "fuzzy" radio. */
    method SelectFuzzy()
      modifies this`searchFull, this`searchFuzzy
      ensures !searchFull && searchFuzzy
      ensures ModeExclusive()
    {
      searchFuzzy := true;
      searchFull := false;
    }

    method SetSearchQuery(query: string)
      modifies this`searchQuery
      ensures searchQuery == query
    {
      searchQuery := query;
    }

    method DismissError()
      modifies this`error
      ensures error == NoBanner
    {
      error := NoBanner;
    }

    /** `runSearch`: at most one request, and the list is replaced, never merged. */
    method RunSearch(outcome: Outcome<seq<OshiGroupResponse>>)
      modifies this`groups, this`error, this`loading, this`sent
      ensures var view := SearchResult(CurrentCriteria(), outcome);
        groups == view.groups && error == view.error
      ensures sent == old(sent) + CallsOf(SearchCall(CurrentCriteria()))
      ensures !loading
    {
      error := NoBanner;
      loading := true;
      if searchType == CompanySearch {
        sent := sent + [ListOshiGroupsByCompany(searchQuery)];
        ApplySearchOutcome(outcome);
      } else if !searchFull && !searchFuzzy {
        error := Text(NeitherModeMessage);
        groups := Some([]);
      } else if searchFull && searchFuzzy {
        error := Text(BothModesMessage);
        groups := Some([]);
      } else {
        sent := sent + [ListOshiGroupsByGroupName(searchFull, searchFuzzy, searchQuery)];
        ApplySearchOutcome(outcome);
      }
      loading := false;
    }

    /** The `try`/`catch` of `runSearch` once a request was issued. */
    method ApplySearchOutcome(outcome: Outcome<seq<OshiGroupResponse>>)
      modifies this`groups, this`error
      ensures outcome.Resolved? ==> groups == outcome.value && error == old(error)
      ensures outcome.Rejected? ==>
        groups == Some([]) && error == FailureBanner(outcome.failure, SearchFailedMessage)
    {
      match outcome
      case Resolved(list) =>
        groups := list;
      case Rejected(failure) =>
        error := FailureBanner(failure, SearchFailedMessage);
        groups := Some([]);
    }

    /** Submitting the search form; its button is disabled while a search is loading. */
    method HandleSearch(outcome: Outcome<seq<OshiGroupResponse>>)
      requires !loading
      modifies this`groups, this`error, this`loading, this`sent
      ensures var view := SearchResult(CurrentCriteria(), outcome);
        groups == view.groups && error == view.error
      ensures sent == old(sent) + CallsOf(SearchCall(CurrentCriteria()))
      ensures !loading
    {
      RunSearch(outcome);
    }

    // modal

    method OpenCreateModal()
      modifies this`editingGroup, this`formValues, this`formErrors, this`submitError, this`modalOpen
      ensures editingGroup == None && formValues == EmptyForm
      ensures formErrors == map[] && submitError == NoBanner && modalOpen
    {
      editingGroup := None;
      formValues := EmptyForm;
      formErrors := map[];
      submitError := NoBanner;
      modalOpen := true;
    }

    method OpenEditModal(group: OshiGroupResponse)
      modifies this`editingGroup, this`formValues, this`formErrors, this`submitError, this`modalOpen
      ensures editingGroup == Some(group) && formValues == EditForm(group)
      ensures formErrors == map[] && submitError == NoBanner && modalOpen
    {
      editingGroup := Some(group);
      formValues := GroupForm(group.groupName, Some(group.company.GetOr("")), Some(group.description.GetOr("")));
      formErrors := map[];
      submitError := NoBanner;
      modalOpen := true;
    }

    /** Closing keeps the form values and field errors; only the modal, its target and its banner reset. */
    method CloseModal()
      modifies this`modalOpen, this`editingGroup, this`submitError
      ensures !modalOpen && editingGroup == None && submitError == NoBanner
    {
      modalOpen := false;
      editingGroup := None;
      submitError := NoBanner;
    }

    method EditGroupName(value: string)
      modifies this`formValues
      ensures formValues == old(formValues).(groupName := value)
    {
      formValues := formValues.(groupName := value);
    }

    method EditCompany(value: string)
      modifies this`formValues
      ensures formValues == old(formValues).(company := Some(value))
    {
      formValues := formValues.(company := Some(value));
    }

    method EditDescription(value: string)
      modifies this`formValues
      ensures formValues == old(formValues).(description := Some(value))
    {
      formValues := formValues.(description := Some(value));
    }

    method DismissSubmitError()
      modifies this`submitError
      ensures submitError == NoBanner
    {
      submitError := NoBanner;
    }

    /**
     * `handleModalSubmit`. The form exists only while the modal is open, and
     * its save button is disabled while a save is in progress. After a saved
     * write the search runs again with the current criteria. The search
     * criteria and the form values are never assigned.
     */
    method HandleModalSubmit(saveOutcome: Outcome<OshiGroupResponse>, searchOutcome: Outcome<seq<OshiGroupResponse>>)
      requires modalOpen && !submitting
      modifies this`formErrors, this`submitError, this`submitting, this`sent,
               this`modalOpen, this`editingGroup, this`groups, this`error, this`loading
      ensures !submitting
      // rejected by the schema: no request, the modal stays as it was, first message per field
      ensures GroupFormSchema(formValues).Invalid? ==>
        var parsed := GroupFormSchema(formValues);
        sent == old(sent) && modalOpen && editingGroup == old(editingGroup) &&
        groups == old(groups) && error == old(error) && loading == old(loading) &&
        submitError == RejectionBanner(parsed.formErrors) &&
        (forall key :: key in formErrors <==> key in parsed.fieldErrors && HasFirstMessage(parsed.fieldErrors[key])) &&
        (forall key :: key in formErrors ==>
          key in parsed.fieldErrors && HasFirstMessage(parsed.fieldErrors[key]) &&
          formErrors[key] == parsed.fieldErrors[key][0])
      // saved: the modal closes and the search runs again with the same criteria
      ensures GroupFormSchema(formValues).Valid? && saveOutcome.Resolved? ==>
        var view := SearchResult(CurrentCriteria(), searchOutcome);
        sent == old(sent) + [SaveCall(old(editingGroup), formValues)] + CallsOf(SearchCall(CurrentCriteria())) &&
        !modalOpen && editingGroup == None && formErrors == map[] && submitError == NoBanner &&
        groups == view.groups && error == view.error && !loading
      // not saved: the modal stays open on the same target and the failure is shown
      ensures GroupFormSchema(formValues).Valid? && saveOutcome.Rejected? ==>
        sent == old(sent) + [SaveCall(old(editingGroup), formValues)] &&
        modalOpen && editingGroup == old(editingGroup) && formErrors == map[] &&
        submitError == FailureBanner(saveOutcome.failure, SaveFailedMessage) &&
        groups == old(groups) && error == old(error) && loading == old(loading)
    {
      formErrors := map[];
      submitError := NoBanner;
      var result := GroupFormSchema(formValues);
      if result.Invalid? {
        ShowRejection(result);
      } else {
        Save(result.data, saveOutcome, searchOutcome);
      }
    }

    /** A form the schema rejected: the first message of each field, and the banner. */
    method ShowRejection(parsed: Parsed<GroupForm>)
      requires parsed.Invalid?
      modifies this`formErrors, this`submitError
      ensures submitError == RejectionBanner(parsed.formErrors)
      ensures forall key :: key in formErrors <==> key in parsed.fieldErrors && HasFirstMessage(parsed.fieldErrors[key])
      ensures forall key :: key in formErrors ==>
        key in parsed.fieldErrors && HasFirstMessage(parsed.fieldErrors[key]) &&
        formErrors[key] == parsed.fieldErrors[key][0]
    {
      var fieldMap := FirstFieldMessages(parsed.fieldErrors);
      formErrors := fieldMap;
      submitError := RejectionBanner(parsed.formErrors);
    }

    /** The write of an accepted form, with `submitting` raised around it. */
    method Save(data: GroupForm, saveOutcome: Outcome<OshiGroupResponse>, searchOutcome: Outcome<seq<OshiGroupResponse>>)
      modifies this`submitError, this`submitting, this`sent,
               this`modalOpen, this`editingGroup, this`groups, this`error, this`loading
      ensures !submitting
      ensures saveOutcome.Resolved? ==>
        var view := SearchResult(CurrentCriteria(), searchOutcome);
        sent == old(sent) + [SaveCall(old(editingGroup), data)] + CallsOf(SearchCall(CurrentCriteria())) &&
        !modalOpen && editingGroup == None && submitError == NoBanner &&
        groups == view.groups && error == view.error && !loading
      ensures saveOutcome.Rejected? ==>
        sent == old(sent) + [SaveCall(old(editingGroup), data)] &&
        modalOpen == old(modalOpen) && editingGroup == old(editingGroup) &&
        submitError == FailureBanner(saveOutcome.failure, SaveFailedMessage) &&
        groups == old(groups) && error == old(error) && loading == old(loading)
    {
      submitting := true;
      sent := sent + [SaveCall(editingGroup, data)];
      match saveOutcome {
        case Resolved(_) =>
          CloseModal();
          RunSearch(searchOutcome);
        case Rejected(failure) =>
          submitError := FailureBanner(failure, SaveFailedMessage);
      }
      submitting := false;
    }
  }

  /** From a fresh page, the radios alone keep exactly one search mode selected. */
  method RadiosKeepOneMode(toFuzzy: bool) returns (page: Page)
    ensures fresh(page) && page.ModeExclusive()
  {
    page := new Page();
    if toFuzzy {
      page.SelectFuzzy();
      page.SelectFull();
      page.SelectFuzzy();
    } else {
      page.SelectFull();
    }
  }
}
