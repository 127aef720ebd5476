/**
 * The pure rules of the banner admin page: the form record and its updates,
 * the edit prefill, the resolution of an uploaded image URL, the choice of
 * request on submit (including the abort after a failed upload), the reset
 * after a successful save, and the position label.
 *
 * React state is immutable and replaced through setters, so the page state is
 * a value and every handler is a function from the old state to the new one.
 * Clock readings, upload responses and save responses are parameters.
 */
module BannerManagement {
  import opened Wrappers
  import opened Text

  // ---------------------------------------------------------------- form record

  /** A form field holds the input's string `value`, or a checkbox's `checked` flag. */
  datatype FormValue = TextValue(text: string) | FlagValue(flag: bool)

  /** The form object; `{...formData, [name]: v}` is a map update, so the form is a map from field name. */
  type FormData = map<string, FormValue>

  const TextFields: set<string> := {"title", "imageUrl", "link", "position", "startDate", "endDate"}
  const ActiveField := "isActive"

  /** The shape every form on this page has: the seven fields, `isActive` a flag and the rest text. */
  predicate WellFormed(f: FormData)
  {
    && f.Keys == TextFields + {ActiveField}
    && f[ActiveField].FlagValue?
    && forall k :: k in TextFields ==> f[k].TextValue?
  }

  datatype Banner = Banner(
    id: string, title: string, imageUrl: string, link: string,
    isActive: bool, position: string, startDate: string, endDate: string)

  /**
   * The empty form used at start-up, after a successful save and by the "add banner" button.
   * `nowIso` and `laterIso` are the ISO renderings of now and of thirty days later.
   */
  function DefaultForm(nowIso: string, laterIso: string): (f: FormData)
    ensures WellFormed(f)
    ensures f["title"] == TextValue("") && f["imageUrl"] == TextValue("") && f["link"] == TextValue("")
    ensures f["position"] == TextValue("home_top") && f[ActiveField] == FlagValue(true)
    ensures f["startDate"] == TextValue(DatePart(nowIso)) && f["endDate"] == TextValue(DatePart(laterIso))
  {
    map[
      "title" := TextValue(""),
      "imageUrl" := TextValue(""),
      "link" := TextValue(""),
      "position" := TextValue("home_top"),
      ActiveField := FlagValue(true),
      "startDate" := TextValue(DatePart(nowIso)),
      "endDate" := TextValue(DatePart(laterIso))]
  }

  /** `handleEdit`'s form: the banner's own fields, its dates cut to the day. */
  function EditPrefill(b: Banner): (f: FormData)
    ensures WellFormed(f)
    ensures f["title"] == TextValue(b.title) && f["imageUrl"] == TextValue(b.imageUrl) && f["link"] == TextValue(b.link)
    ensures f["position"] == TextValue(b.position) && f[ActiveField] == FlagValue(b.isActive)
    ensures f["startDate"] == TextValue(DatePart(b.startDate)) && f["endDate"] == TextValue(DatePart(b.endDate))
  {
    map[
      "title" := TextValue(b.title),
      "imageUrl" := TextValue(b.imageUrl),
      "link" := TextValue(b.link),
      "position" := TextValue(b.position),
      ActiveField := FlagValue(b.isActive),
      "startDate" := TextValue(DatePart(b.startDate)),
      "endDate" := TextValue(DatePart(b.endDate))]
  }

  /** The parts of a change event that `handleInputChange` reads. */
  datatype InputEvent = InputEvent(name: string, inputType: string, value: string, checked: bool)

  /** `handleInputChange`: the named field takes `checked` for a checkbox, `value` otherwise; nothing else changes. */
  function HandleInputChange(f: FormData, e: InputEvent): (g: FormData)
    ensures g.Keys == f.Keys + {e.name}
    ensures e.inputType == "checkbox" ==> g[e.name] == FlagValue(e.checked)
    ensures e.inputType != "checkbox" ==> g[e.name] == TextValue(e.value)
    ensures forall k :: k in f && k != e.name ==> g[k] == f[k]
  {
    f[e.name := if e.inputType == "checkbox" then FlagValue(e.checked) else TextValue(e.value)]
  }

  /** An event from one of the form's own inputs: the `isActive` checkbox or a non-checkbox input for a text field. */
  predicate FromFormInput(e: InputEvent)
  {
    (e.name == ActiveField && e.inputType == "checkbox") || (e.name in TextFields && e.inputType != "checkbox")
  }

  /** Editing through the form's own inputs keeps the form's shape. */
  lemma InputChangeKeepsWellFormed(f: FormData, e: InputEvent)
    requires WellFormed(f) && FromFormInput(e)
    ensures WellFormed(HandleInputChange(f, e))
  {
  }

  /** A later change of the same field overrides an earlier one. */
  lemma InputChangeLastWins(f: FormData, e1: InputEvent, e2: InputEvent)
    requires e1.name == e2.name
    ensures HandleInputChange(HandleInputChange(f, e1), e2) == HandleInputChange(f, e2)
  {
    var g1 := HandleInputChange(HandleInputChange(f, e1), e2);
    var g2 := HandleInputChange(f, e2);
    assert g1.Keys == g2.Keys;
    assert forall k :: k in g1 ==> g1[k] == g2[k];
  }

  // ---------------------------------------------------------------- page state

  datatype ErrorKind = FetchError | UploadError | CreateError | UpdateError | DeleteError | ToggleStatusError

  /** The page's form-related state: `formData`, `editingId`, whether `imageFile` is set, `showForm`, `error`. */
  datatype BannerPage = BannerPage(
    form: FormData, editingId: Option<string>, hasImageFile: bool, showForm: bool, error: Option<ErrorKind>)

  /** `editingId ? … : …`: an empty id counts as not editing, as in JavaScript. */
  predicate IsEditing(editingId: Option<string>)
  {
    editingId.Some? && editingId.value != ""
  }

  function InitialPage(nowIso: string, laterIso: string): (p: BannerPage)
    ensures p.form == DefaultForm(nowIso, laterIso)
    ensures p.editingId == None && !p.hasImageFile && !p.showForm && p.error == None
  {
    BannerPage(DefaultForm(nowIso, laterIso), None, false, false, None)
  }

  /** The "add banner"/"cancel" button: flips the form's visibility, leaves edit mode and resets the form; a chosen file stays. */
  function ToggleForm(p: BannerPage, nowIso: string, laterIso: string): (q: BannerPage)
    ensures q.showForm == !p.showForm && q.editingId == None && q.form == DefaultForm(nowIso, laterIso)
    ensures q.hasImageFile == p.hasImageFile && q.error == p.error
  {
    p.(showForm := !p.showForm, editingId := None, form := DefaultForm(nowIso, laterIso))
  }

  /** The form's own "cancel" button: hides the form and nothing else, so edit mode and the entered values stay. */
  function CancelForm(p: BannerPage): (q: BannerPage)
    ensures !q.showForm
    ensures q.form == p.form && q.editingId == p.editingId && q.hasImageFile == p.hasImageFile && q.error == p.error
  {
    p.(showForm := false)
  }

  /** `handleEdit`: load the banner into the form, remember its id and show the form. */
  function Edit(p: BannerPage, b: Banner): (q: BannerPage)
    ensures q.form == EditPrefill(b) && q.editingId == Some(b.id) && q.showForm
    ensures q.hasImageFile == p.hasImageFile && q.error == p.error
  {
    p.(form := EditPrefill(b), editingId := Some(b.id), showForm := true)
  }

  function ChangeInput(p: BannerPage, e: InputEvent): (q: BannerPage)
    ensures q.form == HandleInputChange(p.form, e)
    ensures q.editingId == p.editingId && q.hasImageFile == p.hasImageFile && q.showForm == p.showForm && q.error == p.error
  {
    p.(form := HandleInputChange(p.form, e))
  }

  /** `handleImageChange`: a selection with at least one file sets the file; an empty one keeps the previous choice. */
  function ChooseImage(p: BannerPage, fileCount: nat): (q: BannerPage)
    ensures q.hasImageFile == (p.hasImageFile || fileCount > 0)
    ensures q.form == p.form && q.editingId == p.editingId && q.showForm == p.showForm && q.error == p.error
  {
    if fileCount > 0 then p.(hasImageFile := true) else p
  }

  // ---------------------------------------------------------------- submit

  /** An upload URL that already starts with `http` is absolute; any other is relative to the API's base URL. */
  function ResolveImageUrl(apiUrl: string, url: string): (resolved: string)
    ensures StartsWith(url, "http") ==> resolved == url
    ensures !StartsWith(url, "http") ==> resolved == apiUrl + url
  {
    if StartsWith(url, "http") then url else apiUrl + url
  }

  /** With an absolute base URL every resolved URL is absolute, ends with the returned URL, and resolving again changes nothing. */
  lemma ResolveImageUrlAbsolute(apiUrl: string, url: string)
    requires StartsWith(apiUrl, "http")
    ensures StartsWith(ResolveImageUrl(apiUrl, url), "http")
    ensures ResolveImageUrl(apiUrl, url)[|ResolveImageUrl(apiUrl, url)| - |url|..] == url
    ensures ResolveImageUrl(apiUrl, ResolveImageUrl(apiUrl, url)) == ResolveImageUrl(apiUrl, url)
  {
    var r := ResolveImageUrl(apiUrl, url);
    if !StartsWith(url, "http") {
      assert r[..4] == apiUrl[..4];
      assert r[|r| - |url|..] == url;
    }
  }

  /** What the media endpoint gave back: a failure (error status or no `url`), or the `url` it returned. */
  datatype UploadResult = UploadFailed | Uploaded(url: string)

  datatype HttpMethod = Post | Put

  datatype Request = Request(verb: HttpMethod, url: string, body: FormData)

  /** The save request goes to the banner being edited with PUT, or to the collection with POST. */
  function SubmitTarget(apiUrl: string, editingId: Option<string>): (target: (HttpMethod, string))
    ensures IsEditing(editingId) ==> target == (Put, apiUrl + "/api/banners/" + editingId.value)
    ensures !IsEditing(editingId) ==> target == (Post, apiUrl + "/api/banners")
  {
    if IsEditing(editingId) then (Put, apiUrl + "/api/banners/" + editingId.value) else (Post, apiUrl + "/api/banners")
  }

  datatype SubmitPlan = Aborted(page: BannerPage) | Sending(request: Request)

  /**
   * The first half of `handleSubmit`: upload a chosen file, stop if that yields no URL,
   * otherwise build the save request whose body is the form with `imageUrl` replaced.
   */
  function PlanSubmit(p: BannerPage, upload: UploadResult, apiUrl: string): (plan: SubmitPlan)
    requires WellFormed(p.form)
    ensures plan.Aborted? <==> p.hasImageFile && (upload.UploadFailed? || ResolveImageUrl(apiUrl, upload.url) == "")
    ensures plan.Aborted? ==> plan.page == if upload.UploadFailed? then p.(error := Some(UploadError)) else p
    ensures plan.Sending? ==> (plan.request.verb, plan.request.url) == SubmitTarget(apiUrl, p.editingId)
    ensures plan.Sending? && !p.hasImageFile ==> plan.request.body == p.form
    ensures plan.Sending? && p.hasImageFile ==>
      plan.request.body == p.form["imageUrl" := TextValue(ResolveImageUrl(apiUrl, upload.url))]
  {
    var ownUrl := p.form["imageUrl"].text;
    var target := SubmitTarget(apiUrl, p.editingId);
    if !p.hasImageFile then
      assert p.form["imageUrl" := TextValue(ownUrl)] == p.form;
      Sending(Request(target.0, target.1, p.form["imageUrl" := TextValue(ownUrl)]))
    else if upload.UploadFailed? then
      Aborted(p.(error := Some(UploadError)))
    else
      var resolved := ResolveImageUrl(apiUrl, upload.url);
      if resolved == "" then Aborted(p)
      else Sending(Request(target.0, target.1, p.form["imageUrl" := TextValue(resolved)]))
  }

  /** A request is sent exactly when no file is chosen or the upload came back with a URL. */
  lemma SubmitSendsIffUploadUsable(p: BannerPage, upload: UploadResult, apiUrl: string)
    requires WellFormed(p.form) && StartsWith(apiUrl, "http")
    ensures PlanSubmit(p, upload, apiUrl).Sending? <==> !p.hasImageFile || upload.Uploaded?
    ensures PlanSubmit(p, upload, apiUrl).Sending? ==> WellFormed(PlanSubmit(p, upload, apiUrl).request.body)
  {
    if upload.Uploaded? {
      ResolveImageUrlAbsolute(apiUrl, upload.url);
    }
  }

  /**
   * The second half of `handleSubmit`, once the save request answered `ok` or not. This is the
   * state before the list refresh that a successful save starts has answered (see `AfterRefresh`).
   */
  function AfterSave(p: BannerPage, ok: bool, nowIso: string, laterIso: string): (q: BannerPage)
    ensures ok ==> q == BannerPage(DefaultForm(nowIso, laterIso), None, false, false, p.error)
    ensures !ok ==> q == p.(error := Some(if IsEditing(p.editingId) then UpdateError else CreateError))
  {
    if ok then p.(form := DefaultForm(nowIso, laterIso), hasImageFile := false, showForm := false, editingId := None)
    else p.(error := Some(if IsEditing(p.editingId) then UpdateError else CreateError))
  }

  /** `fetchBanners` once it has answered: success clears any earlier error, failure records the fetch error. */
  function AfterRefresh(p: BannerPage, ok: bool): (q: BannerPage)
    ensures q.error == if ok then None else Some(FetchError)
    ensures q.form == p.form && q.editingId == p.editingId && q.hasImageFile == p.hasImageFile && q.showForm == p.showForm
  {
    p.(error := if ok then None else Some(FetchError))
  }

  /**
   * `handleDelete`: nothing happens unless the confirmation dialog was accepted; a failed request
   * records the delete error; a successful one only starts a list refresh.
   */
  function AfterDelete(p: BannerPage, confirmed: bool, ok: bool): (q: BannerPage)
    ensures !confirmed || ok ==> q == p
    ensures confirmed && !ok ==> q == p.(error := Some(DeleteError))
  {
    if confirmed && !ok then p.(error := Some(DeleteError)) else p
  }

  /** `toggleBannerStatus`: a failed request records the toggle error; a successful one only starts a list refresh. */
  function AfterToggleStatus(p: BannerPage, ok: bool): (q: BannerPage)
    ensures ok ==> q == p
    ensures !ok ==> q == p.(error := Some(ToggleStatusError))
  {
    if ok then p else p.(error := Some(ToggleStatusError))
  }

  /** A successful save followed by a successful refresh leaves the default, hidden form and no error. */
  lemma SaveThenRefreshClearsError(p: BannerPage, nowIso: string, laterIso: string)
    ensures AfterRefresh(AfterSave(p, true, nowIso, laterIso), true)
         == BannerPage(DefaultForm(nowIso, laterIso), None, false, false, None)
  {
  }

  /** Every handler keeps the form well formed, so `PlanSubmit`'s precondition holds in every reachable state. */
  lemma HandlersKeepWellFormed(p: BannerPage, e: InputEvent, b: Banner, fileCount: nat, upload: UploadResult,
                               ok: bool, confirmed: bool, apiUrl: string, nowIso: string, laterIso: string)
    requires WellFormed(p.form) && FromFormInput(e)
    ensures WellFormed(InitialPage(nowIso, laterIso).form)
    ensures WellFormed(ToggleForm(p, nowIso, laterIso).form)
    ensures WellFormed(CancelForm(p).form)
    ensures WellFormed(Edit(p, b).form)
    ensures WellFormed(ChangeInput(p, e).form)
    ensures WellFormed(ChooseImage(p, fileCount).form)
    ensures WellFormed(AfterSave(p, ok, nowIso, laterIso).form)
    ensures WellFormed(AfterRefresh(p, ok).form)
    ensures WellFormed(AfterDelete(p, confirmed, ok).form) && WellFormed(AfterToggleStatus(p, ok).form)
    ensures PlanSubmit(p, upload, apiUrl).Aborted? ==> WellFormed(PlanSubmit(p, upload, apiUrl).page.form)
  {
    InputChangeKeepsWellFormed(p.form, e);
  }

  // ---------------------------------------------------------------- display

  /** `position.replace('_', ' ')`. */
  function PositionLabel(position: string): string
  {
    ReplaceFirst(position, '_', ' ')
  }

  /** The label differs from the position only at its first underscore, which becomes a space. */
  lemma PositionLabelSpec(position: string)
    ensures |PositionLabel(position)| == |position|
    ensures '_' !in position ==> PositionLabel(position) == position
    ensures var k := FirstIndex(position, '_');
      k < |position| ==> PositionLabel(position)[k] == ' '
    ensures var k := FirstIndex(position, '_');
      forall j :: 0 <= j < |position| && j != k ==> PositionLabel(position)[j] == position[j]
  {
    ReplaceFirstAtFirstIndex(position, '_', ' ');
  }
}
