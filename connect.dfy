/**
 * The credential form (frontend/src/components/Connect.jsx): three controlled
 * fields, a one-shot load of the saved credentials at mount, and a submit cycle
 * that saves them. Each `fetch` is abstracted into the reply it resolves with.
 */
module Connect {
  import opened Wrappers
  import opened Schemas
  import opened JsString
  import opened Fetch

  const LoadFallback := "Failed to load saved credentials"
  const SaveFallback := "Failed to save credentials"

  /** What `res.json()` makes of the body of GET /api/credentials. A field is
      `None` when it is absent or null. */
  datatype LoadBody =
    | Unparseable(reason: string)
    | NullBody
    | Object(url: Option<string>, org: Option<string>, token: Option<string>, detail: Option<string>)

  /** How GET /api/credentials settles: the request itself fails, or a response arrives. */
  datatype LoadReply =
    | LoadNetworkError(message: string)
    | LoadResponse(status: int, statusText: string, body: LoadBody)

  /** What the load chain asks the form to do. */
  datatype LoadResult = KeepFields | Replace(credentials: Credentials) | LoadFailed(message: string)

  /** How POST /api/credentials settles. `detail` is `None` when the body has none,
      which includes a body `res.json()` cannot parse (it is replaced by `{}`). */
  datatype SaveReply =
    | SaveNetworkError(message: string)
    | SaveResponse(status: int, statusText: string, detail: Option<string>)

  datatype SaveResult = Saved | SaveFailed(message: string)

  /** `data.url || ""`: a missing or empty field becomes the empty string. */
  function FieldOrEmpty(f: Option<string>): (r: string)
    ensures f.Some? ==> r == f.value
    ensures f.None? ==> r == ""
  {
    OrElse(f.GetOr(""), "")
  }

  /** The load chain: 404 keeps the empty defaults, a successful object fills all
      three fields, a JSON null changes nothing, and every other outcome is a
      non-empty error message. */
  function LoadOutcome(reply: LoadReply): (r: LoadResult)
    ensures reply.LoadResponse? && reply.status == 404 ==> r == KeepFields
    ensures reply.LoadResponse? && Ok(reply.status) && reply.body.Object? ==>
      r == Replace(Credentials(FieldOrEmpty(reply.body.url), FieldOrEmpty(reply.body.org),
                               FieldOrEmpty(reply.body.token)))
    ensures reply.LoadResponse? && Ok(reply.status) && reply.body.NullBody? ==> r == KeepFields
    ensures r.LoadFailed? <==>
      reply.LoadNetworkError? ||
      (reply.status != 404 && (reply.body.Unparseable? || !Ok(reply.status)))
    ensures r.LoadFailed? ==> r.message != ""
    ensures reply.LoadNetworkError? && reply.message != "" ==> r == LoadFailed(reply.message)
    ensures reply.LoadNetworkError? && reply.message == "" ==> r == LoadFailed(LoadFallback)
    ensures reply.LoadResponse? && reply.status != 404 && reply.body.Unparseable? && reply.body.reason == "" ==>
      r == LoadFailed(LoadFallback)
    ensures reply.LoadResponse? && reply.status != 404 && reply.body.Unparseable? && reply.body.reason != "" ==>
      r == LoadFailed(reply.body.reason)
    ensures reply.LoadResponse? && reply.status != 404 && !Ok(reply.status) && reply.body.Object? ==>
      r == LoadFailed(ErrorMessage(reply.body.detail.GetOr(""), reply.statusText, LoadFallback))
    ensures reply.LoadResponse? && reply.status != 404 && !Ok(reply.status) && reply.body.NullBody? ==>
      r == LoadFailed(ErrorMessage("", reply.statusText, LoadFallback))
  {
    match reply
    case LoadNetworkError(m) => LoadFailed(OrElse(m, LoadFallback))
    case LoadResponse(status, statusText, body) =>
      if status == 404 then KeepFields
      else
        match body
        case Unparseable(reason) => LoadFailed(OrElse(reason, LoadFallback))
        case NullBody =>
          if !Ok(status) then LoadFailed(OrElse(OrElse("", statusText), LoadFallback))
          else KeepFields
        case Object(url, org, token, detail) =>
          if !Ok(status) then LoadFailed(OrElse(OrElse(detail.GetOr(""), statusText), LoadFallback))
          else Replace(Credentials(FieldOrEmpty(url), FieldOrEmpty(org), FieldOrEmpty(token)))
  }

  /** The save chain: a 2xx response saves; anything else is a non-empty message. */
  function SaveOutcome(reply: SaveReply): (r: SaveResult)
    ensures r.Saved? <==> reply.SaveResponse? && Ok(reply.status)
    ensures r.SaveFailed? ==> r.message != ""
    ensures reply.SaveResponse? && !Ok(reply.status) ==>
      r == SaveFailed(ErrorMessage(reply.detail.GetOr(""), reply.statusText, SaveFallback))
    ensures reply.SaveNetworkError? && reply.message != "" ==> r == SaveFailed(reply.message)
    ensures reply.SaveNetworkError? && reply.message == "" ==> r == SaveFailed(SaveFallback)
  {
    match reply
    case SaveNetworkError(m) => SaveFailed(OrElse(m, SaveFallback))
    case SaveResponse(status, statusText, detail) =>
      if Ok(status) then Saved
      else SaveFailed(OrElse(OrElse(detail.GetOr(""), statusText), SaveFallback))
  }

  /** The body of the save request: `url` and `org` trimmed, `token` exactly as typed. */
  function SavePayload(c: Credentials): (p: Credentials)
    ensures p.url == Trim(c.url) && p.org == Trim(c.org) && p.token == c.token
    ensures NoEdgeWhitespace(p.url) && NoEdgeWhitespace(p.org)
    ensures |p.url| <= |c.url| && |p.org| <= |c.org|
  {
    Credentials(Trim(c.url), Trim(c.org), c.token)
  }

  /** The form passes the browser's constraint validation: every `required`
      field is non-empty and the `type="url"` field is well-formed. */
  predicate Submittable(c: Credentials, urlWellFormed: bool) {
    c.url != "" && c.org != "" && c.token != "" && urlWellFormed
  }

  /** Submitting what was saved saves it unchanged. */
  lemma SavePayloadIdempotent(c: Credentials)
    ensures SavePayload(SavePayload(c)) == SavePayload(c)
  {
    TrimIdempotent(c.url);
    TrimIdempotent(c.org);
  }

  /** The `Connect` component's state. `mounted` is the load effect's `isMounted`;
      `loadPending` says the mount-time load has not settled yet; `loading` says a
      save is in flight. */
  class CredentialForm {
    var credentials: Credentials
    var submitted: bool
    var error: string
    var loading: bool
    var initializing: bool
    var mounted: bool
    var loadPending: bool

    /** `initializing` lasts exactly until the load settles while mounted, and no
        submit cycle in flight has succeeded yet. */
    ghost predicate Valid()
      reads this
    {
      && (loadPending ==> initializing)
      && (initializing ==> loadPending || !mounted)
      && (loading ==> !submitted)
    }

    /** Mount: the initial state, with the load effect started. */
    constructor ()
      ensures Valid()
      ensures credentials == Empty && !submitted && error == "" && !loading
      ensures initializing && mounted && loadPending
    {
      credentials := Empty;
      submitted := false;
      error := "";
      loading := false;
      initializing := true;
      mounted := true;
      loadPending := true;
    }

    /** The URL input's `onChange`. */
    method ChangeUrl(v: string)
      requires Valid() && mounted
      modifies this
      ensures Valid()
      ensures credentials == old(credentials).(url := v)
      ensures submitted == old(submitted) && error == old(error) && loading == old(loading)
      ensures initializing == old(initializing) && mounted && loadPending == old(loadPending)
    {
      credentials := credentials.(url := v);
    }

    /** The organisation input's `onChange`. */
    method ChangeOrg(v: string)
      requires Valid() && mounted
      modifies this
      ensures Valid()
      ensures credentials == old(credentials).(org := v)
      ensures submitted == old(submitted) && error == old(error) && loading == old(loading)
      ensures initializing == old(initializing) && mounted && loadPending == old(loadPending)
    {
      credentials := credentials.(org := v);
    }

    /** The token input's `onChange`. */
    method ChangeToken(v: string)
      requires Valid() && mounted
      modifies this
      ensures Valid()
      ensures credentials == old(credentials).(token := v)
      ensures submitted == old(submitted) && error == old(error) && loading == old(loading)
      ensures initializing == old(initializing) && mounted && loadPending == old(loadPending)
    {
      credentials := credentials.(token := v);
    }

    /** The Clear button: empties the fields and the success notice, keeps `error`. */
    method Clear()
      requires Valid() && mounted
      modifies this
      ensures Valid()
      ensures credentials == Empty && !submitted
      ensures error == old(error) && loading == old(loading)
      ensures initializing == old(initializing) && mounted && loadPending == old(loadPending)
    {
      credentials := Empty;
      submitted := false;
    }

    /** The form's submit, up to the `await` of the save. The browser fires it
        only when the submit button is enabled (it is disabled while `loading`)
        and the inputs pass constraint validation: all three are `required` and
        the URL input has `type="url"`, whose well-formedness check is the
        browser's and arrives as `urlWellFormed`. When it does not fire nothing
        changes and nothing is sent; otherwise the flags are reset and `payload`
        is the body that is posted. The fields themselves are not touched. */
    method Submit(urlWellFormed: bool) returns (payload: Option<Credentials>)
      requires Valid() && mounted
      modifies this
      ensures Valid()
      ensures payload.Some? <==> !old(loading) && Submittable(old(credentials), urlWellFormed)
      ensures payload.None? ==>
        submitted == old(submitted) && error == old(error) && loading == old(loading)
      ensures payload.Some? ==>
        payload.value == SavePayload(credentials) && !submitted && error == "" && loading
      ensures credentials == old(credentials)
      ensures initializing == old(initializing) && mounted && loadPending == old(loadPending)
    {
      if loading || !Submittable(credentials, urlWellFormed) {
        return None;
      }
      submitted := false;
      error := "";
      loading := true;
      payload := Some(SavePayload(credentials));
    }

    /** The rest of the submit, once the save settles. It does not consult
        `mounted`: after unmount it performs the same updates. */
    method SaveSettled(reply: SaveReply)
      requires Valid() && loading
      modifies this
      ensures Valid()
      ensures !loading
      ensures submitted <==> SaveOutcome(reply).Saved?
      ensures error == if SaveOutcome(reply).Saved? then old(error) else SaveOutcome(reply).message
      ensures credentials == old(credentials)
      ensures initializing == old(initializing) && mounted == old(mounted) && loadPending == old(loadPending)
    {
      match SaveOutcome(reply) {
        case Saved => submitted := true;
        case SaveFailed(m) => error := m;
      }
      loading := false;
    }

    /** The mount-time load settles. Every update is guarded by `mounted`; while
        mounted, `initializing` ends false. Nothing else about the form
        (`submitted`, a previous error when the load succeeds) is consulted, so a
        failing load overwrites whatever `error` a submit left. */
    method LoadSettled(reply: LoadReply)
      requires Valid() && loadPending
      modifies this
      ensures Valid() && !loadPending
      ensures !old(mounted) ==>
        credentials == old(credentials) && error == old(error) && initializing == old(initializing)
      ensures old(mounted) ==> !initializing
      ensures old(mounted) && LoadOutcome(reply).Replace? ==>
        credentials == LoadOutcome(reply).credentials && error == old(error)
      ensures old(mounted) && LoadOutcome(reply).KeepFields? ==>
        credentials == old(credentials) && error == old(error)
      ensures old(mounted) && LoadOutcome(reply).LoadFailed? ==>
        credentials == old(credentials) && error == LoadOutcome(reply).message
      ensures submitted == old(submitted) && loading == old(loading) && mounted == old(mounted)
    {
      if mounted {
        match LoadOutcome(reply) {
          case KeepFields =>
          case Replace(c) => credentials := c;
          case LoadFailed(m) => error := m;
        }
        initializing := false;
      }
      loadPending := false;
    }

    /** The load effect's cleanup: `isMounted = false`. */
    method Unmount()
      requires Valid()
      modifies this
      ensures Valid() && !mounted
      ensures credentials == old(credentials) && submitted == old(submitted) && error == old(error)
      ensures loading == old(loading) && initializing == old(initializing) && loadPending == old(loadPending)
    {
      mounted := false;
    }
  }

  /** A store with nothing saved answers 404: the fields stay empty and no error shows. */
  method NothingSavedScenario() returns (credentials: Credentials, error: string, initializing: bool)
    ensures credentials == Empty && error == "" && !initializing
  {
    var form := new CredentialForm();
    form.LoadSettled(LoadResponse(404, "Not Found", Object(None, None, None, Some("No credentials saved"))));
    credentials, error, initializing := form.credentials, form.error, form.initializing;
  }

  /** The user types well-formed credentials and a save succeeds before a
      failing mount-time load settles: the load's error lands next to the
      success notice. */
  method LateLoadFailureScenario(url: string, org: string, token: string) returns (submitted: bool, error: string)
    requires Submittable(Credentials(url, org, token), true)
    ensures submitted && error == "Failed to read credentials"
  {
    var form := new CredentialForm();
    form.ChangeUrl(url);
    form.ChangeOrg(org);
    form.ChangeToken(token);
    var payload := form.Submit(true);
    assert form.loading && !form.submitted;
    form.SaveSettled(SaveResponse(200, "OK", None));
    assert form.submitted && form.loadPending && form.mounted;
    var reply := LoadResponse(500, "Internal Server Error",
                              Object(None, None, None, Some("Failed to read credentials")));
    assert LoadOutcome(reply) == LoadFailed("Failed to read credentials");
    form.LoadSettled(reply);
    submitted, error := form.submitted, form.error;
  }

  /** The user types well-formed credentials and submits, then the form
      unmounts. A save that settles afterwards still calls the setters: the model
      records those updates even though React drops them for an unmounted component. */
  method SaveAfterUnmountScenario(url: string, org: string, token: string) returns (submitted: bool, loading: bool)
    requires Submittable(Credentials(url, org, token), true)
    ensures submitted && !loading
  {
    var form := new CredentialForm();
    form.ChangeUrl(url);
    form.ChangeOrg(org);
    form.ChangeToken(token);
    var payload := form.Submit(true);
    assert form.loading;
    form.Unmount();
    form.SaveSettled(SaveResponse(200, "OK", None));
    submitted, loading := form.submitted, form.loading;
  }
}
