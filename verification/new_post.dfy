/**
 The admin route that creates a post: its loader, which only checks that
 the caller is an administrator, and its action, which checks the caller,
 builds a per-field error report from the submitted form, stops on any error,
 insists that every field is a string, and only then creates the post and
 redirects to the admin listing.

 The session lookup behind the administrator check is a boolean input; the
 check's failure, and the bad-request response thrown when a field is not a
 string, are outcomes of their own.
 */
module NewPost {
  import opened Options
  import opened Form
  import opened PostStore

  const TitleRequired := "Title is required"
  const SlugRequired := "Slug is required"
  const MarkdownRequired := "Markdown is required"

  /** Where a successful creation sends the browser. */
  const AdminListing := "/posts/admin"

  /** The error report returned to the form: one entry per field, `None`
      (JavaScript `null`) when the field passed the required check. */
  datatype ActionData = ActionData(title: Option<string>, slug: Option<string>, markdown: Option<string>)
  {
    /** `Object.values(errors)`, in the order the keys were written. */
    function Values(): seq<Option<string>> {
      [title, slug, markdown]
    }
  }

  datatype Outcome =
    | Unauthorized
    | Errors(data: ActionData)
    | BadRequest
    | Redirect(location: string)

  /** What the action answers together with the store it leaves behind. */
  datatype Response = Response(outcome: Outcome, store: Store)

  datatype LoaderResult = LoaderUnauthorized | EmptyPayload

  /** The loader: an empty JSON payload for an administrator. */
  function Loader(isAdmin: bool): (r: LoaderResult)
    ensures r == EmptyPayload <==> isAdmin
  {
    if isAdmin then EmptyPayload else LoaderUnauthorized
  }

  /** The error entry of one field: `null` when the value is truthy,
      otherwise the field's message. */
  function RequiredError(v: Option<FormValue>, message: string): Option<string> {
    if Truthy(v) then None else Some(message)
  }

  /** The error report for the three submitted values. */
  function BuildErrors(title: Option<FormValue>, slug: Option<FormValue>, markdown: Option<FormValue>): (e: ActionData)
    ensures e.title.None? <==> Truthy(title)
    ensures e.slug.None? <==> Truthy(slug)
    ensures e.markdown.None? <==> Truthy(markdown)
    ensures e.title.Some? ==> e.title.value == TitleRequired
    ensures e.slug.Some? ==> e.slug.value == SlugRequired
    ensures e.markdown.Some? ==> e.markdown.value == MarkdownRequired
  {
    ActionData(
      RequiredError(title, TitleRequired),
      RequiredError(slug, SlugRequired),
      RequiredError(markdown, MarkdownRequired))
  }

  /** JavaScript truthiness of an error entry. */
  predicate MessageTruthy(m: Option<string>) {
    m.Some? && |m.value| > 0
  }

  /** `values.some((errorMessage) => errorMessage)`. */
  function AnyTruthy(ms: seq<Option<string>>): (r: bool)
    ensures r <==> exists i :: 0 <= i < |ms| && MessageTruthy(ms[i])
  {
    if |ms| == 0 then false
    else if MessageTruthy(ms[0]) then true
    else
      assert forall i :: 1 <= i < |ms| ==> ms[i] == ms[1..][i - 1];
      AnyTruthy(ms[1..])
  }

  /** `hasErrors`: some entry of the report carries a message. */
  predicate HasErrors(errors: ActionData)
    ensures HasErrors(errors) <==>
      MessageTruthy(errors.title) || MessageTruthy(errors.slug) || MessageTruthy(errors.markdown)
  {
    AnyTruthy(errors.Values())
  }

  /** The report built by the action has errors exactly when some field
      failed the required check. */
  lemma HasErrorsIffSomeFieldMissing(title: Option<FormValue>, slug: Option<FormValue>, markdown: Option<FormValue>)
    ensures HasErrors(BuildErrors(title, slug, markdown)) <==> !(Truthy(title) && Truthy(slug) && Truthy(markdown))
  {
  }

  /** The three fields are non-empty strings. */
  predicate AllFilled(title: Option<FormValue>, slug: Option<FormValue>, markdown: Option<FormValue>) {
    && Truthy(title) && IsString(title)
    && Truthy(slug) && IsString(slug)
    && Truthy(markdown) && IsString(markdown)
  }

  /** The action after the administrator check: validate, check the types,
      persist, redirect. */
  function ValidateAndCreate(title: Option<FormValue>, slug: Option<FormValue>, markdown: Option<FormValue>, store: Store): (r: Response)
    ensures r.outcome.Errors? <==> !(Truthy(title) && Truthy(slug) && Truthy(markdown))
    ensures r.outcome.Redirect? <==> AllFilled(title, slug, markdown)
    ensures r.outcome.Redirect? ==> r.outcome.location == AdminListing
    ensures !r.outcome.Redirect? ==> r.store == store
    ensures r.outcome.Redirect? ==>
      r.store == CreatePost(store, Post(title.value.text, slug.value.text, markdown.value.text))
  {
    var errors := BuildErrors(title, slug, markdown);
    if HasErrors(errors) then Response(Errors(errors), store)
    else if !IsString(title) || !IsString(slug) || !IsString(markdown) then Response(BadRequest, store)
    else
      var post := Post(title.value.text, slug.value.text, markdown.value.text);
      Response(Redirect(AdminListing), CreatePost(store, post))
  }

  /** The values the action reads from the form. */
  function TitleOf(form: FormData): Option<FormValue> { Get(form, "title") }
  function SlugOf(form: FormData): Option<FormValue> { Get(form, "slug") }
  function MarkdownOf(form: FormData): Option<FormValue> { Get(form, "markdown") }

  /** The action: the administrator check comes first; only then is the
      form read. */
  function Action(isAdmin: bool, form: FormData, store: Store): (r: Response)
    ensures r.outcome == Unauthorized <==> !isAdmin
    ensures r.store == store || (r.outcome == Redirect(AdminListing) && exists p :: Complete(p) && r.store == store + [p])
  {
    if !isAdmin then Response(Unauthorized, store)
    else ValidateAndCreate(TitleOf(form), SlugOf(form), MarkdownOf(form), store)
  }
}
