/**
 Properties of the new-post action: the order of its checks, the shape of
 the error report, and the single post it adds to the store.
 */
module NewPostProperties {
  import opened Options
  import opened Form
  import opened PostStore
  import opened NewPost

  /** A caller who is not an administrator is refused whatever the form holds,
      and the store is left as it was. */
  lemma NonAdminIsRefused(form: FormData, other: FormData, store: Store)
    ensures Action(false, form, store) == Response(Unauthorized, store)
    ensures Action(false, form, store) == Action(false, other, store)
  {
  }

  /** A missing field and an empty string are treated alike: both get the
      field's message. */
  lemma MissingAndEmptyAlike(title: Option<FormValue>, slug: Option<FormValue>, markdown: Option<FormValue>)
    ensures BuildErrors(None, slug, markdown) == BuildErrors(Some(Text("")), slug, markdown)
    ensures BuildErrors(None, slug, markdown).title == Some(TitleRequired)
    ensures BuildErrors(title, None, markdown) == BuildErrors(title, Some(Text("")), markdown)
    ensures BuildErrors(title, None, markdown).slug == Some(SlugRequired)
    ensures BuildErrors(title, slug, None) == BuildErrors(title, slug, Some(Text("")))
    ensures BuildErrors(title, slug, None).markdown == Some(MarkdownRequired)
  {
  }

  /** When some field fails the required check, an administrator gets the
      error report back and nothing is persisted. */
  lemma ErrorsStopPersistence(form: FormData, store: Store)
    requires !(Truthy(TitleOf(form)) && Truthy(SlugOf(form)) && Truthy(MarkdownOf(form)))
    ensures Action(true, form, store) == Response(Errors(BuildErrors(TitleOf(form), SlugOf(form), MarkdownOf(form))), store)
  {
  }

  /** A file passes the required check but is refused as a bad request
      before anything is persisted. */
  lemma FileRejectedBeforePersistence(form: FormData, store: Store, name: string)
    requires Truthy(TitleOf(form)) && Truthy(SlugOf(form)) && Truthy(MarkdownOf(form))
    requires Some(File(name)) in [TitleOf(form), SlugOf(form), MarkdownOf(form)]
    ensures Action(true, form, store) == Response(BadRequest, store)
  {
  }

  /** Three non-empty strings from an administrator add exactly one post with
      the submitted values, keep every other post, and redirect to the admin
      listing. */
  lemma CreatesExactlyOnePost(form: FormData, store: Store, title: string, slug: string, markdown: string)
    requires TitleOf(form) == Some(Text(title)) && |title| > 0
    requires SlugOf(form) == Some(Text(slug)) && |slug| > 0
    requires MarkdownOf(form) == Some(Text(markdown)) && |markdown| > 0
    ensures Action(true, form, store).outcome == Redirect(AdminListing)
    ensures Action(true, form, store).store == store + [Post(title, slug, markdown)]
  {
  }

  /** The four outcomes, each with the condition that produces it. */
  lemma OutcomeCases(isAdmin: bool, form: FormData, store: Store)
    ensures Action(isAdmin, form, store).outcome.Unauthorized? <==> !isAdmin
    ensures Action(isAdmin, form, store).outcome.Errors? <==>
      isAdmin && !(Truthy(TitleOf(form)) && Truthy(SlugOf(form)) && Truthy(MarkdownOf(form)))
    ensures Action(isAdmin, form, store).outcome.BadRequest? <==>
      isAdmin && Truthy(TitleOf(form)) && Truthy(SlugOf(form)) && Truthy(MarkdownOf(form))
      && !(IsString(TitleOf(form)) && IsString(SlugOf(form)) && IsString(MarkdownOf(form)))
    ensures Action(isAdmin, form, store).outcome.Redirect? <==>
      isAdmin && AllFilled(TitleOf(form), SlugOf(form), MarkdownOf(form))
    ensures Action(isAdmin, form, store).store != store ==> Action(isAdmin, form, store).outcome.Redirect?
  {
  }

  /** No action ever persists a post with an empty field. */
  lemma ActionKeepsStoreComplete(isAdmin: bool, form: FormData, store: Store)
    requires AllComplete(store)
    ensures AllComplete(Action(isAdmin, form, store).store)
  {
  }

  /** Entries submitted after the three fields do not change the values the
      action reads: `get` returns the first value under each name. */
  lemma LaterEntriesKeepFields(form: FormData, extra: FormData)
    requires TitleOf(form).Some? && SlugOf(form).Some? && MarkdownOf(form).Some?
    ensures TitleOf(form + extra) == TitleOf(form)
    ensures SlugOf(form + extra) == SlugOf(form)
    ensures MarkdownOf(form + extra) == MarkdownOf(form)
  {
    GetAppend(form, extra, "title");
    GetAppend(form, extra, "slug");
    GetAppend(form, extra, "markdown");
  }

  /** So they do not change the action's answer either. */
  lemma LaterEntriesIgnored(isAdmin: bool, form: FormData, extra: FormData, store: Store)
    requires TitleOf(form).Some? && SlugOf(form).Some? && MarkdownOf(form).Some?
    ensures Action(isAdmin, form + extra, store) == Action(isAdmin, form, store)
  {
    LaterEntriesKeepFields(form, extra);
  }

  /** Submitting a new post as an administrator stores it and redirects. */
  lemma NewPostScenario(store: Store)
    ensures var form := [Entry("title", Text("T")), Entry("slug", Text("t")), Entry("markdown", Text("m"))];
      Action(true, form, store) == Response(Redirect("/posts/admin"), store + [Post("T", "t", "m")])
  {
  }

  /** Submitting only a title as an administrator reports the slug and the
      markdown as missing and persists nothing. */
  lemma MissingFieldsScenario(store: Store)
    ensures Action(true, [Entry("title", Text("T"))], store)
      == Response(Errors(ActionData(None, Some("Slug is required"), Some("Markdown is required"))), store)
  {
  }
}
