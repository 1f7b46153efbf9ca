# New-post admin route of the Remix blog

This project models the route that creates a blog post,
`app/routes/posts+/admin+/new.tsx`. Its loader only checks that the caller is
an administrator. Its action runs five steps in order:

1. it checks that the caller is an administrator;
2. it reads `title`, `slug` and `markdown` from the submitted form and builds a
   three-entry error report, with `null` for a truthy field and
   "Title is required", "Slug is required" or "Markdown is required" otherwise;
3. it returns the report when any entry carries a message;
4. it answers "bad request" unless all three values are strings;
5. it calls `createPost` with the three strings and redirects to `/posts/admin`.

The model is functional:

- `Form` holds the submitted form: an ordered list of entries whose values are
  text or a file, the `get` lookup (first entry under a name, `None` for
  JavaScript `null`), and JavaScript truthiness of a looked-up value.
- `PostStore` holds the post record and an abstract store (a list of posts)
  that `createPost` adds to.
- `NewPost` holds the loader, the error report (`ActionData`, the same three
  keys as the route's `ActionData` type), `hasErrors`, and the action as a
  pure function `Action(isAdmin, form, store)`. It returns the outcome
  (`Unauthorized`, `Errors(report)`, `BadRequest` or `Redirect("/posts/admin")`)
  together with the resulting store.
- `NewPostProperties` holds the lemmas about the order of the checks and their
  effect on the store.

External collaborators become inputs or outcomes:

- `requireAdminUser` (session lookup) is the boolean `isAdmin`; its failure is
  the `Unauthorized` outcome (the loader's is `LoaderUnauthorized`).
- `invariantResponse` failing is the `BadRequest` outcome.
- `createPost` is `PostStore.CreatePost`, which adds the post to the store.
- `request.formData()` is the `form` parameter, assumed to have been read successfully.

The sibling route `app/routes/posts+/admin+/$slug.tsx` handles update, delete
and the `"new"` sentinel; this route only creates and never checks for an
existing slug.

## Model

| member | source | states |
|---|---|---|
| Form.Get | app/routes/posts+/admin+/new.tsx:33-35 | `get` returns `null` exactly when no entry has the name; otherwise it returns the value of the first entry submitted under that name |
| Form.GetAppend | app/routes/posts+/admin+/new.tsx:33-35 | entries submitted after the first one under a name never change what `get` returns for it; for an absent name the later entries decide |
| Form.TruthyStringIsNonEmptyText | app/routes/posts+/admin+/new.tsx:38-50 | a value passes both the required check and the string check exactly when it is a non-empty string; it passes the required check but fails the string check exactly when it is a file |
| Form.Truthy | app/routes/posts+/admin+/new.tsx:39-41 | the required check `value ? null : message` treats exactly `null` and the empty string as missing; any other string and any file pass |
| Form.IsString | app/routes/posts+/admin+/new.tsx:48-50 | `typeof value === "string"` holds exactly for a submitted text value, never for `null` or a file |
| PostStore.CreatePost | app/routes/posts+/admin+/new.tsx:51 | creating a post adds exactly that post to the store (as a multiset) and drops or invents no other post |
| PostStore.CreatePostKeepsComplete | app/routes/posts+/admin+/new.tsx:48-51 | adding a post with no empty field keeps every stored post free of empty fields |
| NewPost.Loader | app/routes/posts+/admin+/new.tsx:16-19 | the loader returns the empty payload exactly for an administrator and the authorisation failure otherwise |
| NewPost.BuildErrors | app/routes/posts+/admin+/new.tsx:38-42 | each entry of the report is `null` exactly when its field is truthy; a non-null entry is that field's fixed message |
| NewPost.AnyTruthy | app/routes/posts+/admin+/new.tsx:44 | `.some(errorMessage => errorMessage)` holds exactly when some value is a non-empty message |
| NewPost.HasErrors | app/routes/posts+/admin+/new.tsx:44 | `hasErrors` holds exactly when the title, slug or markdown entry of the report carries a non-empty message |
| NewPost.HasErrorsIffSomeFieldMissing | app/routes/posts+/admin+/new.tsx:38-44 | the built report has errors exactly when at least one of the three fields fails the required check |
| NewPost.ValidateAndCreate | app/routes/posts+/admin+/new.tsx:38-53 | after the administrator check: errors exactly when a field is falsy, a redirect to `/posts/admin` exactly when all three are non-empty strings, and the store changes only on the redirect, by creating the post with the submitted values |
| NewPost.Action | app/routes/posts+/admin+/new.tsx:29-54 | the outcome is the authorisation failure exactly for a non-administrator; the store either stays as it was or, on the redirect to `/posts/admin`, gains one post with no empty field at its end |
| NewPostProperties.NonAdminIsRefused | app/routes/posts+/admin+/new.tsx:30-31 | a non-administrator is refused with the store unchanged, and the answer does not depend on the form |
| NewPostProperties.MissingAndEmptyAlike | app/routes/posts+/admin+/new.tsx:39-41 | a missing field and an empty string give the same report, with that field's message |
| NewPostProperties.ErrorsStopPersistence | app/routes/posts+/admin+/new.tsx:44-45 | when any field is falsy an administrator gets the report back and the store is unchanged |
| NewPostProperties.FileRejectedBeforePersistence | app/routes/posts+/admin+/new.tsx:48-50 | when every field is truthy but one is a file, the answer is a bad request and the store is unchanged |
| NewPostProperties.CreatesExactlyOnePost | app/routes/posts+/admin+/new.tsx:51-53 | three non-empty strings from an administrator add exactly one post holding those values, keep all other posts, and redirect to `/posts/admin` |
| NewPostProperties.OutcomeCases | app/routes/posts+/admin+/new.tsx:29-54 | each of the four outcomes happens exactly under its own condition, and the store changes only on the redirect |
| NewPostProperties.ActionKeepsStoreComplete | app/routes/posts+/admin+/new.tsx:38-51 | if no stored post has an empty field, none has one after the action |
| NewPostProperties.LaterEntriesKeepFields | app/routes/posts+/admin+/new.tsx:33-35 | once `title`, `slug` and `markdown` are present, entries submitted after them do not change the three values read |
| NewPostProperties.LaterEntriesIgnored | app/routes/posts+/admin+/new.tsx:33-35 | once the three fields are present, entries submitted after them do not change the action's answer or the store |
| NewPostProperties.NewPostScenario | app/routes/posts+/admin+/new.tsx:51-53 | an administrator submitting title "T", slug "t" and markdown "m" gets the redirect, and the post is added to the store |
| NewPostProperties.MissingFieldsScenario | app/routes/posts+/admin+/new.tsx:38-45 | an administrator submitting only a title gets the slug and markdown messages with a `null` title entry, and nothing is persisted |

## Left out

- The React components (`NewPostRoute` and the other routes' views): presentation only.
- Session and cookie handling behind `requireAdminUser`: this is the `isAdmin` input. The redirect or response it throws is not modelled beyond `Unauthorized`.
- `invariantResponse`: the model gives no status code or message, only `BadRequest`. The three string checks all give the same outcome, so their order is not observable.
- `createPost`: its body is not part of this model. The model keeps the store as a list and puts a new post last; where the real `createPost` places it is unknown. Slug uniqueness and conflicts are not modelled because this route relies on neither.
- Failures that throw out of the action: `request.formData()` rejects on a body that is not form data, and `createPost` rejects when the store fails. The model assumes both succeed, so `Action` has no outcome for either.
- The update and delete flows, intent dispatch, the `"new"` sentinel and not-found handling belong to other routes and are not part of this model.
- The listing loaders, `getPosts`, markdown rendering and the environment schema: they are plain data plumbing with no checks to model.
- `json(...)` and `redirect(...)` response encoding, headers and status codes: only the payload and the redirect target are modelled.
- Asynchrony: the awaited calls run one after another, so the action is a single pure function.
