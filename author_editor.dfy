/** The author editor's form state (src/components/AuthorEditor.tsx): loading a
    stored article into the form, the field edits, the save payload and what a
    save does to the form afterwards. The rich-text document is not modelled;
    `slugify` is a parameter, and so are the signed-in user, the clock and the
    backend's answers. */
module AuthorEditor {
  import opened Types
  import opened JsString
  import opened Tags
  import opened EditorSettings

  /** The values of the form's state hooks (everything but message and saving). */
  datatype Form = Form(
    title: string,
    subtitle: string,
    slug: string,
    excerpt: string,
    coverUrl: string,
    tags: string,
    status: ArticleStatus,
    publishedAt: Option<string>,
    settings: ArticleSettings)

  /** The form of a freshly mounted editor. */
  const InitialForm: Form := Form("", "", "", "", "", "", Draft, None, Defaults)

  // ---------------------------------------------------------------- load

  /** The columns the editor reads back for an article; None is a null column. */
  datatype StoredArticle = StoredArticle(
    title: Option<string>,
    subtitle: Option<string>,
    slug: Option<string>,
    excerpt: Option<string>,
    coverUrl: Option<string>,
    tags: Option<seq<string>>,
    status: Option<ArticleStatus>,
    publishedAt: Option<string>,
    settings: Option<ArticleSettings>)

  /** `field ?? ""`: the stored text, or "" for a null column. */
  predicate LoadsText(field: string, stored: Option<string>) {
    if stored.Some? then field == stored.value else field == ""
  }

  /** The form after a stored article is loaded into `f`: null columns become
      empty strings, no tags, "draft" and no timestamp; stored settings are laid
      over the settings the form already had. */
  function Loaded(f: Form, a: StoredArticle): (r: Form)
    ensures LoadsText(r.title, a.title) && LoadsText(r.subtitle, a.subtitle)
    ensures LoadsText(r.slug, a.slug) && LoadsText(r.excerpt, a.excerpt)
    ensures LoadsText(r.coverUrl, a.coverUrl)
    ensures a.tags.Some? ==> r.tags == ShowTags(a.tags.value)
    ensures a.tags.None? ==> r.tags == ""
    ensures a.status.Some? ==> r.status == a.status.value
    ensures a.status.None? ==> r.status == Draft
    ensures r.publishedAt == a.publishedAt
    ensures r.settings == Overlay(f.settings, a.settings.GetOr(NoSettings))
    ensures Agrees(r.settings, a.settings.GetOr(NoSettings))
  {
    Form(
      title := a.title.GetOr(""),
      subtitle := a.subtitle.GetOr(""),
      slug := a.slug.GetOr(""),
      excerpt := a.excerpt.GetOr(""),
      coverUrl := a.coverUrl.GetOr(""),
      tags := ShowTags(a.tags.GetOr([])),
      status := a.status.GetOr(Draft),
      publishedAt := a.publishedAt,
      settings := Overlay(f.settings, a.settings.GetOr(NoSettings)))
  }

  // ---------------------------------------------------------------- edits

  /** One change made through a draft control or a configuration control. */
  datatype Edit =
    | Title(text: string)
    | Subtitle(text: string)
    | Slug(text: string)
    | Excerpt(text: string)
    | CoverUrl(text: string)
    | TagField(text: string)
    | Status(choice: ArticleStatus)
    | Setting(change: SettingEdit)

  /** The value the edit carries, as the form field it sets; a title edit also
      sets the slug to the slugified title. */
  predicate SetsField(r: Form, e: Edit, slugify: string -> string) {
    match e
    case Title(t) => r.title == t && r.slug == slugify(t)
    case Subtitle(t) => r.subtitle == t
    case Slug(t) => r.slug == t
    case Excerpt(t) => r.excerpt == t
    case CoverUrl(t) => r.coverUrl == t
    case TagField(t) => r.tags == t
    case Status(s) => r.status == s
    case Setting(c) => Carries(r.settings, c)
  }

  /** `r` and `f` agree on every field the edit does not set. */
  predicate FormSameExcept(r: Form, f: Form, e: Edit) {
    && (e.Title? || r.title == f.title)
    && (e.Subtitle? || r.subtitle == f.subtitle)
    && (e.Title? || e.Slug? || r.slug == f.slug)
    && (e.Excerpt? || r.excerpt == f.excerpt)
    && (e.CoverUrl? || r.coverUrl == f.coverUrl)
    && (e.TagField? || r.tags == f.tags)
    && (e.Status? || r.status == f.status)
    && r.publishedAt == f.publishedAt
    && (e.Setting? || r.settings == f.settings)
  }

  /** The form after an edit: the control's own field takes the new value (a title
      edit also re-derives the slug), a settings control changes only its own
      setting, and every other field is kept. */
  function Edited(f: Form, e: Edit, slugify: string -> string): (r: Form)
    ensures SetsField(r, e, slugify)
    ensures FormSameExcept(r, f, e)
    ensures e.Setting? ==> SameExcept(r.settings, f.settings, e.change)
  {
    match e
    case Title(t) => f.(title := t, slug := slugify(t))
    case Subtitle(t) => f.(subtitle := t)
    case Slug(t) => f.(slug := t)
    case Excerpt(t) => f.(excerpt := t)
    case CoverUrl(t) => f.(coverUrl := t)
    case TagField(t) => f.(tags := t)
    case Status(s) => f.(status := s)
    case Setting(c) => f.(settings := ApplySetting(f.settings, c))
  }

  // ---------------------------------------------------------------- save

  /** The row handleSave writes (the document's JSON and HTML are not modelled). */
  datatype Payload = Payload(
    authorId: string,
    title: string,
    subtitle: string,
    slug: string,
    excerpt: string,
    coverUrl: string,
    tags: seq<string>,
    status: ArticleStatus,
    settings: ArticleSettings,
    publishedAt: Option<string>)

  /** The write a save sends: an update keyed by the article id, or an insert. */
  datatype Request = Insert(payload: Payload) | Update(id: string, payload: Payload)

  /** The backend's answer to the write: its error message, or success with the
      id an insert returned (if any). */
  datatype BackendResult = Failed(message: string) | Saved(insertedId: Option<string>)

  /** `slug || slugify(title)`: the slug field unless it is empty. */
  function SavedSlug(slug: string, title: string, slugify: string -> string): (r: string)
    ensures slug != "" ==> r == slug
    ensures slug == "" ==> r == slugify(title)
  {
    if slug != "" then slug else slugify(title)
  }

  /** `status === "published" ? publishedAt ?? now : null`. */
  function PayloadStamp(status: ArticleStatus, publishedAt: Option<string>, now: string): (r: Option<string>)
    ensures r.Some? <==> status == Published
    ensures status == Published && publishedAt.Some? ==> r == publishedAt
    ensures status == Published && publishedAt.None? ==> r == Some(now)
  {
    if status == Published then Some(publishedAt.GetOr(now)) else None
  }

  /** The payload built from the form by the signed-in author at clock reading `now`. */
  function BuildPayload(f: Form, authorId: string, now: string, slugify: string -> string): (p: Payload)
    ensures p.authorId == authorId && p.status == f.status && p.settings == f.settings
    ensures p.title == f.title && p.subtitle == f.subtitle && p.excerpt == f.excerpt
    ensures p.coverUrl == f.coverUrl
    ensures f.slug != "" ==> p.slug == f.slug
    ensures f.slug == "" ==> p.slug == slugify(f.title)
    ensures forall i :: 0 <= i < |p.tags| ==> p.tags[i] != "" && Trimmed(p.tags[i])
    ensures |p.tags| <= Occurrences(f.tags, ',') + 1
    ensures IsSubsequence(p.tags, TrimAll(Split(f.tags, ',')))
    ensures p.tags == ParseTags(f.tags)
    ensures p.publishedAt.Some? <==> f.status == Published
    ensures f.status == Published && f.publishedAt.Some? ==> p.publishedAt == f.publishedAt
    ensures f.status == Published && f.publishedAt.None? ==> p.publishedAt == Some(now)
  {
    Payload(
      authorId := authorId,
      title := f.title,
      subtitle := f.subtitle,
      slug := SavedSlug(f.slug, f.title, slugify),
      excerpt := f.excerpt,
      coverUrl := f.coverUrl,
      tags := ParseTags(f.tags),
      status := f.status,
      settings := f.settings,
      publishedAt := PayloadStamp(f.status, f.publishedAt, now))
  }

  /** `articleId ? update(...).eq("id", articleId) : insert(...)`. */
  function RequestFor(articleId: Option<string>, p: Payload): (r: Request)
    ensures r.payload == p
    ensures r.Update? <==> Truthy(articleId)
    ensures r.Update? ==> r.id == articleId.value
  {
    if Truthy(articleId) then Update(articleId.value, p) else Insert(p)
  }

  /** The form's publishedAt after the write answered: stamped with the clock
      reading `later` on a successful save of a published article whose
      publishedAt was unset (null or ""), otherwise left as it was. */
  function StampAfterSave(status: ArticleStatus, publishedAt: Option<string>, result: BackendResult, later: string): (r: Option<string>)
    ensures result.Failed? ==> r == publishedAt
    ensures status == Draft ==> r == publishedAt
    ensures Truthy(publishedAt) ==> r == publishedAt
    ensures result.Saved? && status == Published ==> r.Some?
    ensures r != publishedAt <==> result.Saved? && status == Published && !Truthy(publishedAt) && publishedAt != Some(later)
    ensures r != publishedAt ==> r == Some(later)
  {
    if result.Saved? && status == Published && !Truthy(publishedAt) then Some(later) else publishedAt
  }

  const SignInMessage: string := "Please sign in as an author."
  const SavedMessage: string := "Draft saved."

  /** The editor route for an article id. */
  function EditorPath(id: string): string {
    "/author/editor?id=" + id
  }

  /** Where a finished save navigates: to the new article's editor page, only
      when the editor had no article id (null, not "") and the insert returned a
      non-empty id. */
  function NavigationAfterSave(articleId: Option<string>, result: BackendResult): (r: Option<string>)
    ensures r.Some? <==> articleId.None? && result.Saved? && Truthy(result.insertedId)
    ensures r.Some? ==> r == Some(EditorPath(result.insertedId.value))
  {
    var newId := if articleId.Some? then articleId
                 else if result.Saved? then result.insertedId
                 else None;
    if !Truthy(articleId) && result.Saved? && Truthy(newId) then Some(EditorPath(newId.value)) else None
  }

  // ---------------------------------------------------------------- the component

  /** One mounted editor: the state hooks of AuthorEditor as fields. */
  class Editor {
    /** The `articleId` prop (null when creating a new article). */
    const articleId: Option<string>
    /** The slug library, left uninterpreted. */
    const slugify: string -> string

    var title: string
    var subtitle: string
    var slug: string
    var excerpt: string
    var coverUrl: string
    var tags: string
    var status: ArticleStatus
    var publishedAt: Option<string>
    var settings: ArticleSettings
    var message: Option<string>
    var saving: bool
    /** The route `router.push` was last sent to, if any. */
    var navigatedTo: Option<string>

    function FormState(): Form
      reads this
    {
      Form(title, subtitle, slug, excerpt, coverUrl, tags, status, publishedAt, settings)
    }

    constructor (articleId: Option<string>, slugify: string -> string)
      ensures this.articleId == articleId && this.slugify == slugify
      ensures FormState() == InitialForm
      ensures message == None && !saving && navigatedTo == None
    {
      this.articleId := articleId;
      this.slugify := slugify;
      title, subtitle, slug, excerpt, coverUrl, tags := "", "", "", "", "", "";
      status := Draft;
      publishedAt := None;
      settings := Defaults;
      message := None;
      saving := false;
      navigatedTo := None;
    }

    /** loadArticle: nothing happens without an article id or when the row is not
        found; otherwise the form takes the row's values. */
    method Load(row: Option<StoredArticle>)
      modifies this`title, this`subtitle, this`slug, this`excerpt, this`coverUrl, this`tags, this`status, this`publishedAt, this`settings
      ensures Truthy(articleId) && row.Some? ==> FormState() == Loaded(old(FormState()), row.value)
      ensures !(Truthy(articleId) && row.Some?) ==> FormState() == old(FormState())
    {
      if Truthy(articleId) && row.Some? {
        var next := Loaded(FormState(), row.value);
        title, subtitle, slug, excerpt, coverUrl := next.title, next.subtitle, next.slug, next.excerpt, next.coverUrl;
        tags, status, publishedAt, settings := next.tags, next.status, next.publishedAt, next.settings;
      }
    }

    /** A control's onChange handler. */
    method Change(e: Edit)
      modifies this`title, this`subtitle, this`slug, this`excerpt, this`coverUrl, this`tags, this`status, this`publishedAt, this`settings
      ensures FormState() == Edited(old(FormState()), e, slugify)
    {
      match e
      case Title(t) =>
        title := t;
        slug := slugify(t);
      case Subtitle(t) => subtitle := t;
      case Slug(t) => slug := t;
      case Excerpt(t) => excerpt := t;
      case CoverUrl(t) => coverUrl := t;
      case TagField(t) => tags := t;
      case Status(s) => status := s;
      case Setting(c) => settings := ApplySetting(settings, c);
    }

    /** handleSave, with the editor's readiness, the signed-in user, the two clock
        readings (for the payload and after the write) and the backend's answer as
        parameters. Returns the write it sends, if any. */
    method Save(editorReady: bool, user: Option<string>, now: string, result: BackendResult, later: string)
      returns (request: Option<Request>)
      modifies this`publishedAt, this`message, this`saving, this`navigatedTo
      ensures !editorReady ==>
        request == None && unchanged(`publishedAt, `message, `saving, `navigatedTo)
      ensures editorReady ==> !saving
      ensures editorReady && user.None? ==>
        request == None && message == Some(SignInMessage) && unchanged(`publishedAt, `navigatedTo)
      ensures editorReady && user.Some? ==>
        && request == Some(RequestFor(articleId, BuildPayload(old(FormState()), user.value, now, slugify)))
        && message == Some(if result.Failed? then result.message else SavedMessage)
        && publishedAt == StampAfterSave(status, old(publishedAt), result, later)
        && navigatedTo == (if NavigationAfterSave(articleId, result).Some? then NavigationAfterSave(articleId, result) else old(navigatedTo))
    {
      if !editorReady {
        return None;
      }
      saving := true;
      message := None;
      if user.None? {
        message := Some(SignInMessage);
        saving := false;
        return None;
      }
      request := Some(RequestFor(articleId, BuildPayload(FormState(), user.value, now, slugify)));
      Settle(result, later);
      saving := false;
    }

    /** The part of handleSave after the write answered: the backend's error text
        verbatim, or "Draft saved." with the first-publish stamp and the
        navigation to a newly inserted article. */
    method Settle(result: BackendResult, later: string)
      modifies this`publishedAt, this`message, this`navigatedTo
      ensures message == Some(if result.Failed? then result.message else SavedMessage)
      ensures publishedAt == StampAfterSave(status, old(publishedAt), result, later)
      ensures navigatedTo == (if NavigationAfterSave(articleId, result).Some? then NavigationAfterSave(articleId, result) else old(navigatedTo))
    {
      if result.Failed? {
        message := Some(result.message);
      } else {
        if status == Published && !Truthy(publishedAt) {
          publishedAt := Some(later);
        }
        message := Some(SavedMessage);
        var target := NavigationAfterSave(articleId, result);
        if target.Some? {
          navigatedTo := target;
        }
      }
    }
  }

  // ---------------------------------------------------------------- properties

  /** After a title edit the saved slug is the slugified title, even over a slug typed by hand. */
  lemma SlugFollowsTitleEdit(f: Form, manual: string, t: string, user: string, now: string, slugify: string -> string)
    ensures BuildPayload(Edited(Edited(f, Slug(manual), slugify), Title(t), slugify), user, now, slugify).slug == slugify(t)
  {
    var g := Edited(Edited(f, Slug(manual), slugify), Title(t), slugify);
    assert g.slug == slugify(t) && g.title == t;
  }

  /** A stored article whose slug is set and whose tags are clean is written back as it
      was stored when it is loaded and saved unchanged: same title, slug, tags, status
      and timestamp, and its stored settings win over the form's. */
  lemma {:induction false} LoadThenSave(f: Form, a: StoredArticle, user: string, now: string, slugify: string -> string)
    requires a.slug.Some? && a.slug.value != ""
    requires a.tags.Some? && forall i :: 0 <= i < |a.tags.value| ==> CleanTag(a.tags.value[i])
    ensures var p := BuildPayload(Loaded(f, a), user, now, slugify);
      && p.title == a.title.GetOr("")
      && p.slug == a.slug.value
      && p.tags == a.tags.value
      && p.status == a.status.GetOr(Draft)
      && (p.status == Published && a.publishedAt.Some? ==> p.publishedAt == a.publishedAt)
      && (p.status == Draft ==> p.publishedAt == None)
      && Agrees(p.settings, a.settings.GetOr(NoSettings))
  {
    TagsRoundTrip(a.tags.value);
  }

  /** A save sends a timestamp exactly for a published article. */
  lemma PublishedIffStamped(f: Form, user: string, now: string, slugify: string -> string)
    ensures BuildPayload(f, user, now, slugify).publishedAt.Some? <==> f.status == Published
  {
  }

  /** First publish: the write carries the clock reading `now`, but the form keeps the
      later reading `later`, which the next save from the same form writes. For an
      article that already had an id that save is an update, so the stored timestamp
      moves whenever the two readings differ. (After a first insert the editor
      navigates to the new article and reloads the stored timestamp instead.) */
  lemma FirstPublishStampMoves(f: Form, user: string, now: string, later: string, next: string, slugify: string -> string, id: Option<string>)
    requires f.status == Published && f.publishedAt.None?
    ensures var first := BuildPayload(f, user, now, slugify);
      var f' := f.(publishedAt := StampAfterSave(f.status, f.publishedAt, Saved(id), later));
      var second := BuildPayload(f', user, next, slugify);
      && first.publishedAt == Some(now)
      && second.publishedAt == Some(later)
      && (now != later ==> second.publishedAt != first.publishedAt)
  {
  }

  /** A draft save sends no timestamp yet keeps the form's; publishing again reuses it. */
  lemma RepublishReusesStamp(f: Form, stamp: string, user: string, now: string, now': string, slugify: string -> string, result: BackendResult, later: string)
    requires f.status == Draft && f.publishedAt == Some(stamp)
    ensures BuildPayload(f, user, now, slugify).publishedAt == None
    ensures StampAfterSave(f.status, f.publishedAt, result, later) == Some(stamp)
    ensures BuildPayload(Edited(f, Status(Published), slugify), user, now', slugify).publishedAt == Some(stamp)
  {
    var g := Edited(f, Status(Published), slugify);
    assert g == f.(status := Published);
    assert PayloadStamp(g.status, g.publishedAt, now') == Some(stamp);
  }

  /** An editor opened with an empty id (`?id=`) inserts on save and never navigates. */
  lemma EmptyIdInsertsWithoutNavigating(p: Payload, result: BackendResult)
    ensures RequestFor(Some(""), p) == Insert(p)
    ensures NavigationAfterSave(Some(""), result) == None
  {
  }
}
