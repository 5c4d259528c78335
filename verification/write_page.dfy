/** The write page: its guard, the form's validation, and the record it
    writes for a new post. */
module WritePage {
  import opened JsValues
  import opened Session
  import Text

  // ------------------------------------------------------------- guard

  /** What the page shows. */
  datatype View = LoadingView | Blank | Form

  /** The guard effect: where it sends the browser, if anywhere. Only a
      signed-out visitor is sent away, and only to the login page. */
  function GuardRedirect(status: Status): (r: Option<string>)
    ensures r.Some? <==> status == Unauthenticated
    ensures r.Some? ==> r.value == "/login"
  {
    if status == Unauthenticated then Some("/login") else None
  }

  /** The render decision before the form: the loading view exactly while
      loading, and the form only once a session user is there. */
  function GuardView(status: Status, session: Option<SessionUser>): (v: View)
    ensures v == LoadingView <==> status == Loading
    ensures v == Form <==> status != Loading && session.Some?
  {
    if status == Loading then LoadingView
    else if session.None? then Blank
    else Form
  }

  /** While loading: a loading view and no redirect. Signed out: sent to the
      login page and nothing rendered (the session context has no user then).
      The form shows only with a session. */
  lemma GuardDecisions(status: Status, session: Option<SessionUser>)
    ensures status == Loading ==> GuardView(status, session) == LoadingView && GuardRedirect(status).None?
    ensures status == Unauthenticated && session.None? ==>
      GuardRedirect(status) == Some("/login") && GuardView(status, session) == Blank
    ensures GuardView(status, session) == Form ==> session.Some? && status != Loading
  {
  }

  // -------------------------------------------------------- validation

  /** `!s.trim()`. */
  predicate IsBlank(s: string) {
    Text.Trim(s) == []
  }

  /** The submit check: neither the title nor the content may be blank,
      i.e. each must hold a character that is not white space. */
  function Validate(title: string, content: string): (ok: bool)
    ensures ok <==>
      (exists i :: 0 <= i < |title| && !Text.IsJsWhitespace(title[i])) &&
      (exists j :: 0 <= j < |content| && !Text.IsJsWhitespace(content[j]))
  {
    Text.TrimEmptyIffBlank(title);
    Text.TrimEmptyIffBlank(content);
    !IsBlank(title) && !IsBlank(content)
  }

  // ------------------------------------------------------------ record

  /** The document written for a new post; `createdAt` is a server time stamp
      and is left out. */
  datatype PostRecord = PostRecord(
    title: string,
    content: string,
    category: string,
    authorId: Option<string>,
    authorName: string,
    views: int,
    likes: int,
    commentCount: int)

  function BuildRecord(title: string, content: string, category: string, user: SessionUser): (r: PostRecord)
    ensures r.views == 0 && r.likes == 0 && r.commentCount == 0
    ensures r.title == title && r.content == content && r.category == category
    ensures r.authorId == user.id
    ensures IsFalsyString(user.name) ==> r.authorName == "익명"
    ensures !IsFalsyString(user.name) ==> r.authorName == user.name.value
  {
    PostRecord(title, content, category, user.id, StringOr(user.name, "익명"), 0, 0, 0)
  }

  /** How a submit ends. */
  datatype SubmitOutcome =
    | Rejected                                 // alert: title and content required
    | Posted(record: PostRecord, next: string) // written; go to the board
    | Failed                                   // the write threw; alert

  /** The form's state. */
  class WriteForm {
    var title: string
    var content: string
    var category: string
    var isSubmitting: bool

    constructor ()
      ensures title == "" && content == "" && category == "free" && !isSubmitting
    {
      title := "";
      content := "";
      category := "free";
      isSubmitting := false;
    }

    method SetTitle(value: string)
      modifies this`title
      ensures title == value
    {
      title := value;
    }

    method SetContent(value: string)
      modifies this`content
      ensures content == value
    {
      content := value;
    }

    method SetCategory(value: string)
      modifies this`category
      ensures category == value
    {
      category := value;
    }

    /** `handleSubmit`, reachable only while a session user is present;
        `writeOk` says whether the document store accepted the write. */
    method HandleSubmit(user: SessionUser, writeOk: bool) returns (outcome: SubmitOutcome)
      modifies this`isSubmitting
      ensures outcome.Rejected? <==> !Validate(title, content)
      ensures outcome.Rejected? ==> isSubmitting == old(isSubmitting)
      ensures outcome.Posted? <==> Validate(title, content) && writeOk
      ensures outcome.Posted? ==>
        outcome.record == BuildRecord(title, content, category, user) &&
        outcome.next == "/community" && isSubmitting
      ensures outcome.Failed? ==> !isSubmitting
    {
      if !Validate(title, content) {
        return Rejected;
      }
      isSubmitting := true;
      if writeOk {
        outcome := Posted(BuildRecord(title, content, category, user), "/community");
      } else {
        isSubmitting := false;
        outcome := Failed;
      }
    }
  }

  /** A form whose title is only white space is rejected whatever the
      content, and a non-blank pair goes to the store. */
  method SubmitScenario(title: string, content: string, user: SessionUser, writeOk: bool)
    returns (outcome: SubmitOutcome, submitting: bool)
    ensures (forall i :: 0 <= i < |title| ==> Text.IsJsWhitespace(title[i])) ==> outcome == Rejected && !submitting
    ensures outcome.Posted? ==> outcome.record.category == "free" && outcome.record.views == 0
    ensures outcome.Posted? <==> Validate(title, content) && writeOk
  {
    var blankTitle := forall i :: 0 <= i < |title| ==> Text.IsJsWhitespace(title[i]);
    if blankTitle {
      BlankTitleInvalid(title, content);
    }
    var valid := Validate(title, content);
    var form := FillIn(title, content);
    outcome := form.HandleSubmit(user, writeOk);
    submitting := form.isSubmitting;
    assert blankTitle ==> !valid;
  }

  /** A fresh form with the title and the content typed in. */
  method FillIn(title: string, content: string) returns (form: WriteForm)
    ensures fresh(form)
    ensures form.title == title && form.content == content
    ensures form.category == "free" && !form.isSubmitting
  {
    form := new WriteForm();
    form.SetTitle(title);
    form.SetContent(content);
  }

  /** A title of white space only fails validation, whatever the content. */
  lemma BlankTitleInvalid(title: string, content: string)
    requires forall i :: 0 <= i < |title| ==> Text.IsJsWhitespace(title[i])
    ensures !Validate(title, content)
  {
    Text.TrimEmptyIffBlank(title);
  }
}
