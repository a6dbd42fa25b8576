/** The form that starts a suggestion: two text fields, submitted trimmed
    and only when both hold more than whitespace. */
module SuggestionForm {
  import opened Base
  import opened Text

  datatype Form = Form(title: string, description: string)

  /** The arguments `onSubmit` receives. */
  datatype Entry = Entry(title: string, description: string)

  /** The fields after a submit, and the call to `onSubmit` if one was
      made. */
  datatype Submission = Submission(form: Form, sent: Option<Entry>)

  /** `handleSubmit`: a call with the trimmed fields, which are then
      cleared, exactly when both trimmed fields are non-empty; otherwise no
      call and the fields stay as typed. */
  function Submit(f: Form): (r: Submission)
    ensures r.sent.Some? <==> !AllWhitespace(f.title) && !AllWhitespace(f.description)
    ensures r.sent.Some? ==>
      && r.sent.value == Entry(Trim(f.title), Trim(f.description))
      && r.form == Form("", "")
    ensures r.sent.None? ==> r.form == f
  {
    TrimSpec(f.title);
    TrimSpec(f.description);
    var title, description := Trim(f.title), Trim(f.description);
    if title != "" && description != "" then Submission(Form("", ""), Some(Entry(title, description)))
    else Submission(f, None)
  }

  /** The submit button is enabled. */
  predicate SubmitEnabled(loading: bool, f: Form) {
    !(loading || Trim(f.title) == "" || Trim(f.description) == "")
  }

  /** The button is enabled exactly when not busy and a submit would go
      through. */
  lemma SubmitButtonMatchesGuard(loading: bool, f: Form)
    ensures SubmitEnabled(loading, f) <==> !loading && Submit(f).sent.Some?
  {
  }

  /** What `onSubmit` receives is non-empty, carries no surrounding
      whitespace, and would be submitted unchanged if typed again. */
  lemma SubmittedEntryIsClean(f: Form)
    requires Submit(f).sent.Some?
    ensures var e := Submit(f).sent.value;
      && e.title != "" && e.description != ""
      && IsTrimmed(e.title) && IsTrimmed(e.description)
      && Submit(Form(e.title, e.description)).sent == Some(e)
  {
    TrimSpec(f.title);
    TrimSpec(f.description);
    TrimIdempotent(f.title);
    TrimIdempotent(f.description);
  }
}
