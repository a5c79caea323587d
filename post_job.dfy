/** The post-job form: the validation ladder, the inserted job record and the submit sequence. */
module PostJob {
  import opened Wrappers

  /** The row inserted into the jobs table; the budget is kept as the text handed to `parseFloat`. */
  datatype NewJob = NewJob(
    title: string,
    description: string,
    categoryId: int,
    clientId: string,
    budget: Option<string>,
    location: string,
    status: string)

  datatype Rejection = AuthRequired | RequiredFieldsMissing

  /** The checks before any write, in source order; success yields the poster's id and the category id. */
  function Validate(userId: Option<string>, title: string, description: string, categoryId: Option<int>): Result<(string, int), Rejection>
  {
    if !Truthy(userId) then Failure(AuthRequired)
    else if title == "" || description == "" || !TruthyInt(categoryId) then Failure(RequiredFieldsMissing)
    else Success((userId.value, categoryId.value))
  }

  /**
   * The authentication check comes first: without a user the fields are never looked at. With a
   * user, the form is rejected exactly when the title, the description or the category is missing.
   */
  lemma ValidationLadder(userId: Option<string>, title: string, description: string, categoryId: Option<int>,
                         title': string, description': string, categoryId': Option<int>)
    ensures !Truthy(userId) ==> Validate(userId, title, description, categoryId) == Failure(AuthRequired)
                                 == Validate(userId, title', description', categoryId')
    ensures Validate(userId, title, description, categoryId) == Failure(RequiredFieldsMissing) <==>
      Truthy(userId) && (title == "" || description == "" || !TruthyInt(categoryId))
    ensures Validate(userId, title, description, categoryId).Success? ==>
      Validate(userId, title, description, categoryId).value == (userId.value, categoryId.value)
  {
  }

  /** The inserted record: the form's fields, the current user as poster, status "open", an empty budget as null. */
  function NewJobRecord(clientId: string, categoryId: int, title: string, description: string,
                        budget: string, location: string): NewJob
  {
    NewJob(title, description, categoryId, clientId, EmptyToNull(budget), location, "open")
  }

  /**
   * Every job the form inserts is open, attributed to the signed-in user, carries a chosen category
   * and non-empty title and description, has a null budget exactly when the budget field was empty,
   * and keeps the location text as typed (the empty string included).
   */
  lemma InsertedJobRecord(userId: Option<string>, title: string, description: string, categoryId: Option<int>,
                          budget: string, location: string)
    requires Validate(userId, title, description, categoryId).Success?
    ensures var (client, category) := Validate(userId, title, description, categoryId).value;
      var r := NewJobRecord(client, category, title, description, budget, location);
      && r.status == "open" && Some(r.clientId) == userId && r.clientId != ""
      && Some(r.categoryId) == categoryId && r.categoryId != 0
      && r.title == title && title != "" && r.description == description && description != ""
      && (r.budget.None? <==> budget == "") && (r.budget.Some? ==> r.budget.value == budget)
      && r.location == location
  {
  }

  /** What a submit does: the insert it issues, the toast it shows and where it navigates. */
  datatype SubmitEffects = SubmitEffects(insert: Option<NewJob>, toast: Toast, navigateTo: Option<string>)

  const AuthRequiredToast := Toast("Authentication required", "Please log in to post a job", true)
  const FieldsMissingToast := Toast("Required fields missing", "Please fill all required fields", true)
  const JobPostedToast := Toast("Job posted", "Your job has been successfully posted", false)

  function PostErrorToast(message: string): Toast
  {
    Toast("Error posting job", message, true)
  }

  /** The form's state: the fields, the signed-in user and the loading flag. */
  class PostJobForm {
    var title: string
    var description: string
    var categoryId: Option<int>
    var budget: string
    var location: string
    var userId: Option<string>
    var loading: bool

    constructor (userId: Option<string>)
      ensures this.userId == userId && title == "" && description == "" && categoryId == None
      ensures budget == "" && location == "" && !loading
    {
      this.userId := userId;
      title, description, categoryId, budget, location := "", "", None, "", "";
      loading := false;
    }

    /**
     * Submitting the form. A rejected form issues no insert and leaves `loading` as it was; an
     * accepted one inserts the record once, then navigates to /jobs if the store accepted it and
     * shows the store's error otherwise, and in both cases ends with `loading` false.
     * `insertError` is the store's answer to the insert, should one be issued.
     */
    method HandleSubmit(insertError: Option<string>) returns (effects: SubmitEffects)
      modifies this`loading
      ensures var v := Validate(userId, title, description, categoryId);
        && (v == Failure(AuthRequired) ==>
              effects == SubmitEffects(None, AuthRequiredToast, Some("/auth")) && loading == old(loading))
        && (v == Failure(RequiredFieldsMissing) ==>
              effects == SubmitEffects(None, FieldsMissingToast, None) && loading == old(loading))
        && (v.Success? ==>
              && effects.insert == Some(NewJobRecord(v.value.0, v.value.1, title, description, budget, location))
              && !loading
              && (insertError.None? ==> effects.toast == JobPostedToast && effects.navigateTo == Some("/jobs"))
              && (insertError.Some? ==> effects.toast == PostErrorToast(insertError.value) && effects.navigateTo.None?))
    {
      if !Truthy(userId) {
        effects := SubmitEffects(None, AuthRequiredToast, Some("/auth"));
        return;
      }
      if title == "" || description == "" || !TruthyInt(categoryId) {
        effects := SubmitEffects(None, FieldsMissingToast, None);
        return;
      }
      loading := true;
      var record := NewJobRecord(userId.value, categoryId.value, title, description, budget, location);
      if insertError.None? {
        effects := SubmitEffects(Some(record), JobPostedToast, Some("/jobs"));
      } else {
        effects := SubmitEffects(Some(record), PostErrorToast(insertError.value), None);
      }
      loading := false;
    }
  }
}
