/**
 * The input check of the transaction form (src/components/TransactionForm.jsx):
 * the schema its fields must pass, and the conversion of the amount text to
 * a number when the form is submitted. The dialog and the form library's
 * state are rendering and are not modelled.
 *
 * `parseFloat` is a parameter: it gives the number the text denotes, in
 * whole cents, or `None` where JavaScript would give `NaN`.
 */
module TransactionForm {
  import opened Wrappers
  import Routes

  /** The four text fields of the form. */
  datatype FormData = FormData(amount: string, description: string, date: string, category: string)

  datatype Field = Amount | Description | DateField | Category

  /** What `onFormSubmit` hands on: the fields, with the amount parsed. */
  datatype Submission = Submission(amount: int, description: string, date: string, category: string)

  /** The schema's verdict: the submission, or the fields that failed. */
  datatype Checked = Accepted(submission: Submission) | Rejected(fields: set<Field>)

  /** The choices the category select offers. The schema does not consult them. */
  const Categories: seq<string> := [
    "Food & Dining", "Shopping", "Transportation", "Entertainment", "Bills & Utilities",
    "Healthcare", "Housing", "Income", "Other"]

  /** `min(1)` and the refinement: present, a number, and not zero. */
  predicate AmountOk(amount: string, parseFloat: string -> Option<int>)
  {
    |amount| >= 1 && parseFloat(amount).Some? && parseFloat(amount).value != 0
  }

  /** `min(1)` and `max(100)`: at most 100 characters, although its message says "less than 100". */
  predicate DescriptionOk(description: string)
  {
    1 <= |description| <= 100
  }

  predicate DateOk(date: string)
  {
    |date| >= 1
  }

  predicate CategoryOk(category: string)
  {
    |category| >= 1
  }

  /** The fields whose schema entry fails. */
  function FailingFields(data: FormData, parseFloat: string -> Option<int>): set<Field>
  {
    (if AmountOk(data.amount, parseFloat) then {} else {Amount}) +
    (if DescriptionOk(data.description) then {} else {Description}) +
    (if DateOk(data.date) then {} else {DateField}) +
    (if CategoryOk(data.category) then {} else {Category})
  }

  /**
   * Validation followed by `onFormSubmit`'s `{ ...data, amount: parseFloat(data.amount) }`.
   * The form is accepted exactly when every field passes; a rejection names
   * exactly the failing fields; an accepted form keeps every field but the
   * amount, which becomes its parsed, non-zero number.
   */
  function Submit(data: FormData, parseFloat: string -> Option<int>): (r: Checked)
    ensures r.Accepted? <==>
              AmountOk(data.amount, parseFloat) && DescriptionOk(data.description) &&
              DateOk(data.date) && CategoryOk(data.category)
    ensures r.Accepted? ==>
              parseFloat(data.amount).Some? && r.submission.amount == parseFloat(data.amount).value &&
              r.submission.amount != 0 &&
              r.submission.description == data.description && r.submission.date == data.date &&
              r.submission.category == data.category
    ensures r.Rejected? ==> r.fields != {}
    ensures r.Rejected? ==>
              (Amount in r.fields <==> !AmountOk(data.amount, parseFloat)) &&
              (Description in r.fields <==> !DescriptionOk(data.description)) &&
              (DateField in r.fields <==> !DateOk(data.date)) &&
              (Category in r.fields <==> !CategoryOk(data.category))
  {
    var failing := FailingFields(data, parseFloat);
    if failing == {} then
      assert Amount !in failing && Description !in failing && DateField !in failing && Category !in failing;
      Accepted(Submission(parseFloat(data.amount).value, data.description, data.date, data.category))
    else
      Rejected(failing)
  }

  /** An empty amount, date or category is rejected, whatever the other fields hold. */
  lemma EmptyFieldsRejected(data: FormData, parseFloat: string -> Option<int>)
    requires data.amount == "" || data.date == "" || data.category == ""
    ensures Submit(data, parseFloat).Rejected?
  {
  }

  /** A description of exactly 100 characters passes; one of 101 does not. */
  lemma DescriptionBoundary(data: FormData, parseFloat: string -> Option<int>)
    requires AmountOk(data.amount, parseFloat) && DateOk(data.date) && CategoryOk(data.category)
    ensures |data.description| == 100 ==> Submit(data, parseFloat).Accepted?
    ensures |data.description| == 101 ==> Submit(data, parseFloat).Rejected?
  {
  }

  /** A category outside the select's list passes the schema. */
  lemma CategoryNotRestricted(data: FormData, parseFloat: string -> Option<int>)
    requires AmountOk(data.amount, parseFloat) && DescriptionOk(data.description) && DateOk(data.date)
    requires data.category == "Travel"
    ensures data.category !in Categories
    ensures Submit(data, parseFloat).Accepted?
  {
  }

  /** The JSON body the submission becomes when it is posted. */
  function AsPostBody(s: Submission): Routes.PostBody
  {
    Routes.PostBody(Some(Routes.JsNumber(s.amount)), Some(Routes.JsString(s.description)),
                    Some(Routes.JsString(s.category)))
  }

  /** Whatever the form accepts gets past the `POST` handler's required-fields check. */
  lemma AcceptedFormHasRequiredFields(data: FormData, parseFloat: string -> Option<int>)
    requires Submit(data, parseFloat).Accepted?
    ensures Routes.HasRequiredFields(AsPostBody(Submit(data, parseFloat).submission))
  {
  }
}
