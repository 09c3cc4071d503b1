/**
 * The transaction form: the four checks made before a transaction is saved,
 * in the order the form makes them, and the record built from the fields.
 */
module Forms {
  import opened Wrappers
  import opened Ledger

  /** The form fields as read: an empty date input is `None`, and so is an
      amount that does not parse as a number. */
  datatype TransactionForm = TransactionForm(id: string, date: Option<int>, clientId: string,
                                             txType: string, category: string, amount: Option<real>)

  datatype FormError = DateMissing | ClientMissing | TypeMissing | InvalidAmount

  /** The alert shown for each refusal. */
  function Alert(e: FormError): string
  {
    match e
    case DateMissing => "Please select a date"
    case ClientMissing => "Please select a client"
    case TypeMissing => "Please select a transaction type"
    case InvalidAmount => "Please enter a valid amount"
  }

  /** Every check the fields fail, in the form's order. */
  function Problems(form: TransactionForm): seq<FormError>
  {
    (if form.date.None? then [DateMissing] else [])
    + (if form.clientId == "" then [ClientMissing] else [])
    + (if form.txType == "" then [TypeMissing] else [])
    + (if form.amount.None? || form.amount.value <= 0.0 then [InvalidAmount] else [])
  }

  /** The submit handler's checks: the first failing one is reported, and a form
      passing all four becomes a transaction with a positive amount. */
  function ValidateTransaction(form: TransactionForm): (r: Result<Transaction, FormError>)
    ensures r.Success? <==> form.date.Some? && form.clientId != "" && form.txType != ""
                            && form.amount.Some? && form.amount.value > 0.0
    ensures r == Failure(DateMissing) <==> form.date.None?
    ensures r == Failure(ClientMissing) <==> form.date.Some? && form.clientId == ""
    ensures r == Failure(TypeMissing) <==> form.date.Some? && form.clientId != "" && form.txType == ""
    ensures r == Failure(InvalidAmount) <==> form.date.Some? && form.clientId != "" && form.txType != ""
                                             && (form.amount.None? || form.amount.value <= 0.0)
    ensures r.Success? ==> r.value.amount > 0.0 && r.value.date == form.date.value
                           && r.value.clientId == form.clientId && r.value.id == form.id
                           && r.value.category == form.category
                           && r.value.txType == ParseTxType(form.txType)
  {
    if form.date.None? then Failure(DateMissing)
    else if form.clientId == "" then Failure(ClientMissing)
    else if form.txType == "" then Failure(TypeMissing)
    else if form.amount.None? || form.amount.value <= 0.0 then Failure(InvalidAmount)
    else Success(Transaction(form.id, form.date.value, form.clientId, ParseTxType(form.txType),
                             form.category, form.amount.value))
  }

  /** The validation agrees with the list of problems: it succeeds exactly when
      there are none, and otherwise reports the first. */
  lemma ReportsFirstProblem(form: TransactionForm)
    ensures ValidateTransaction(form).Success? <==> Problems(form) == []
    ensures ValidateTransaction(form).Failure? ==> ValidateTransaction(form).error == Problems(form)[0]
  {
  }

  /** A form missing everything is refused for its date first. */
  lemma EmptyFormNeedsDate()
    ensures ValidateTransaction(TransactionForm("t1", None, "", "", "", None)) == Failure(DateMissing)
  {
  }
}
