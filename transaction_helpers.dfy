/** The transaction helpers: converting between the Airtable record, the
    form input and the new-transaction shape, building transfers, validating
    and classifying. The current time (`getNow()`) is an input. */
module TransactionHelpers {
  import opened Wrappers
  import opened JsStrings
  import opened Numbers

  /** A transaction as Airtable returns it; the value is text. */
  datatype Transaction = Transaction(id: string, name: string, aiCategory: string, value: string, date: string)

  /** A transaction about to be written; absent optional fields are `None`. */
  datatype NewTransaction = NewTransaction(
    name: string,
    value: Num,
    date: Option<string>,
    category: Option<string>,
    fromAccountId: Option<string>,
    toAccountId: Option<string>)

  /** A value typed into a form: a number or its text. */
  datatype NumberOrText = Number(n: Num) | Text(s: string)

  datatype TransactionInput = TransactionInput(
    name: string,
    value: NumberOrText,
    date: Option<string>,
    category: Option<string>,
    fromAccountId: Option<string>,
    toAccountId: Option<string>)

  /** A partially filled transaction, as `validateTransaction` receives it. */
  datatype DraftTransaction = DraftTransaction(name: Option<string>, value: Option<Num>)

  /** The fields of an Airtable create request; the optional ones are left
      out (`None`) unless the transaction sets them. */
  datatype AirtableFields = AirtableFields(
    name: string,
    value: Num,
    transactionDate: string,
    aiCategory: Option<string>,
    fromAccount: Option<seq<string>>,
    toAccount: Option<seq<string>>)

  /** JavaScript truthiness of an optional string: set and not empty. */
  predicate Truthy(s: Option<string>) {
    s.Some? && s.value != ""
  }

  /** `parseFloat(text) || 0`: a number that is never NaN. */
  function ParseOrZero(text: string): (v: Num)
    ensures v.Finite?
    ensures ParseFloat(text).Finite? ==> v == ParseFloat(text)
  {
    Finite(OrZero(ParseFloat(text)))
  }

  /** `transactionToNewTransaction` */
  function TransactionToNewTransaction(t: Transaction): (r: NewTransaction)
    ensures r.name == t.name && r.date == Some(t.date) && r.category == Some(t.aiCategory)
    ensures r.fromAccountId == None && r.toAccountId == None
    ensures r.value.Finite?
  {
    NewTransaction(t.name, ParseOrZero(t.value), Some(t.date), Some(t.aiCategory), None, None)
  }

  /** An Airtable value holding an integer's text converts to that integer,
      and one without any digit converts to 0. */
  lemma TransactionValueReadBack(t: Transaction, i: int)
    ensures t.value == IntToString(i) ==> TransactionToNewTransaction(t).value == Finite(i as real)
    ensures (forall k :: 0 <= k < |t.value| ==> !IsDigit(t.value[k])) ==>
      TransactionToNewTransaction(t).value == Finite(0.0)
  {
    if t.value == IntToString(i) {
      ParseIntToString(i);
    }
    if forall k :: 0 <= k < |t.value| ==> !IsDigit(t.value[k]) {
      ParseWithoutDigits(t.value);
    }
  }

  /** `newTransactionToAirtableFields`; `now` stands for `getNow()`. */
  function NewTransactionToAirtableFields(t: NewTransaction, now: string): (f: AirtableFields)
    ensures f.name == t.name && f.value == t.value
    ensures f.transactionDate == if Truthy(t.date) then t.date.value else now
    ensures f.aiCategory.Some? <==> Truthy(t.category)
    ensures f.aiCategory.Some? ==> f.aiCategory == t.category
    ensures f.fromAccount.Some? <==> Truthy(t.fromAccountId)
    ensures f.fromAccount.Some? ==> f.fromAccount.value == [t.fromAccountId.value]
    ensures f.toAccount.Some? <==> Truthy(t.toAccountId)
    ensures f.toAccount.Some? ==> f.toAccount.value == [t.toAccountId.value]
  {
    AirtableFields(
      t.name,
      t.value,
      if Truthy(t.date) then t.date.value else now,
      if Truthy(t.category) then t.category else None,
      if Truthy(t.fromAccountId) then Some([t.fromAccountId.value]) else None,
      if Truthy(t.toAccountId) then Some([t.toAccountId.value]) else None)
  }

  /** What a created record says about the transaction it was made from. */
  function FieldsAsTransaction(f: AirtableFields): NewTransaction {
    NewTransaction(
      f.name, f.value, Some(f.transactionDate), f.aiCategory,
      if f.fromAccount.Some? && |f.fromAccount.value| == 1 then Some(f.fromAccount.value[0]) else None,
      if f.toAccount.Some? && |f.toAccount.value| == 1 then Some(f.toAccount.value[0]) else None)
  }

  /** Every optional field is either absent or non-empty, so JavaScript
      truthiness and presence agree. */
  predicate Canonical(t: NewTransaction) {
    (t.date.None? || Truthy(t.date)) && (t.category.None? || Truthy(t.category))
    && (t.fromAccountId.None? || Truthy(t.fromAccountId)) && (t.toAccountId.None? || Truthy(t.toAccountId))
  }

  /** No field is lost on the way to Airtable: a dated transaction whose
      optional fields are absent or non-empty is recovered from its record,
      and an undated one comes back dated `now`. */
  lemma AirtableFieldsRoundTrip(t: NewTransaction, now: string)
    requires Canonical(t)
    ensures FieldsAsTransaction(NewTransactionToAirtableFields(t, now))
         == if t.date.Some? then t else t.(date := Some(now))
  {
  }

  /** `normalizeTransactionInput` */
  function NormalizeTransactionInput(input: TransactionInput): (t: NewTransaction)
    ensures t.name == input.name && t.date == input.date && t.category == input.category
    ensures t.fromAccountId == input.fromAccountId && t.toAccountId == input.toAccountId
    ensures input.value.Number? ==> t.value == input.value.n
    ensures input.value.Text? ==> t.value.Finite?
  {
    NewTransaction(
      input.name,
      match input.value
        case Number(n) => n
        case Text(s) => ParseOrZero(s),
      input.date, input.category, input.fromAccountId, input.toAccountId)
  }

  /** Text holding an integer normalizes to that integer; text without any
      digit normalizes to 0. */
  lemma NormalizedTextValue(input: TransactionInput, i: int)
    requires input.value.Text?
    ensures input.value.s == IntToString(i) ==> NormalizeTransactionInput(input).value == Finite(i as real)
    ensures (forall k :: 0 <= k < |input.value.s| ==> !IsDigit(input.value.s[k])) ==>
      NormalizeTransactionInput(input).value == Finite(0.0)
  {
    if input.value.s == IntToString(i) {
      ParseIntToString(i);
    }
    if forall k :: 0 <= k < |input.value.s| ==> !IsDigit(input.value.s[k]) {
      ParseWithoutDigits(input.value.s);
    }
  }

  /** `createTransferTransaction`; `now` stands for `getNow()`. */
  function CreateTransferTransaction(name: string, amount: Num, fromAccountId: string, toAccountId: string,
                                     date: Option<string>, now: string): (t: NewTransaction)
    ensures t.name == name && t.value == amount && t.category == None
    ensures t.fromAccountId == Some(fromAccountId) && t.toAccountId == Some(toAccountId)
    ensures t.date == Some(if Truthy(date) then date.value else now)
  {
    NewTransaction(name, amount, Some(if Truthy(date) then date.value else now), None,
                   Some(fromAccountId), Some(toAccountId))
  }

  /** `validateTransaction` */
  function ValidateTransaction(t: DraftTransaction): (ok: bool)
    ensures ok <==> t.name.Some? && (exists i :: 0 <= i < |t.name.value| && !IsWhitespace(t.name.value[i]))
                    && t.value.Some? && t.value.value.Finite?
  {
    match t.name
    case None => false
    case Some(name) =>
      TrimNonEmptyIff(name);
      name != "" && |Trim(name)| > 0 && t.value.Some? && !t.value.value.NaN?
  }

  /** The draft `validateTransaction` sees for a normalized transaction. */
  function AsDraft(t: NewTransaction): DraftTransaction {
    DraftTransaction(Some(t.name), Some(t.value))
  }

  /** A value typed as text never makes a normalized transaction invalid: it
      validates exactly when its name is not blank. */
  lemma NormalizedTextValidates(input: TransactionInput)
    requires input.value.Text?
    ensures ValidateTransaction(AsDraft(NormalizeTransactionInput(input)))
        <==> exists i :: 0 <= i < |input.name| && !IsWhitespace(input.name[i])
  {
  }

  /** `isTransferTransaction` */
  predicate IsTransferTransaction(t: NewTransaction) {
    Truthy(t.fromAccountId) && Truthy(t.toAccountId)
  }

  /** `isExpenseTransaction`: a positive value (NaN is not). */
  predicate IsExpenseTransaction(t: NewTransaction) {
    t.value.Finite? && t.value.v > 0.0
  }

  /** `isIncomeTransaction`: a negative value (NaN is not). */
  predicate IsIncomeTransaction(t: NewTransaction) {
    t.value.Finite? && t.value.v < 0.0
  }

  /** A built transfer is a transfer exactly when both account IDs are
      non-empty, and it keeps its amount's direction. */
  lemma CreatedTransferIsTransfer(name: string, amount: Num, fromAccountId: string, toAccountId: string,
                                  date: Option<string>, now: string)
    ensures var t := CreateTransferTransaction(name, amount, fromAccountId, toAccountId, date, now);
      && (IsTransferTransaction(t) <==> fromAccountId != "" && toAccountId != "")
      && (IsExpenseTransaction(t) <==> amount.Finite? && amount.v > 0.0)
  {
  }

  /** A transfer's record names both accounts and carries no category. */
  lemma TransferFields(name: string, amount: Num, fromAccountId: string, toAccountId: string,
                       date: Option<string>, now: string)
    requires fromAccountId != "" && toAccountId != ""
    ensures var f := NewTransactionToAirtableFields(
        CreateTransferTransaction(name, amount, fromAccountId, toAccountId, date, now), now);
      && f.fromAccount == Some([fromAccountId]) && f.toAccount == Some([toAccountId])
      && f.aiCategory == None
      && f.transactionDate == (if Truthy(date) then date.value else now)
  {
  }

  /** Expense and income exclude each other, zero and NaN are neither, and
      every other number is one of them. */
  lemma ExpenseIncomeSplit(t: NewTransaction)
    ensures !(IsExpenseTransaction(t) && IsIncomeTransaction(t))
    ensures t.value == Finite(0.0) || t.value == NaN ==> !IsExpenseTransaction(t) && !IsIncomeTransaction(t)
    ensures t.value.Finite? && t.value.v != 0.0 ==> IsExpenseTransaction(t) || IsIncomeTransaction(t)
  {
  }
}
