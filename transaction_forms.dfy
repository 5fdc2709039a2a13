/**
 * The add and edit transaction forms: the field rules they share, the
 * categories offered for the selected type, the submitted payload, the
 * mapping of a loaded transaction into the edit form, and the two pages'
 * state as their handlers update it.
 */
module TransactionForms {

  import opened Wrappers
  import opened Host
  import opened FieldChecks
  import Amounts

  /** `TRANSACTION_TYPES`; the values are those the list page compares with. */
  const INCOME: string := "INCOME"
  const EXPENSE: string := "EXPENSE"

  datatype Category = Category(id: string, name: string, icon: string)

  /** The category catalogue, split into the income and the expense set. */
  datatype Catalog = Catalog(income: seq<Category>, expense: seq<Category>)

  /** The categories offered for a type: the income set for INCOME, the expense set for anything else. */
  function Offered(txType: string, catalog: Catalog): (cats: seq<Category>)
    ensures txType == INCOME ==> cats == catalog.income
    ensures txType != INCOME ==> cats == catalog.expense
  {
    if txType == INCOME then catalog.income else catalog.expense
  }

  /** A form category is consistent with a category list when it is unset or one of the list's ids. */
  predicate CategoryFits(category: string, cats: seq<Category>) {
    category == "" || exists i :: 0 <= i < |cats| && cats[i].id == category
  }

  /** The Quick Add tiles: `categories.slice(0, 8)`. */
  function QuickAdd(cats: seq<Category>): (tiles: seq<Category>)
    ensures |tiles| <= 8
    ensures |tiles| == if |cats| < 8 then |cats| else 8
    ensures tiles == cats[..|tiles|]
  {
    if |cats| <= 8 then cats else cats[..8]
  }

  /** The first part of `d.split('T')`: everything before the first `T`. */
  function DatePart(d: string): (r: string)
    ensures |r| <= |d| && r == d[..|r|]
    ensures 'T' !in r
    ensures |r| < |d| ==> d[|r|] == 'T'
  {
    if d == [] || d[0] == 'T' then []
    else
      var rest := DatePart(d[1..]);
      assert d[..1 + |rest|] == [d[0]] + d[1..][..|rest|];
      [d[0]] + rest
  }

  /** An ISO timestamp `day + "T" + time` is cut back to its day; a plain day is kept whole. */
  lemma {:induction false} DatePartOfTimestamp(day: string, time: string)
    requires 'T' !in day
    ensures DatePart(day + "T" + time) == day
    ensures DatePart(day) == day
    decreases |day|
  {
    if day != [] {
      assert (day + "T" + time)[1..] == day[1..] + "T" + time;
      DatePartOfTimestamp(day[1..], time);
    }
  }

  /** Cutting twice cuts no more than once. */
  lemma DatePartIdempotent(d: string)
    ensures DatePart(DatePart(d)) == DatePart(d)
  {
    DatePartOfTimestamp(DatePart(d), "");
  }

  /**
   * The value the form library holds for the amount: the text of the input
   * once the user has typed into it, or the number `reset` put there from a
   * loaded transaction.
   */
  datatype AmountValue = Typed(text: string) | Loaded(number: real)

  /** The values the form library holds; `formType` is the add form's unregistered `type` value. */
  datatype TxForm = TxForm(
    amount: AmountValue,
    description: string,
    category: string,
    date: string,
    notes: string,
    formType: Option<string>)

  /**
   * The amount rules applied to the held value, and `parseFloat` of it. Text
   * goes through required, the pattern and the minimum. A number is never
   * empty and the library applies `pattern` to text only, so a number meets
   * the minimum alone and is sent unchanged.
   */
  function AmountRules(v: AmountValue): (r: Result<real, string>)
    ensures v.Typed? ==> (r.Success? <==> Amounts.InAmountLanguage(v.text) && Amounts.ParseCents(v.text) >= 1)
    ensures v.Typed? && r.Success? ==> r.value == Amounts.ParseCents(v.text) as real / 100.0
    ensures v.Typed? && r.Failure? ==> Amounts.ValidateAmount(v.text) == Failure(r.error)
    ensures v.Loaded? ==> (r.Success? <==> v.number >= 0.01)
    ensures v.Loaded? && r.Success? ==> r.value == v.number
    ensures v.Loaded? && r.Failure? ==> r.error == Amounts.AMOUNT_TOO_SMALL
  {
    match v
    case Typed(text) =>
      (match Amounts.ValidateAmount(text)
       case Success(cents) => Success(cents as real / 100.0)
       case Failure(m) => Failure(m))
    case Loaded(x) => if x < 0.01 then Failure(Amounts.AMOUNT_TOO_SMALL) else Success(x)
  }

  /** The first failing rule of each validated field. */
  datatype TxErrors = TxErrors(amount: Check, description: Check, category: Check, date: Check)

  /** The field rules of both forms. */
  function ValidateForm(f: TxForm): (e: TxErrors)
    ensures e.amount.Valid? <==> AmountRules(f.amount).Success?
    ensures e.amount.Invalid? ==> AmountRules(f.amount) == Failure(e.amount.message)
    ensures e.description.Valid? <==> |f.description| >= 3
    ensures e.category.Valid? <==> f.category != ""
    ensures e.date.Valid? <==> f.date != ""
  {
    TxErrors(
      match AmountRules(f.amount)
        case Success(_) => Valid
        case Failure(m) => Invalid(m),
      RequiredMinLength(f.description, 3, "Description is required", "Description must be at least 3 characters"),
      Required(f.category, "Category is required"),
      Required(f.date, "Date is required"))
  }

  /**
   * What submitting the form yields: the errors when a rule fails, otherwise
   * the payload `{...data, amount: parseFloat(data.amount), type: transactionType}`.
   */
  function Submission(f: TxForm, transactionType: string): (r: Result<TxPayload, TxErrors>)
    ensures r.Success? <==> AmountRules(f.amount).Success?
                            && |f.description| >= 3 && f.category != "" && f.date != ""
    ensures r.Failure? ==> r.error == ValidateForm(f)
    ensures r.Success? ==> r.value.txType == transactionType
    ensures r.Success? ==> r.value.amount == AmountRules(f.amount).value && r.value.amount >= 0.01
    ensures r.Success? ==> r.value.description == f.description && r.value.category == f.category
                           && r.value.date == f.date && r.value.notes == f.notes
  {
    var e := ValidateForm(f);
    if e.amount.Valid? && e.description.Valid? && e.category.Valid? && e.date.Valid? then
      Success(TxPayload(AmountRules(f.amount).value, f.description, f.category, f.date, f.notes, transactionType))
    else
      Failure(e)
  }

  /** A typed amount that passes is sent as its exact two-decimal value, at least 0.01. */
  lemma TypedAmountIsCents(cents: nat)
    requires cents >= 1
    ensures AmountRules(Typed(Amounts.CentsText(cents))) == Success(cents as real / 100.0)
  {
    Amounts.AcceptsEveryPositiveCents(cents);
  }

  /** A loaded amount skips the pattern: any number of at least 0.01 passes, with any number of decimals. */
  lemma LoadedAmountSkipsPattern()
    ensures AmountRules(Loaded(25.505)) == Success(25.505)
    ensures AmountRules(Typed("25.505")) == Failure(Amounts.AMOUNT_INVALID)
  {
    Amounts.AmountExamples();
  }

  /** The form's own `type` value never reaches the payload. */
  lemma SubmissionIgnoresFormType(f: TxForm, t: Option<string>, transactionType: string)
    ensures Submission(f.(formType := t), transactionType) == Submission(f, transactionType)
  {
  }

  /** The spending example: 25.50 for coffee on 2024-01-15 goes out as 2550 cents of type EXPENSE. */
  lemma CoffeeExample()
    ensures Submission(TxForm(Typed("25.50"), "Coffee", "food", "2024-01-15", "", Some(EXPENSE)), EXPENSE)
      == Success(TxPayload(25.5, "Coffee", "food", "2024-01-15", "", EXPENSE))
  {
    Amounts.AmountExamples();
  }

  /** A transaction as the backend returns it. */
  datatype StoredTx = StoredTx(
    id: string,
    amount: real,
    txType: string,
    category: string,
    description: string,
    date: string,
    notes: Option<string>)

  /** The edit form's values after loading: the date cut at `T`, missing notes as `''`, the rest copied. */
  function LoadForm(tx: StoredTx): (f: TxForm)
    ensures f.amount == Loaded(tx.amount) && f.description == tx.description && f.category == tx.category
    ensures f.date == DatePart(tx.date) && 'T' !in f.date
    ensures tx.notes.Some? ==> f.notes == tx.notes.value
    ensures tx.notes.None? ==> f.notes == ""
    ensures f.formType == None
  {
    TxForm(Loaded(tx.amount), tx.description, tx.category, DatePart(tx.date), tx.notes.GetOr(""), None)
  }

  /**
   * Submitting an edit form that was loaded and not touched sends the
   * server's own values back, with the date cut at `T`; the amount is checked
   * against the minimum only.
   */
  lemma UneditedFormResubmits(tx: StoredTx, t: string)
    ensures Submission(LoadForm(tx), t).Success?
            <==> tx.amount >= 0.01 && |tx.description| >= 3 && tx.category != "" && DatePart(tx.date) != ""
    ensures Submission(LoadForm(tx), t).Success? ==>
      Submission(LoadForm(tx), t).value
        == TxPayload(tx.amount, tx.description, tx.category, DatePart(tx.date), tx.notes.GetOr(""), t)
  {
  }

  const TX_ADDED: string := "Transaction added successfully!"
  const TX_ADD_FAILED: string := "Failed to add transaction"
  const TX_LOAD_FAILED: string := "Failed to load transaction"
  const TX_UPDATED: string := "Transaction updated successfully!"
  const TX_UPDATE_FAILED: string := "Failed to update transaction"

  /** The text inputs a user types into. */
  datatype TextField = AmountInput | DescriptionInput | DateInput | NotesInput

  function WithText(f: TxForm, field: TextField, text: string): TxForm {
    match field
    case AmountInput => f.(amount := Typed(text))
    case DescriptionInput => f.(description := text)
    case DateInput => f.(date := text)
    case NotesInput => f.(notes := text)
  }

  /** The add page: the selected type, the form values and the submit flag. */
  class AddTransactionPage {
    const catalog: Catalog
    var transactionType: string
    var form: TxForm
    var loading: bool

    /** The form category is unset or belongs to the set offered for the selected type. */
    ghost predicate Valid()
      reads this
    {
      CategoryFits(form.category, Offered(transactionType, catalog))
    }

    function Categories(): seq<Category>
      reads this
    {
      Offered(transactionType, catalog)
    }

    /** The page starts on EXPENSE with today's date (the day of `nowIso`) and nothing else filled in. */
    constructor (catalog0: Catalog, nowIso: string)
      ensures catalog == catalog0 && Valid()
      ensures transactionType == EXPENSE && !loading
      ensures form == TxForm(Typed(""), "", "", DatePart(nowIso), "", Some(EXPENSE))
    {
      catalog := catalog0;
      transactionType := EXPENSE;
      form := TxForm(Typed(""), "", "", DatePart(nowIso), "", Some(EXPENSE));
      loading := false;
    }

    /** `handleTypeChange`: select the type, copy it into the form and clear the category. */
    method HandleTypeChange(t: string)
      modifies this
      ensures transactionType == t
      ensures form == old(form).(formType := Some(t), category := "")
      ensures loading == old(loading)
      ensures Valid()
    {
      transactionType := t;
      form := form.(formType := Some(t), category := "");
    }

    /** Choosing option `option` of the category select: 0 is "Select a category", then the offered ones. */
    method SelectCategory(option: nat)
      requires option <= |Categories()|
      modifies this
      ensures form == old(form).(category := if option == 0 then "" else old(Categories())[option - 1].id)
      ensures transactionType == old(transactionType) && loading == old(loading)
      ensures Valid()
    {
      var cats := Categories();
      form := form.(category := if option == 0 then "" else cats[option - 1].id);
    }

    /** Typing into a text input. */
    method Input(field: TextField, text: string)
      requires Valid()
      modifies this
      ensures form == WithText(old(form), field, text)
      ensures transactionType == old(transactionType) && loading == old(loading)
      ensures Valid()
    {
      form := WithText(form, field, text);
    }

    /**
     * Submitting: when a rule fails nothing is sent; otherwise the payload is
     * sent, and only if the backend accepts it (`created`) is the dashboard
     * refetched and the list page opened. The submit flag ends cleared.
     */
    method OnSubmit(b: Browser, created: bool) returns (outcome: Result<TxPayload, TxErrors>, notice: Option<string>)
      modifies this, b
      ensures outcome == Submission(old(form), old(transactionType))
      ensures notice == if outcome.Failure? then None else Some(if created then TX_ADDED else TX_ADD_FAILED)
      ensures outcome.Failure? ==> b.trace == old(b.trace) && b.pathname == old(b.pathname)
      ensures outcome.Success? ==>
        b.trace == old(b.trace) + [Call(CreateTransaction(outcome.value))]
                   + (if created then [Call(FetchDashboard), Navigate("/transactions")] else [])
      ensures outcome.Success? ==> b.pathname == (if created then "/transactions" else old(b.pathname))
      ensures b.storage == old(b.storage) && b.darkClass == old(b.darkClass)
      ensures form == old(form) && transactionType == old(transactionType)
      ensures loading == (outcome.Failure? && old(loading))
    {
      outcome := Submission(form, transactionType);
      if outcome.Success? {
        loading := true;
        b.Emit(Call(CreateTransaction(outcome.value)));
        if created {
          b.Emit(Call(FetchDashboard));
          notice := Some(TX_ADDED);
          b.NavigateTo("/transactions");
        } else {
          notice := Some(TX_ADD_FAILED);
        }
        loading := false;
      } else {
        notice := None;
      }
    }
  }

  /** The edit page for the transaction `id` of the route. */
  class EditTransactionPage {
    const catalog: Catalog
    const id: string
    var transactionType: string
    var form: TxForm
    var loading: bool
    var initialLoading: bool

    function Categories(): seq<Category>
      reads this
    {
      Offered(transactionType, catalog)
    }

    /** The page starts on EXPENSE with an empty form, waiting for the transaction. */
    constructor (catalog0: Catalog, id0: string)
      ensures catalog == catalog0 && id == id0
      ensures transactionType == EXPENSE && form == TxForm(Typed(""), "", "", "", "", None)
      ensures !loading && initialLoading
    {
      catalog := catalog0;
      id := id0;
      transactionType := EXPENSE;
      form := TxForm(Typed(""), "", "", "", "", None);
      loading := false;
      initialLoading := true;
    }

    /**
     * The loading effect, run only for a non-empty id: the fetched transaction
     * (`None` when the request fails) sets the type and the form; a failure
     * shows its notice and returns to the list page.
     */
    method Load(b: Browser, fetched: Option<StoredTx>) returns (notice: Option<string>)
      modifies this, b
      ensures id == "" ==> b.trace == old(b.trace) && form == old(form) && initialLoading == old(initialLoading)
      ensures id == "" ==> transactionType == old(transactionType)
      ensures id != "" && fetched.None? ==> b.pathname == "/transactions" && notice == Some(TX_LOAD_FAILED)
      ensures (id == "" || fetched.Some?) ==> b.pathname == old(b.pathname) && notice == None
      ensures id != "" ==> !initialLoading
      ensures id != "" && fetched.Some? ==> transactionType == fetched.value.txType && form == LoadForm(fetched.value)
      ensures id != "" && fetched.Some? ==> b.trace == old(b.trace) + [Call(GetTransaction(id))]
      ensures id != "" && fetched.None? ==> form == old(form) && transactionType == old(transactionType)
      ensures id != "" && fetched.None? ==> b.trace == old(b.trace) + [Call(GetTransaction(id)), Navigate("/transactions")]
      ensures b.storage == old(b.storage) && b.darkClass == old(b.darkClass) && loading == old(loading)
    {
      notice := None;
      if id != "" {
        b.Emit(Call(GetTransaction(id)));
        match fetched {
          case Some(tx) =>
            transactionType := tx.txType;
            form := LoadForm(tx);
          case None =>
            notice := Some(TX_LOAD_FAILED);
            b.NavigateTo("/transactions");
        }
        initialLoading := false;
      }
    }

    /** `handleTypeChange`: select the type and clear the category; the form has no `type` value to update. */
    method HandleTypeChange(t: string)
      modifies this
      ensures transactionType == t
      ensures form == old(form).(category := "")
      ensures CategoryFits(form.category, Categories())
      ensures loading == old(loading) && initialLoading == old(initialLoading)
    {
      transactionType := t;
      form := form.(category := "");
    }

    /** Typing into a text input. */
    method Input(field: TextField, text: string)
      modifies this
      ensures form == WithText(old(form), field, text)
      ensures transactionType == old(transactionType) && loading == old(loading)
      ensures initialLoading == old(initialLoading)
    {
      form := WithText(form, field, text);
    }

    /**
     * Submitting: the same rules as the add form; a valid form is sent as an
     * update of `id` and, once the backend accepts it, the list page opens.
     */
    method OnSubmit(b: Browser, updated: bool) returns (outcome: Result<TxPayload, TxErrors>, notice: Option<string>)
      modifies this, b
      ensures outcome == Submission(old(form), old(transactionType))
      ensures notice == if outcome.Failure? then None else Some(if updated then TX_UPDATED else TX_UPDATE_FAILED)
      ensures outcome.Failure? ==> b.trace == old(b.trace) && b.pathname == old(b.pathname)
      ensures outcome.Success? ==>
        b.trace == old(b.trace) + [Call(UpdateTransaction(id, outcome.value))]
                   + (if updated then [Navigate("/transactions")] else [])
      ensures outcome.Success? ==> b.pathname == (if updated then "/transactions" else old(b.pathname))
      ensures b.storage == old(b.storage) && b.darkClass == old(b.darkClass)
      ensures form == old(form) && transactionType == old(transactionType)
      ensures loading == (outcome.Failure? && old(loading)) && initialLoading == old(initialLoading)
    {
      outcome := Submission(form, transactionType);
      if outcome.Success? {
        loading := true;
        b.Emit(Call(UpdateTransaction(id, outcome.value)));
        if updated {
          notice := Some(TX_UPDATED);
          b.NavigateTo("/transactions");
        } else {
          notice := Some(TX_UPDATE_FAILED);
        }
        loading := false;
      } else {
        notice := None;
      }
    }
  }
}
