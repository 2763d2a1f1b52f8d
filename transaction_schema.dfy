/**
 * The transaction document: the field descriptor of the Mongoose model
 * (required fields, the two closed enumerations, the `date` default and the
 * server-managed timestamps).
 *
 * A `Draft` is what the model constructor receives (any field may be missing);
 * a `Transaction` is what the store holds after a successful save, so its
 * types already say which fields are required and which enumerations apply.
 */
module TransactionSchema {
  import opened Wrappers

  /** Milliseconds since the epoch, as `Date.now()` returns. */
  type Time = int

  datatype Kind = Income | Expense
  datatype PaymentMethod = Cash | Card | Upi | Bank

  /** The stored spelling of each enumeration value. */
  function KindName(k: Kind): string
  {
    match k
    case Income => "income"
    case Expense => "expense"
  }

  function PaymentMethodName(m: PaymentMethod): string
  {
    match m
    case Cash => "cash"
    case Card => "card"
    case Upi => "upi"
    case Bank => "bank"
  }

  /** The `enum` validator of `type`: exactly "income" or "expense". */
  function ParseKind(s: string): (k: Option<Kind>)
    ensures k.Some? <==> s == "income" || s == "expense"
    ensures k.Some? ==> KindName(k.value) == s
  {
    if s == "income" then Some(Income)
    else if s == "expense" then Some(Expense)
    else None
  }

  /** The `enum` validator of `paymentMethod`: exactly one of cash, card, upi, bank. */
  function ParsePaymentMethod(s: string): (m: Option<PaymentMethod>)
    ensures m.Some? <==> s in {"cash", "card", "upi", "bank"}
    ensures m.Some? ==> PaymentMethodName(m.value) == s
  {
    if s == "cash" then Some(Cash)
    else if s == "card" then Some(Card)
    else if s == "upi" then Some(Upi)
    else if s == "bank" then Some(Bank)
    else None
  }

  /** The fields handed to the model constructor; None is a field that is not set. */
  datatype Draft = Draft(
    userId: Option<string>,
    kind: Option<string>,
    amount: Option<real>,
    category: Option<string>,
    description: Option<string>,
    paymentMethod: Option<string>,
    date: Option<Time>)

  /** A saved document. */
  datatype Transaction = Transaction(
    id: nat,
    userId: string,
    kind: Kind,
    amount: real,
    category: string,
    description: Option<string>,
    paymentMethod: Option<PaymentMethod>,
    date: Time,
    createdAt: Time,
    updatedAt: Time)

  /**
   * A `required` String must be a non-empty string (Mongoose's rule for
   * required strings); a `required` Number or ObjectId must merely be present.
   */
  predicate RequiredString(v: Option<string>)
  {
    v.Some? && v.value != ""
  }

  /** The validators of the descriptor, field by field. */
  predicate Conforms(d: Draft)
  {
    && d.userId.Some?
    && RequiredString(d.kind) && ParseKind(d.kind.value).Some?
    && d.amount.Some?
    && RequiredString(d.category)
    && (d.paymentMethod.None? || ParsePaymentMethod(d.paymentMethod.value).Some?)
  }

  /**
   * Constructing a document at `constructedAt` and saving it at `savedAt`:
   * `date` defaults to the construction time, `createdAt` and `updatedAt` are
   * the save time, and validation failure saves nothing.
   */
  function Save(d: Draft, id: nat, constructedAt: Time, savedAt: Time): (r: Option<Transaction>)
    ensures r.Some? <==> Conforms(d)
    ensures r.Some? ==> Unsave(r.value) == d.(date := Some(d.date.GetOr(constructedAt)))
    ensures r.Some? ==> r.value.id == id && r.value.createdAt == savedAt && r.value.updatedAt == savedAt
    ensures r.Some? ==> r.value.category != ""
  {
    if !Conforms(d) then None
    else
      Some(Transaction(
        id, d.userId.value, ParseKind(d.kind.value).value, d.amount.value, d.category.value,
        d.description,
        if d.paymentMethod.Some? then ParsePaymentMethod(d.paymentMethod.value) else None,
        d.date.GetOr(constructedAt), savedAt, savedAt))
  }

  /** The fields of a saved document, written back as a draft. */
  function Unsave(t: Transaction): Draft
  {
    Draft(
      Some(t.userId), Some(KindName(t.kind)), Some(t.amount), Some(t.category), t.description,
      if t.paymentMethod.Some? then Some(PaymentMethodName(t.paymentMethod.value)) else None,
      Some(t.date))
  }

  /**
   * Every document a save can produce (non-empty category, equal timestamps)
   * conforms to the descriptor, and saving its fields again reproduces it:
   * the typed record and the validators agree.
   */
  lemma SavedRoundTrip(t: Transaction, constructedAt: Time)
    requires t.category != "" && t.createdAt == t.updatedAt
    ensures Conforms(Unsave(t))
    ensures Save(Unsave(t), t.id, constructedAt, t.createdAt) == Some(t)
  {
    assert ParseKind(KindName(t.kind)) == Some(t.kind) by { match t.kind case Income => case Expense => }
    if t.paymentMethod.Some? {
      var m := t.paymentMethod.value;
      assert ParsePaymentMethod(PaymentMethodName(m)) == Some(m) by {
        match m case Cash => case Card => case Upi => case Bank =>
      }
    }
  }

  /** A draft with no owner is never saved. */
  lemma OwnerRequired(d: Draft, id: nat, constructedAt: Time, savedAt: Time)
    requires d.userId.None?
    ensures Save(d, id, constructedAt, savedAt).None?
  {
  }

  /** `type` must be exactly "income" or "expense": any other string is rejected. */
  lemma KindIsClosed(d: Draft, id: nat, constructedAt: Time, savedAt: Time)
    requires d.kind.None? || (d.kind.value != "income" && d.kind.value != "expense")
    ensures Save(d, id, constructedAt, savedAt).None?
  {
  }

  /**
   * The amount has no sign constraint: a draft that is otherwise complete is
   * saved whatever its amount, zero and negative amounts included, while a
   * missing amount is rejected.
   */
  lemma AmountUnconstrained(d: Draft, a: real, id: nat, constructedAt: Time, savedAt: Time)
    requires Conforms(d)
    ensures Save(d.(amount := Some(a)), id, constructedAt, savedAt).Some?
    ensures Save(d.(amount := Some(a)), id, constructedAt, savedAt).value.amount == a
    ensures Save(d.(amount := None), id, constructedAt, savedAt).None?
  {
  }

  /** `category` is required (and non-empty); `description` is optional and free. */
  lemma CategoryRequiredDescriptionOptional(d: Draft, desc: Option<string>, id: nat, constructedAt: Time, savedAt: Time)
    ensures !RequiredString(d.category) ==> Save(d, id, constructedAt, savedAt).None?
    ensures Conforms(d) ==> Save(d.(description := desc), id, constructedAt, savedAt).Some?
  {
  }

  /** `paymentMethod` may be left out, but a given value must be cash, card, upi or bank: "others" is rejected. */
  lemma PaymentMethodClosed(d: Draft, id: nat, constructedAt: Time, savedAt: Time)
    requires Conforms(d)
    ensures Save(d.(paymentMethod := None), id, constructedAt, savedAt).Some?
    ensures Save(d.(paymentMethod := Some("others")), id, constructedAt, savedAt).None?
    ensures Save(d.(paymentMethod := Some("bank")), id, constructedAt, savedAt).Some?
  {
  }

  /** A draft without a date is dated at construction; a given date is kept. */
  lemma DateDefault(d: Draft, id: nat, constructedAt: Time, savedAt: Time)
    requires Conforms(d)
    ensures d.date.None? ==> Save(d, id, constructedAt, savedAt).value.date == constructedAt
    ensures d.date.Some? ==> Save(d, id, constructedAt, savedAt).value.date == d.date.value
  {
  }
}
