/**
 * `insertTransaction`: builds a document from the request body, the
 * authenticated user's id and the server clock, saves it, and answers 201
 * with an echo of the saved fields or 500 "Server Error".
 *
 * The database is a store object holding the saved documents in insertion
 * order; a failing database is a parameter of the call.
 */
module TransactionController {
  import opened Wrappers
  import opened TransactionSchema

  /** The request body as the client sends it; `userId` and `date` are present only to show that they are ignored. */
  datatype RequestBody = RequestBody(
    userId: Option<string>,
    kind: Option<string>,
    amount: Option<real>,
    category: Option<string>,
    description: Option<string>,
    paymentMethod: Option<string>,
    date: Option<string>)

  /** The `Transaction` object of a 201 answer. It carries no `type`. */
  datatype Echo = Echo(
    id: nat,
    userId: Option<string>,
    amount: Option<real>,
    category: Option<string>,
    description: Option<string>,
    paymentMethod: Option<string>,
    date: Time)

  datatype InsertResponse = Created(message: string, transaction: Echo) | ServerError
  {
    function Status(): int
    {
      if Created? then 201 else 500
    }

    function Message(): string
    {
      if Created? then message else "Server Error"
    }
  }

  function CreatedMessage(k: Kind): string
  {
    "Successfully Added The New " + KindName(k) + " Transaction"
  }

  /**
   * The fields given to the model constructor: the owner is the token's user
   * id, the date is the server's clock, and the five business fields are the
   * body's own, unchanged.
   */
  function BuildDraft(body: RequestBody, userId: Option<string>, now: Time): Draft
  {
    Draft(userId, body.kind, body.amount, body.category, body.description, body.paymentMethod, Some(now))
  }

  /**
   * The owner and the date of the stored document never come from the body:
   * two bodies that agree on type, amount, category, description and payment
   * method give the same document, whatever `userId` or `date` they carry.
   */
  lemma OwnerAndDateFromServer(b1: RequestBody, b2: RequestBody, userId: Option<string>, now: Time, id: nat, savedAt: Time)
    requires b1.kind == b2.kind && b1.amount == b2.amount && b1.category == b2.category
    requires b1.description == b2.description && b1.paymentMethod == b2.paymentMethod
    ensures Save(BuildDraft(b1, userId, now), id, now, savedAt) == Save(BuildDraft(b2, userId, now), id, now, savedAt)
  {
  }

  /** A saved document holds the token's user id, the server time and the body's fields with no normalisation. */
  lemma StoredFields(body: RequestBody, userId: Option<string>, now: Time, id: nat, savedAt: Time)
    requires Save(BuildDraft(body, userId, now), id, now, savedAt).Some?
    ensures var t := Save(BuildDraft(body, userId, now), id, now, savedAt).value;
      && userId == Some(t.userId) && t.date == now
      && body.kind == Some(KindName(t.kind)) && body.amount == Some(t.amount)
      && body.category == Some(t.category) && body.description == t.description
      && body.paymentMethod == (if t.paymentMethod.Some? then Some(PaymentMethodName(t.paymentMethod.value)) else None)
  {
  }

  class TransactionStore {
    /** The saved documents, oldest first. */
    var records: seq<Transaction>
    /** The id the next saved document receives. */
    var nextId: nat

    /** Every stored document conforms to the schema, and ids are distinct. */
    ghost predicate Valid()
      reads this
    {
      && (forall i :: 0 <= i < |records| ==> records[i].id < nextId)
      && (forall i :: 0 <= i < |records| ==> records[i].category != "" && Conforms(Unsave(records[i])))
      && (forall i, j :: 0 <= i < j < |records| ==> records[i].id != records[j].id)
    }

    constructor ()
      ensures Valid() && records == []
    {
      records := [];
      nextId := 0;
    }

    /**
     * `insertTransaction`. `userId` is `req.user.id`, `now` the reading of
     * `Date.now()`, `savedAt` the time of the save and `storeFails` whether the
     * database itself refuses the write.
     */
    method InsertTransaction(userId: Option<string>, body: RequestBody, now: Time, savedAt: Time, storeFails: bool)
      returns (resp: InsertResponse)
      requires Valid()
      modifies this
      ensures Valid()
      ensures var saved := Save(BuildDraft(body, userId, now), old(nextId), now, savedAt);
        if saved.Some? && !storeFails then
          && records == old(records) + [saved.value]
          && resp == Created(CreatedMessage(saved.value.kind),
                             Echo(saved.value.id, userId, body.amount, body.category,
                                  body.description, body.paymentMethod, now))
        else
          records == old(records) && resp == ServerError
      ensures resp.Created? ==>
        var t := records[|records| - 1];
        && resp.Status() == 201
        && Some(t.userId) == userId && resp.transaction.userId == userId
        && t.id == resp.transaction.id && t.date == resp.transaction.date == now
        && Some(t.amount) == resp.transaction.amount && Some(t.category) == resp.transaction.category
        && t.description == resp.transaction.description
      ensures resp.ServerError? ==> resp.Status() == 500 && resp.Message() == "Server Error"
    {
      var saved := Save(BuildDraft(body, userId, now), nextId, now, savedAt);
      if saved.Some? && !storeFails {
        var t := saved.value;
        SavedRoundTrip(t, now);
        records := records + [t];
        nextId := nextId + 1;
        resp := Created(CreatedMessage(t.kind), Echo(t.id, userId, body.amount, body.category,
                                                     body.description, body.paymentMethod, now));
      } else {
        resp := ServerError;
      }
    }
  }
}
