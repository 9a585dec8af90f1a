/** The `subscribers` collection (src/collections/Subscribers.ts): the record,
    its field defaults, the `email` and `phone` validators, the create-only
    token hooks, and the table itself as a class whose `records` the store's
    `create` and `update` change in place. */
module Subscribers {
  import opened Wrappers
  import opened PayloadHooks
  import ShortId
  import ContactFormat

  /** The `type` field. */
  datatype SubscriptionType = EmailType | SmsType

  /** One stored subscriber. `kind` is the `type` field; an empty string
      stands for an absent `email`, `phone` or token. `createdAt` is the
      store's creation time in milliseconds. */
  datatype Subscriber = Subscriber(
    id: nat,
    kind: SubscriptionType,
    email: string,
    phone: string,
    verified: bool,
    verificationToken: string,
    unsubscribeToken: string,
    active: bool,
    ipAddress: string,
    createdAt: int)

  /** Field defaults (`defaultValue`). */
  const DefaultKind: SubscriptionType := EmailType
  const DefaultVerified: bool := false
  const DefaultActive: bool := true

  const VerificationTokenLength: nat := 24
  const UnsubscribeTokenLength: nat := 32

  /** What a field validator returns: `true`, or an error message. */
  datatype Validation = Accepted | Rejected(message: string)

  /** The `email` field's `validate`: required for email subscriptions, and
      nothing more (the format is not checked here). */
  function ValidateEmail(value: string, kind: Option<SubscriptionType>): (v: Validation)
    ensures v.Rejected? <==> kind == Some(EmailType) && value == ""
  {
    if kind == Some(EmailType) && value == "" then Rejected("Email is required for email subscriptions")
    else Accepted
  }

  /** The `phone` field's `validate`: required for SMS subscriptions, and a
      non-empty value must match the phone pattern whatever the type. */
  function ValidatePhone(value: string, kind: Option<SubscriptionType>): (v: Validation)
    ensures v.Rejected? <==> (kind == Some(SmsType) && value == "") || (value != "" && !ContactFormat.IsPhoneNumber(value))
    ensures kind == Some(SmsType) && value == "" ==> v == Rejected("Phone number is required for SMS subscriptions")
  {
    if kind == Some(SmsType) && value == "" then Rejected("Phone number is required for SMS subscriptions")
    else if value != "" && !ContactFormat.IsPhoneNumber(value) then Rejected("Please enter a valid phone number (e.g., +1234567890)")
    else Accepted
  }

  /** The shared shape of both token hooks: on create, an absent value is
      replaced by a fresh identifier of the given length; otherwise the value
      passes through. */
  function TokenOnCreate(value: string, op: Operation, randomValues: seq<ShortId.Byte>, length: nat): (r: string)
    requires |randomValues| == length
    ensures op == Create && value == "" ==> r == ShortId.ShortIdOf(randomValues)
    ensures !(op == Create && value == "") ==> r == value
  {
    if op == Create && value == "" then ShortId.ShortIdOf(randomValues) else value
  }

  /** The `verificationToken` field's `beforeValidate` hook. */
  function VerificationTokenHook(value: string, op: Operation, randomValues: seq<ShortId.Byte>): (r: string)
    requires |randomValues| == VerificationTokenLength
    ensures op == Create && value == "" ==> |r| == 24 && forall i :: 0 <= i < |r| ==> r[i] in ShortId.Alphabet
    ensures !(op == Create && value == "") ==> r == value
  {
    ShortId.ShortIdInAlphabet(randomValues);
    TokenOnCreate(value, op, randomValues, VerificationTokenLength)
  }

  /** The `unsubscribeToken` field's `beforeValidate` hook. */
  function UnsubscribeTokenHook(value: string, op: Operation, randomValues: seq<ShortId.Byte>): (r: string)
    requires |randomValues| == UnsubscribeTokenLength
    ensures op == Create && value == "" ==> |r| == 32 && forall i :: 0 <= i < |r| ==> r[i] in ShortId.Alphabet
    ensures !(op == Create && value == "") ==> r == value
  {
    ShortId.ShortIdInAlphabet(randomValues);
    TokenOnCreate(value, op, randomValues, UnsubscribeTokenLength)
  }

  /** The data handed to the store's `create`; absent fields are `None` or
      empty. */
  datatype SubscriberData = SubscriberData(
    kind: Option<SubscriptionType>,
    email: string,
    phone: string,
    verified: Option<bool>,
    active: Option<bool>,
    verificationToken: string,
    unsubscribeToken: string,
    ipAddress: string)

  /** What the collection does with the data of a `create`: fill in the
      field defaults, run the two token hooks, then the two validators. The
      first failing validator's message is the error. */
  function PrepareCreate(
    data: SubscriberData, id: nat, now: int,
    verificationBytes: seq<ShortId.Byte>, unsubscribeBytes: seq<ShortId.Byte>): (r: Result<Subscriber, string>)
    requires |verificationBytes| == VerificationTokenLength && |unsubscribeBytes| == UnsubscribeTokenLength
    ensures var kind := Some(data.kind.GetOr(DefaultKind));
      r.Ok? <==> ValidateEmail(data.email, kind).Accepted? && ValidatePhone(data.phone, kind).Accepted?
    ensures r.Ok? ==> var s := r.value;
      && s.id == id && s.createdAt == now
      && s.kind == data.kind.GetOr(DefaultKind)
      && s.email == data.email && s.phone == data.phone && s.ipAddress == data.ipAddress
      && s.verified == data.verified.GetOr(DefaultVerified)
      && s.active == data.active.GetOr(DefaultActive)
      && (data.unsubscribeToken == "" ==> |s.unsubscribeToken| == UnsubscribeTokenLength)
      && (data.unsubscribeToken != "" ==> s.unsubscribeToken == data.unsubscribeToken)
      && (data.verificationToken == "" ==> |s.verificationToken| == VerificationTokenLength)
      && (data.verificationToken != "" ==> s.verificationToken == data.verificationToken)
  {
    var kind := data.kind.GetOr(DefaultKind);
    var emailCheck := ValidateEmail(data.email, Some(kind));
    var phoneCheck := ValidatePhone(data.phone, Some(kind));
    if emailCheck.Rejected? then Err(emailCheck.message)
    else if phoneCheck.Rejected? then Err(phoneCheck.message)
    else
      Ok(Subscriber(
        id, kind, data.email, data.phone,
        data.verified.GetOr(DefaultVerified),
        VerificationTokenHook(data.verificationToken, Create, verificationBytes),
        UnsubscribeTokenHook(data.unsubscribeToken, Create, unsubscribeBytes),
        data.active.GetOr(DefaultActive),
        data.ipAddress, now))
  }

  /** The `unique: true` constraint on `unsubscribeToken`. */
  ghost predicate TokensUnique(records: seq<Subscriber>) {
    forall i, j :: 0 <= i < j < |records| ==> records[i].unsubscribeToken != records[j].unsubscribeToken
  }

  /** True when some record already carries `token`. */
  predicate TokenTaken(records: seq<Subscriber>, token: string) {
    exists i :: 0 <= i < |records| && records[i].unsubscribeToken == token
  }

  const DuplicateTokenError: string := "The following field is invalid: unsubscribeToken"

  /** The result of the store's `create`: the prepared record, unless a
      validator rejects it or its token is already taken. */
  function CreateOutcome(
    records: seq<Subscriber>, nextId: nat, data: SubscriberData, now: int,
    verificationBytes: seq<ShortId.Byte>, unsubscribeBytes: seq<ShortId.Byte>): (r: Result<Subscriber, string>)
    requires |verificationBytes| == VerificationTokenLength && |unsubscribeBytes| == UnsubscribeTokenLength
    ensures r.Ok? ==> !TokenTaken(records, r.value.unsubscribeToken)
    ensures r.Ok? ==> PrepareCreate(data, nextId, now, verificationBytes, unsubscribeBytes) == r
  {
    match PrepareCreate(data, nextId, now, verificationBytes, unsubscribeBytes)
    case Err(e) => Err(e)
    case Ok(s) => if TokenTaken(records, s.unsubscribeToken) then Err(DuplicateTokenError) else Ok(s)
  }

  /** The active subscribers of one type, in store order (the filter
      `active = true AND type = kind`). */
  function ActiveOfType(records: seq<Subscriber>, kind: SubscriptionType): (r: seq<Subscriber>)
    ensures |r| <= |records|
    ensures forall s :: s in r ==> s in records && s.active && s.kind == kind
    ensures forall s :: s in records && s.active && s.kind == kind ==> s in r
  {
    if records == [] then []
    else
      var rest := ActiveOfType(records[1..], kind);
      if records[0].active && records[0].kind == kind then [records[0]] + rest else rest
  }

  /** The filter keeps store order: filtering two runs of records one after
      the other gives the two filtered runs one after the other. */
  lemma {:induction false} ActiveOfTypeAppend(a: seq<Subscriber>, b: seq<Subscriber>, kind: SubscriptionType)
    ensures ActiveOfType(a + b, kind) == ActiveOfType(a, kind) + ActiveOfType(b, kind)
    decreases |a|
  {
    if a == [] {
      assert a + b == b;
    } else {
      var keep := if a[0].active && a[0].kind == kind then [a[0]] else [];
      var restAB, restA, fb := ActiveOfType(a[1..] + b, kind), ActiveOfType(a[1..], kind), ActiveOfType(b, kind);
      assert ActiveOfType(a + b, kind) == keep + restAB by {
        ActiveOfTypeStep(a + b, kind);
        TailOfConcat(a, b);
      }
      assert ActiveOfType(a, kind) == keep + restA by {
        ActiveOfTypeStep(a, kind);
      }
      assert restAB == restA + fb by {
        ActiveOfTypeAppend(a[1..], b, kind);
      }
      Regroup(keep, restA, fb);
    }
  }

  lemma Regroup<T>(x: seq<T>, y: seq<T>, z: seq<T>)
    ensures x + (y + z) == (x + y) + z
  {
  }

  lemma TailOfConcat<T>(a: seq<T>, b: seq<T>)
    requires a != []
    ensures (a + b)[0] == a[0] && (a + b)[1..] == a[1..] + b
  {
  }

  lemma ActiveOfTypeStep(t: seq<Subscriber>, kind: SubscriptionType)
    requires t != []
    ensures ActiveOfType(t, kind)
      == (if t[0].active && t[0].kind == kind then [t[0]] else []) + ActiveOfType(t[1..], kind)
  {
    if !(t[0].active && t[0].kind == kind) {
      assert [] + ActiveOfType(t[1..], kind) == ActiveOfType(t[1..], kind);
    }
  }

  /** A record appended by `create` joins the end of the filtered list
      exactly when it is active and of the kind. */
  lemma ActiveOfTypeAfterAppend(records: seq<Subscriber>, s: Subscriber, kind: SubscriptionType)
    ensures ActiveOfType(records + [s], kind)
      == ActiveOfType(records, kind) + (if s.active && s.kind == kind then [s] else [])
  {
    ActiveOfTypeAppend(records, [s], kind);
    assert [s][1..] == [];
  }

  /** The store's `count` with the same filter. */
  function CountActive(records: seq<Subscriber>, kind: SubscriptionType): nat {
    |ActiveOfType(records, kind)|
  }

  /** The subscriber table. `nextId` is the primary key the store assigns to
      the next record. */
  class SubscriberTable {
    var records: seq<Subscriber>
    var nextId: nat

    /** Record ids strictly increase in store order and stay below `nextId`;
        unsubscribe tokens are unique. */
    ghost predicate Valid()
      reads this
    {
      && (forall i, j :: 0 <= i < j < |records| ==> records[i].id < records[j].id)
      && (forall i :: 0 <= i < |records| ==> records[i].id < nextId)
      && TokensUnique(records)
    }

    constructor ()
      ensures Valid() && records == [] && nextId == 1
    {
      records := [];
      nextId := 1;
    }

    /** The store's `create`: on success one record is appended under a
        fresh id; on failure the table is unchanged. */
    method Create(data: SubscriberData, now: int, verificationBytes: seq<ShortId.Byte>, unsubscribeBytes: seq<ShortId.Byte>)
      returns (r: Result<Subscriber, string>)
      requires Valid()
      requires |verificationBytes| == VerificationTokenLength && |unsubscribeBytes| == UnsubscribeTokenLength
      modifies this
      ensures Valid()
      ensures r == CreateOutcome(old(records), old(nextId), data, now, verificationBytes, unsubscribeBytes)
      ensures r.Ok? ==> records == old(records) + [r.value] && nextId == old(nextId) + 1
      ensures r.Err? ==> records == old(records) && nextId == old(nextId)
    {
      r := CreateOutcome(records, nextId, data, now, verificationBytes, unsubscribeBytes);
      if r.Ok? {
        records := records + [r.value];
        nextId := nextId + 1;
      }
    }

    /** The store's `update` of one record's `active` flag (addressed by its
        position, which its unique id determines). */
    method SetActive(index: nat, active: bool)
      requires Valid() && index < |records|
      modifies this
      ensures Valid() && nextId == old(nextId)
      ensures records == old(records)[index := old(records)[index].(active := active)]
    {
      records := records[index := records[index].(active := active)];
    }
  }
}
