/** The rows of one consumer database, as values, and the requests that create them. */
module Domain {
  import opened Base
  import opened Money
  import opened Phones

  datatype Provider = Mpesa | Paystack
  datatype Kind = StkPush | B2c | B2b | PaystackCharge
  datatype Direction = Inbound | Outbound
  datatype Status = Pending | Processing | Completed | Failed | Cancelled | Reversed

  datatype Payment = Payment(
    id: string,
    client: string,
    key: string,
    provider: Provider,
    kind: Kind,
    direction: Direction,
    status: Status,
    amount: int64,
    currency: string,
    phone: Option<string>,
    receiver: Option<string>,
    reference: string,
    description: Option<string>,
    requestId: Option<string>,
    txId: Option<string>,
    receipt: Option<string>,
    createdAt: int,
    completedAt: Option<int>)

  // The columns no statement ever updates: the payment with its mutable columns blanked.
  function Core(p: Payment): Payment {
    p.(status := Pending, requestId := None, txId := None, receipt := None, completedAt := None)
  }

  datatype Event = Event(payment: string, from: Status, to: Status, reason: Option<string>)

  // Only debit and credit exist in the database; the Go type is a string, hence Other.
  datatype EntryType = Debit | Credit | Other(name: string)

  // One journal insert, and the row it becomes.
  datatype JournalRow = JournalRow(
    client: string,
    payment: string,
    account: string,
    entry: EntryType,
    amount: int64,
    currency: string,
    description: string)

  // An encrypted column: decryption either inverts encryption or fails.
  datatype Cipher = Sealed(plain: string) | Corrupt

  function Decrypt(c: Cipher): Option<string> {
    match c
    case Sealed(plain) => Some(plain)
    case Corrupt => None
  }

  datatype Credentials = Credentials(
    shortcode: string,
    consumerKey: Cipher,
    consumerSecret: Cipher,
    passkey: Cipher,
    initiator: Option<string>,
    security: Option<Cipher>)

  // The four initiation requests, told apart by kind.
  datatype Request = Request(
    kind: Kind,
    client: string,
    key: string,
    amount: int64,
    currency: string,
    phone: string,
    receiver: string,
    email: string,
    reference: string,
    description: string)

  // The Validate method of each request.
  predicate Valid(req: Request) {
    && req.client != ""
    && req.amount > 0
    && (!req.kind.PaystackCharge? ==> req.amount % 100 == 0)
    && (match req.kind
        case StkPush => req.phone != ""
        case B2c => req.phone != ""
        case B2b => req.receiver != ""
        case PaystackCharge => req.email != "")
    && req.reference != ""
    && req.key != ""
  }

  predicate NeedsPhone(k: Kind) {
    k.StkPush? || k.B2c?
  }

  // Validation and phone normalisation: everything refused before the database is touched.
  predicate Admissible(req: Request) {
    Valid(req) && (NeedsPhone(req.kind) ==> NormalisePhone(req.phone).Some?)
  }

  function DirectionOf(k: Kind): Direction {
    if k.StkPush? || k.PaystackCharge? then Inbound else Outbound
  }

  function ProviderOf(k: Kind): Provider {
    if k.PaystackCharge? then Paystack else Mpesa
  }

  // The row CreatePayment inserts: status and timestamps come from the column defaults.
  function NewPayment(req: Request, id: string, now: int): Payment {
    Payment(
      id, req.client, req.key,
      ProviderOf(req.kind),
      req.kind, DirectionOf(req.kind), Pending, req.amount,
      if req.currency == "" then "KES" else req.currency,
      if NeedsPhone(req.kind) then NormalisePhone(req.phone) else None,
      if req.kind.B2b? then NonEmpty(req.receiver) else None,
      req.reference, NonEmpty(req.description),
      None, None, None, now, None)
  }

  // The amount handed to the provider.
  function Bill(req: Request): Billed
    requires req.amount > 0
  {
    if req.kind.PaystackCharge? then Subunits(req.amount) else Shillings(Decimal(req.amount / 100))
  }

  // Every accepted request asks the provider for exactly the cents that are recorded.
  lemma BillIsExact(req: Request)
    requires Valid(req)
    ensures BilledCents(Bill(req)) == Some(req.amount)
    ensures Bill(req).Subunits? <==> req.kind.PaystackCharge?
  {
    if !req.kind.PaystackCharge? {
      DecimalRoundTrip(req.amount / 100);
    }
  }

  lemma WholeShillings(amount: nat)
    ensures 100 * (amount / 100) == amount <==> amount % 100 == 0
  {
  }

  // For any positive amount, the shillings text stands for the amount exactly when the
  // whole-shilling guard of Validate passes.
  lemma ShillingsExactIff(amount: int64)
    requires amount > 0
    ensures BilledCents(Shillings(Decimal(amount / 100))) == Some(amount) <==> amount % 100 == 0
  {
    var whole: nat := amount / 100;
    DecimalRoundTrip(whole);
    WholeShillings(amount);
    assert BilledCents(Shillings(Decimal(whole))) == Some(100 * whole);
  }

  // What a settlement writes: a completion carries the receipt and transaction id.
  datatype Settlement = Completion(receipt: string, tx: string) | Failure(reason: string)

  function SettledRow(p: Payment, s: Settlement, now: int): Payment {
    match s
    case Completion(receipt, tx) =>
      p.(status := Completed, receipt := NonEmpty(receipt), txId := NonEmpty(tx), completedAt := Some(now))
    case Failure(_) =>
      p.(status := Failed)
  }

  // The event always claims the payment came from pending, whatever it really was.
  function SettledEvent(id: string, s: Settlement): Event {
    match s
    case Completion(_, _) => Event(id, Pending, Completed, None)
    case Failure(reason) => Event(id, Pending, Failed, NonEmpty(reason))
  }

  // The columns that identify a payment and say what it is for, one by one.
  ghost predicate SameColumns(p: Payment, q: Payment) {
    && q.id == p.id && q.client == p.client && q.key == p.key
    && q.provider == p.provider && q.kind == p.kind && q.direction == p.direction
    && q.amount == p.amount && q.currency == p.currency
    && q.phone == p.phone && q.receiver == p.receiver
    && q.reference == p.reference && q.description == p.description && q.createdAt == p.createdAt
  }

  // A completion writes exactly these columns: the receipt as the receipt, the transaction id as the
  // transaction id, NULL for an empty one.
  ghost predicate CompletedFrom(p: Payment, q: Payment, receipt: string, tx: string, now: int) {
    && q.status == Completed && q.completedAt == Some(now)
    && (if receipt == "" then q.receipt == None else q.receipt == Some(receipt))
    && (if tx == "" then q.txId == None else q.txId == Some(tx))
    && q.requestId == p.requestId && SameColumns(p, q)
  }

  // A failure writes the status alone.
  ghost predicate FailedFrom(p: Payment, q: Payment) {
    && q.status == Failed
    && q.completedAt == p.completedAt && q.receipt == p.receipt && q.txId == p.txId && q.requestId == p.requestId
    && SameColumns(p, q)
  }

  lemma SettledColumns(p: Payment, s: Settlement, now: int)
    ensures s.Completion? ==> CompletedFrom(p, SettledRow(p, s, now), s.receipt, s.tx, now)
    ensures s.Failure? ==> FailedFrom(p, SettledRow(p, s, now))
  {
  }
}
