/** The transaction record and its enumerations (backend/app/models/transaction.py). */
module Models {
  import opened Basics

  datatype PaymentMethod = CreditCard | DebitCard | BankTransfer | DigitalWallet

  datatype TransactionStatus = Success | Failed | Pending | Retry

  /** The string value each payment method carries. */
  function PaymentMethodValue(m: PaymentMethod): string
  {
    match m
    case CreditCard => "credit_card"
    case DebitCard => "debit_card"
    case BankTransfer => "bank_transfer"
    case DigitalWallet => "digital_wallet"
  }

  /** Building the enumeration from its value: exactly the four values are accepted. */
  function ParsePaymentMethod(v: string): (r: Option<PaymentMethod>)
    ensures forall m :: r == Some(m) <==> PaymentMethodValue(m) == v
  {
    if v == "credit_card" then Some(CreditCard)
    else if v == "debit_card" then Some(DebitCard)
    else if v == "bank_transfer" then Some(BankTransfer)
    else if v == "digital_wallet" then Some(DigitalWallet)
    else None
  }

  /** The string value each status carries. */
  function StatusValue(s: TransactionStatus): string
  {
    match s
    case Success => "success"
    case Failed => "failed"
    case Pending => "pending"
    case Retry => "retry"
  }

  /** Building the enumeration from its value: exactly the four values are accepted. */
  function ParseStatus(v: string): (r: Option<TransactionStatus>)
    ensures forall s :: r == Some(s) <==> StatusValue(s) == v
  {
    if v == "success" then Some(Success)
    else if v == "failed" then Some(Failed)
    else if v == "pending" then Some(Pending)
    else if v == "retry" then Some(Retry)
    else None
  }

  /** One payment transaction. The timestamp is kept as text; `amount` is a
      decimal modelled as a real; `metadata` maps keys to text values. */
  datatype Transaction = Transaction(
    transactionId: string,
    timestamp: string,
    amount: real,
    currency: string,
    paymentMethod: PaymentMethod,
    issuer: string,
    processor: string,
    status: TransactionStatus,
    errorCode: Option<string>,
    latencyMs: int,
    retryCount: int,
    binRange: Option<string>,
    region: string,
    metadata: map<string, string>)

  /** Building a transaction from its required fields only: every optional
      field takes its declared default. */
  function NewTransaction(
    transactionId: string, timestamp: string, amount: real, currency: string,
    paymentMethod: PaymentMethod, issuer: string, processor: string,
    status: TransactionStatus, latencyMs: int, region: string): (tx: Transaction)
    ensures tx.errorCode == None && tx.binRange == None
    ensures tx.retryCount == 0 && tx.metadata == map[]
    ensures tx.issuer == issuer && tx.status == status && tx.latencyMs == latencyMs
  {
    Transaction(transactionId, timestamp, amount, currency, paymentMethod, issuer,
                processor, status, None, latencyMs, 0, None, region, map[])
  }
}
