/**
 * The values that cross the DApp bridge: the actions a page can request, the
 * flows they start, the outcomes those flows report and the responses the
 * page receives. Names follow the wallet's Swift types.
 */
module DappTypes {
  import opened Options

  newtype byte = b: int | 0 <= b < 256

  /** Swift `Data`. */
  type Bytes = seq<byte>

  /** The network a browser tab talks to (`RPCServer`), identified by its chain ID. */
  datatype RPCServer = RPCServer(chainID: nat)

  /** A wallet holding signing keys; a watch-only account has none. */
  datatype Wallet = Wallet(id: string)

  datatype Account = Account(address: string, wallet: Option<Wallet>)

  /** A transaction as the page proposes it, before the confirm screen fills in the rest. */
  datatype UnconfirmedTransaction = UnconfirmedTransaction(
    to: Option<string>,
    value: nat,
    gasLimit: Option<nat>,
    gasPrice: Option<nat>,
    data: Bytes,
    nonce: Option<nat>)

  /** One entry of EIP-712-style typed data, passed through to signing untouched. */
  datatype TypedField = TypedField(kind: string, name: string, value: string)

  /** `DappAction`: what the page asked for. Message payloads arrive hex-encoded. */
  datatype DappAction =
    | SignTransaction(tx: UnconfirmedTransaction)
    | SendTransaction(tx: UnconfirmedTransaction)
    | SignMessage(hexMessage: string)
    | SignPersonalMessage(hexMessage: string)
    | SignTypedMessage(typedData: seq<TypedField>)
    | Unknown

  /** `SignMesageType`: what the sign-message screen is asked to sign. */
  datatype SignMessageType =
    | Message(data: Bytes)
    | PersonalMessage(data: Bytes)
    | TypedMessage(typedData: seq<TypedField>)

  /** `ConfirmType`: whether the confirm screen only signs or also broadcasts. */
  datatype ConfirmType = Sign | SignThenSend

  /** `SentTransaction`: the transaction's ID and its signed encoding. */
  datatype SentTransaction = SentTransaction(id: string, data: Bytes)

  /** `ConfirmResult`: `.signedTransaction` or `.sentTransaction`. */
  datatype ConfirmResult = Signed(tx: SentTransaction) | Sent(tx: SentTransaction)

  /** A child flow's `Result<_, AnyError>`; the error detail is never inspected. */
  datatype FlowOutcome<+T> = Succeeded(value: T) | Failed

  /** `DappCallbackValue`: the success payload, tagged by what was requested. */
  datatype DappCallbackValue =
    | SignTransactionResult(data: Bytes)
    | SentTransactionResult(data: Bytes)
    | SignMessageResult(data: Bytes)
    | SignPersonalMessageResult(data: Bytes)
    | SignTypedMessageResult(data: Bytes)

  datatype DappCallback = DappCallback(id: int, value: DappCallbackValue)

  /** `DAppError`: the only error the browser reports to a page. */
  datatype DAppError = Cancelled

  /** What `notifyFinish` hands to the page: `.success(callback)` or `.failure(error)`. */
  datatype Response = Success(callback: DappCallback) | Failure(error: DAppError)

  /** Whether an account can sign: it exists and holds a wallet. */
  predicate CanSign(account: Option<Account>) {
    account.Some? && account.value.wallet.Some?
  }

  /** The success tag agrees with the message variant that was asked for. */
  predicate TagMatches(value: DappCallbackValue, messageType: SignMessageType) {
    match messageType
    case Message(_) => value.SignMessageResult?
    case PersonalMessage(_) => value.SignPersonalMessageResult?
    case TypedMessage(_) => value.SignTypedMessageResult?
  }

  /**
   * The answer to a finished confirm flow (the `didCompleted` closure): the
   * signed bytes when the result is `.signedTransaction`, the hex-decoded
   * transaction ID when it is `.sentTransaction`, and `cancelled` on failure.
   * `hex` is `Data(hex:)`.
   */
  function TransactionResponse(callbackID: int, result: FlowOutcome<ConfirmResult>, hex: string -> Bytes): (r: Response)
    ensures r.Success? <==> result.Succeeded?
    ensures r.Success? ==> r.callback.id == callbackID
    ensures r.Failure? ==> r.error == Cancelled
    ensures result.Succeeded? && result.value.Signed? ==>
      r.callback.value == SignTransactionResult(result.value.tx.data)
    ensures result.Succeeded? && result.value.Sent? ==>
      r.callback.value == SentTransactionResult(hex(result.value.tx.id))
  {
    match result
    case Succeeded(Signed(tx)) => Success(DappCallback(callbackID, SignTransactionResult(tx.data)))
    case Succeeded(Sent(tx)) => Success(DappCallback(callbackID, SentTransactionResult(hex(tx.id))))
    case Failed => Failure(Cancelled)
  }

  /**
   * The answer to a finished sign-message flow (the `didComplete` closure):
   * the signature tagged by the requested variant, or `cancelled`.
   */
  function MessageResponse(callbackID: int, messageType: SignMessageType, result: FlowOutcome<Bytes>): (r: Response)
    ensures r.Success? <==> result.Succeeded?
    ensures r.Success? ==> r.callback.id == callbackID && r.callback.value.data == result.value
    ensures r.Success? ==> TagMatches(r.callback.value, messageType)
    ensures r.Failure? ==> r.error == Cancelled
  {
    match result
    case Succeeded(signature) =>
      var value := match messageType
        case Message(_) => SignMessageResult(signature)
        case PersonalMessage(_) => SignPersonalMessageResult(signature)
        case TypedMessage(_) => SignTypedMessageResult(signature);
      Success(DappCallback(callbackID, value))
    case Failed => Failure(Cancelled)
  }

  /** A signed-only transaction is never answered with a sent-transaction payload, and vice versa. */
  lemma TransactionTagFollowsResult(callbackID: int, result: FlowOutcome<ConfirmResult>, hex: string -> Bytes)
    requires result.Succeeded?
    ensures TransactionResponse(callbackID, result, hex).callback.value.SignTransactionResult? <==> result.value.Signed?
    ensures TransactionResponse(callbackID, result, hex).callback.value.SentTransactionResult? <==> result.value.Sent?
  {
  }
}
