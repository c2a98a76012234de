/** The shapes exchanged with the shared per-resource stores: the flat
    query-parameter maps given to `getItems`, the outcome of an awaited store
    call, and the contract-model reference records. The stores themselves
    (network, caching, asynchrony) are outside this model. */
module StoreApi {
  import opened Options

  /** A value in a `getItems` parameter map: a string, a number or a list of strings. */
  datatype ParamValue = Text(s: string) | Number(n: int) | TextList(items: seq<string>)

  /** A `getItems` parameter map; nested filters use dotted keys such as
      "contractModel.context". */
  type Params = map<string, ParamValue>

  /** An awaited store call either resolves with a value or rejects. */
  datatype FetchOutcome<T> = Fetched(value: T) | FetchFailed

  /** A contract model reference as returned inside a contract: its JSON-LD
      `@id` (None when the record carries none) and its display name. */
  datatype ContractModel = ContractModel(atId: Option<string>, model: string)

  /** What a create modal does that is seen from outside it: an `alert`, a
      store call, and the `onSuccess` / `onClose` callbacks of its parent. */
  datatype ModalEvent<P> =
    | Alerted(message: string)
    | ItemsRequested(params: Params)
    | SaveCalled(payload: P)
    | SuccessCallback
    | CloseCallback
}
