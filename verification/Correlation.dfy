/** JSON-RPC request ids and the canonical key under which they correlate. */
module Correlation {
  datatype RequestId = NumberId(n: int) | IntegerId(lexeme: string) | StringId(s: string)

  /** Canonical key of an id; several ids can share one key. */
  datatype CorrelationKey = StringKey(s: string) | IntegerKey(digits: string)
}
