/** The values the gateway and the fast lane exchange. */
module PaymentTypes {
  datatype PayState = Pending | Settled | Unknown

  /** Payment terms; price stands for every field but the scheme and the network. */
  datatype Terms = Terms(network: string, scheme: string, price: string)

  /** An authorization, which its fingerprint identifies: payload is its canonical JSON. */
  datatype Auth = Auth(network: string, scheme: string, payload: string)

  datatype Response = Response(success: bool, transaction: string, network: string, payer: string)

  function Fingerprint(terms: Terms, payload: string): Auth {
    Auth(terms.network, terms.scheme, payload)
  }
}
