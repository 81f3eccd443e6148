/** The parts of an incoming REST request that the webhook handlers read,
    the keyed hash they check signatures with, and what a callback answers. */
module Requests {
  import opened PhpValues

  /** The hash algorithms the handlers ask `hash_hmac` for. */
  datatype HashAlgo = Sha1 | Sha256

  /** `hash_hmac(algo, data, key)`, lower-case hex. The digest itself is not
      modelled: every statement about it holds for any function of this type. */
  type Hmac = (HashAlgo, string, string) -> string

  /** Header names are lower case, as the handlers ask for them; the raw
      body is what the signature is computed over; `params` are the decoded
      request parameters. */
  datatype Request = Request(headers: map<string, string>, body: string, params: Json)

  /** `$request->get_header(name)`: the header's value, or null. */
  function Header(req: Request, name: string): Option<string> {
    if name in req.headers then Some(req.headers[name]) else None
  }

  /** The header is there and truthy, as `if ( $request->get_header(name) )` tests it. */
  predicate HasHeader(req: Request, name: string) {
    Truthy(Header(req, name))
  }

  /** What a callback answers: `{"result":"OK"}`, `{"result":"Not the default
      branch"}`, a 400 error or a 404 error. */
  datatype Outcome = Ok | NotDefaultBranch | BadRequest | NotFound
}
