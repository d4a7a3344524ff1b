/** What an awaited `api.get` / `api.post` call (an axios instance) gives the page. */
module Api {
  import opened Json

  /** `Resolved`: the promise resolved with `response.status` and `response.data`
      (axios resolves only for a 2xx status). `Rejected`: it threw, whether for a
      network failure or a non-2xx status. */
  datatype Reply = Resolved(status: int, data: Value) | Rejected
}
