/** Outcomes of the calls the system makes to services outside it (the managed
    Postgres/auth backend, fetch, the mail transport), and the HTTP replies the
    routes send.  Every external call is modelled as an oracle: the model is
    handed the call's outcome instead of making the call. */
module Wrappers {

  datatype Option<+T> = None | Some(value: T)

  /** The outcome of one call to an external service: it returned data, it
      returned an error object `{ code, message }`, or it threw. */
  datatype Call<+T> = Done(value: T) | Failed(code: string, message: string) | Threw(message: string)
  {
    /** The message a handler reads from `err.message` or `error.message`. */
    function Message(): string
      requires !Done?
    {
      if Failed? then message else this.message
    }
  }

  /** What a route handler puts on the wire: a status code and either
      `{ error: … }` or a success body. */
  datatype Http<+T> = Http(status: int, body: Payload<T>)

  datatype Payload<+T> = ErrorBody(error: string) | Body(value: T)

  function Error<T>(status: int, message: string): Http<T>
  {
    Http(status, ErrorBody(message))
  }

  function Success<T>(status: int, value: T): Http<T>
  {
    Http(status, Body(value))
  }
}
