/** Abstract outcomes of the `fetch` calls made by the repository browser and saver. */
module Http {

  /**
   * What one `fetch(...)` followed by `response.json()` produces: either a response
   * whose `ok` flag is `ok` and whose decoded body is `body`, or a thrown error
   * (network failure, undecodable body) carrying its message.
   */
  datatype Reply<T> = Reply(ok: bool, body: T) | Threw(message: string)
  {
    predicate IsOk() { Reply? && ok }
  }
}
