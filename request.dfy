/** The parts of an Express request the handlers read and write. */
module Requests {
  import opened Wrappers
  import opened Js
  import opened UserModel

  /**
   * A request: its `Authorization` header, body, route parameters and
   * query-string mapping, and the user an earlier middleware attached.
   */
  class Request {
    const authorization: Option<string>
    const body: JsValue
    const params: map<string, string>
    var query: map<string, QueryValue>
    var user: UserDocument?

    constructor (authorization: Option<string>, body: JsValue, params: map<string, string>,
                 query: map<string, QueryValue>)
      ensures this.authorization == authorization && this.body == body && this.params == params
      ensures this.query == query && user == null
    {
      this.authorization := authorization;
      this.body := body;
      this.params := params;
      this.query := query;
      user := null;
    }
  }
}
