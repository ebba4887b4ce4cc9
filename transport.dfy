/** The part of a transport session (requests.Session, aiohttp.ClientSession)
    the clients touch: a header map sent with every request, updated in place,
    and whether the session has been closed. */
module Transport {

  class Session {
    var headers: map<string, string>
    var closed: bool

    constructor (headers: map<string, string>)
      ensures this.headers == headers && !closed
    {
      this.headers := headers;
      closed := false;
    }

    /** `session.headers.update(extra)`: the keys of `extra` take its values. */
    method UpdateHeaders(extra: map<string, string>)
      modifies this
      ensures headers == old(headers) + extra && closed == old(closed)
    {
      headers := headers + extra;
    }

    /** `session.close()`; closing a closed session changes nothing. */
    method Close()
      modifies this
      ensures closed && headers == old(headers)
    {
      closed := true;
    }
  }
}
