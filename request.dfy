/**
 * The injectable parameters of one request (pystapler/request.py).
 * `RequestParams` is a `dict` subclass whose constructor fills itself; the
 * model builds the same dictionary as a `map` value.
 */
module Request {

  /**
   * The parts of a werkzeug request the core reads: the path, the
   * query-string arguments and the form data (both taken as plain maps from
   * a key to its first value).
   */
  datatype Request = Request(path: string, args: map<string, string>, form: map<string, string>)

  /** A value stored in the parameter dictionary. */
  datatype Value =
    | Text(s: string)                      // a query-string value
    | RawRequest(request: Request)         // the request object itself
    | Form(fields: map<string, string>)    // request.form

  /**
   * The dictionary `RequestParams(request)` holds once constructed: every
   * query key with its value, then `'request'` and `'form'`, written last.
   */
  function ParamsOf(request: Request): (params: map<string, Value>)
    ensures forall k :: k in params <==> k in request.args || k == "request" || k == "form"
    ensures params["request"] == RawRequest(request)
    ensures params["form"] == Form(request.form)
    ensures forall k | k in request.args && k != "request" && k != "form" :: params[k] == Text(request.args[k])
  {
    (map k | k in request.args :: Text(request.args[k]))["request" := RawRequest(request)]["form" := Form(request.form)]
  }

  /** `RequestParams.__init__`: copy the query keys one by one, then inject. */
  method NewRequestParams(request: Request) returns (params: map<string, Value>)
    ensures params == ParamsOf(request)
  {
    params := map[];
    var remaining := request.args.Keys;
    while remaining != {}
      invariant remaining <= request.args.Keys
      invariant params.Keys == request.args.Keys - remaining
      invariant forall k | k in params :: params[k] == Text(request.args[k])
      decreases remaining
    {
      var parameter :| parameter in remaining;
      params := params[parameter := Text(request.args[parameter])];
      remaining := remaining - {parameter};
    }
    params := params["request" := RawRequest(request)];
    params := params["form" := Form(request.form)];
  }

  /**
   * A query parameter named `request` or `form` never reaches a handler:
   * the injected value replaces it, whatever the query said.
   */
  lemma InjectedKeysWin(request: Request, v: string)
    ensures ParamsOf(request.(args := request.args["request" := v]))["request"] != Text(v)
    ensures ParamsOf(request.(args := request.args["form" := v]))["form"] != Text(v)
  {
  }
}
