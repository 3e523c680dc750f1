/** Callers' views of the component: an application error, a reply that
    only carries a detail, and a token exchange that fails after a token was
    installed. */
module Scenarios {
  import opened Php
  import opened YiiDirect

  /** After an error reply the getters report the code and the message, the
      detail is gone, and the token set before is still in place. */
  method ApplicationError(id: Bytes, password: Bytes, responseType: Bytes, locale: Bytes, language: Bytes,
                          token: Bytes, login: Bytes, name: Value, code: int, message: Bytes, detail: Bytes)
  {
    var api := new YiiDirectApi(id, password, responseType, locale, false, language);
    var self := api.SetToken(Str(token));
    self := api.SetLogin(Str(login));

    var failure := Arr([Entry(ErrorCodeKey, Int(code)),
                        Entry(ErrorStrKey, Str(message)),
                        Entry(ErrorDetailKey, Str(detail))]);
    assert ErrorStrKey != ErrorCodeKey by { assert "error_str"[6] != "error_code"[6]; }
    IndexFirst(failure.entries, 0);
    IndexFirst(failure.entries, 1);
    var endpoint, request, outcome := api.ApiQuery(name, transport := Response(failure));
    assert outcome == Returned(Bool(false));
    var e := api.GetError();
    var s := api.GetErrorStr();
    var d := api.GetErrorDetail();
    assert e == Int(code) && s == Str(message) && d == Null;
    assert api.token == Str(token);
  }

  /** A reply holding only a non-empty `error_detail` is a success: it is
      returned whole, no error is recorded, and the detail is kept. */
  method DetailOnlyIsSuccess(id: Bytes, password: Bytes, responseType: Bytes, locale: Bytes, language: Bytes,
                             name: Value, detail: Bytes)
    requires detail != [] && detail != Lit("0")
  {
    var api := new YiiDirectApi(id, password, responseType, locale, false, language);
    var detailOnly := Arr([Entry(ErrorDetailKey, Str(detail))]);
    IndexFirst(detailOnly.entries, 0);
    var endpoint, request, outcome := api.ApiQuery(name, transport := Response(detailOnly));
    assert outcome == Returned(detailOnly);
    var e := api.GetError();
    var d := api.GetErrorDetail();
    assert e == Null && d == Str(detail);
  }

  /** A token reply with an error leaves the token set before in place and
      records the error. */
  method FailedExchangeKeepsToken(id: Bytes, password: Bytes, responseType: Bytes, locale: Bytes, language: Bytes,
                                  token: Bytes, code: Value, error: Bytes)
    requires error != [] && error != Lit("0")
  {
    var api := new YiiDirectApi(id, password, responseType, locale, false, language);
    var self := api.SetToken(Str(token));
    var reply := Arr([Entry(ErrorKey, Str(error))]);
    IndexFirst(reply.entries, 0);
    var endpoint, form, t := api.GetDirectToken(code, reply);
    assert t == Str(token);
    var e := api.GetError();
    assert e == Str(error);
  }

  /** A component configured with only its id and secret asks for a
      `code` response, speaks Russian and talks to the production API. */
  method DefaultConfiguration(id: Bytes, password: Bytes, language: Bytes)
  {
    var api := new YiiDirectApi(id, password, appLanguage := language);
    assert api.responseType == Lit("code");
    assert api.locale == Lit("ru");
    assert api.apiUrl == JsonApiUrl;
  }
}
