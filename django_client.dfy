/**
 * The desktop client's HTTP wrapper (desktop-app/api/django_client.py):
 * the stored token, the request headers, the mapping of a 400 response to
 * an `{"error": …}` value and the token capture after OTP verification and
 * Google sign-in. The transport is replaced by the response it produced.
 */
module DjangoClient {
  import opened Common
  import opened Json

  /** What `requests` handed back: status code, decoded JSON body (None when
    * `response.json()` fails) and the raw body text. */
  datatype HttpResponse = HttpResponse(status: int, body: Option<Json>, text: string)

  /** Rendering of one field's value: a list must hold strings only, because
    * `', '.join` raises TypeError otherwise (None here). */
  function RenderMessages(messages: Json, repr: Json -> string): (r: Option<string>)
  {
    if messages.JArr? then
      if forall k :: 0 <= k < |messages.items| ==> messages.items[k].JStr? then
        Some(Join(seq(|messages.items|, k requires 0 <= k < |messages.items| => messages.items[k].s), ", "))
      else None
    else Some(PyStr(messages, repr))
  }

  /** The `errors` list `_format_error` builds for the first members of a dict. */
  function FieldLines(members: seq<(string, Json)>, repr: Json -> string): (r: Option<seq<string>>)
  {
    if members == [] then Some([])
    else
      var last := members[|members| - 1];
      match FieldLines(members[..|members| - 1], repr)
      case None => None
      case Some(lines) =>
        match RenderMessages(last.1, repr)
        case None => None
        case Some(m) => Some(lines + [last.0 + ": " + m])
  }

  /** What `_format_error` returns, or None where it raises. */
  function FormatErrorSpec(data: Json, repr: Json -> string): Option<string>
  {
    if data.JObj? then
      match FieldLines(data.members, repr)
      case None => None
      case Some(lines) => Some(Join(lines, "\n"))
    else Some(PyStr(data, repr))
  }

  /** One line per field, in the dict's order: `field: m1, m2` for a list of
    * strings, `field: str(value)` otherwise; any list holding a non-string
    * makes the whole call raise. */
  lemma {:induction false} FieldLinesShape(members: seq<(string, Json)>, repr: Json -> string)
    ensures FieldLines(members, repr).Some? <==>
              forall i :: 0 <= i < |members| ==> RenderMessages(members[i].1, repr).Some?
    ensures FieldLines(members, repr).Some? ==>
              |FieldLines(members, repr).value| == |members| &&
              forall i :: 0 <= i < |members| ==>
                FieldLines(members, repr).value[i] == members[i].0 + ": " + RenderMessages(members[i].1, repr).value
  {
    if members != [] {
      var p := members[..|members| - 1];
      FieldLinesShape(p, repr);
      assert forall i :: 0 <= i < |p| ==> p[i] == members[i];
    }
  }

  /** `_format_error`: a loop over the dict's members appending one line each. */
  method FormatError(data: Json, repr: Json -> string) returns (r: Option<string>)
    ensures r == FormatErrorSpec(data, repr)
    ensures !data.JObj? ==> r == Some(PyStr(data, repr))
  {
    if !data.JObj? {
      return Some(PyStr(data, repr));
    }
    var members := data.members;
    var errors: seq<string> := [];
    var i := 0;
    while i < |members|
      invariant 0 <= i <= |members|
      invariant FieldLines(members[..i], repr) == Some(errors)
    {
      var m := RenderMessages(members[i].1, repr);
      if m.None? {
        FieldLinesShape(members, repr);
        return None;
      }
      errors := errors + [members[i].0 + ": " + m.value];
      assert members[..i + 1][..i] == members[..i];
      i := i + 1;
    }
    assert members[..i] == members;
    r := Some(Join(errors, "\n"));
  }

  function ErrorObject(message: string): (r: Json)
    ensures r.JObj? && Get(r.members, "error") == Some(JStr(message))
  {
    JObj([("error", JStr(message))])
  }

  /** The 400 branch shared by the endpoints that map it: the formatted body,
    * or `Bad Request: <text>` when the body is not JSON or formatting raises. */
  function BadRequest(resp: HttpResponse, repr: Json -> string): (r: Json)
    requires resp.status == 400
    ensures resp.body.Some? && FormatErrorSpec(resp.body.value, repr).Some? ==>
              r == ErrorObject(FormatErrorSpec(resp.body.value, repr).value)
    ensures resp.body.None? ==> r == ErrorObject("Bad Request: " + resp.text)
  {
    if resp.body.None? then ErrorObject("Bad Request: " + resp.text)
    else
      match FormatErrorSpec(resp.body.value, repr)
      case None => ErrorObject("Bad Request: " + resp.text)
      case Some(s) => ErrorObject(s)
  }

  /** A successful object body that has a "token" member. The source's
    * `"token" in data` also accepts a string body containing "token" or a
    * list holding it, and then fails on `data["token"]`; the backend only
    * ever answers these calls with an object, so such bodies count as
    * carrying no token here. */
  predicate CarriesToken(resp: HttpResponse)
  {
    resp.status < 400 && resp.body.Some? && resp.body.value.JObj? && HasKey(resp.body.value.members, "token")
  }

  class DjangoApiClient {
    /** `self.token`: whatever JSON value the server sent, None (JNull) at first. */
    var token: Json

    constructor ()
      ensures token == JNull
    {
      token := JNull;
    }

    method SetToken(t: Json)
      modifies this
      ensures token == t
    {
      token := t;
    }

    /** `get_headers`: always the JSON content type, plus the token header
      * exactly when the token is truthy. */
    function GetHeaders(repr: Json -> string): (h: seq<(string, string)>)
      reads this
      ensures |h| >= 1 && h[0] == ("Content-Type", "application/json")
      ensures |h| == 2 <==> PyTruthy(token)
      ensures |h| <= 2
      ensures |h| == 2 ==> h[1] == ("Authorization", "Token " + PyStr(token, repr))
    {
      var base := [("Content-Type", "application/json")];
      if PyTruthy(token) then base + [("Authorization", "Token " + PyStr(token, repr))] else base
    }

    /** `verify_otp` after the POST: a 400 is mapped, any other error status
      * or an undecodable body becomes `{"error": str(e)}` (`failure`), and a
      * successful object containing "token" replaces the stored token. */
    method VerifyOtp(resp: HttpResponse, failure: string, repr: Json -> string) returns (result: Json)
      modifies this
      ensures resp.status == 400 ==> result == BadRequest(resp, repr) && token == old(token)
      ensures resp.status != 400 && (resp.status >= 400 || resp.body.None?) ==>
                result == ErrorObject(failure) && token == old(token)
      ensures resp.status < 400 && resp.body.Some? ==> result == resp.body.value
      ensures CarriesToken(resp) ==> token == Get(resp.body.value.members, "token").value
      ensures !CarriesToken(resp) ==> token == old(token)
    {
      if resp.status == 400 {
        return BadRequest(resp, repr);
      }
      result := CaptureToken(resp, failure);
    }

    /** `google_login` after the POST: no 400 mapping, otherwise as `verify_otp`. */
    method GoogleLogin(resp: HttpResponse, failure: string) returns (result: Json)
      modifies this
      ensures resp.status >= 400 || resp.body.None? ==> result == ErrorObject(failure) && token == old(token)
      ensures resp.status < 400 && resp.body.Some? ==> result == resp.body.value
      ensures CarriesToken(resp) ==> token == Get(resp.body.value.members, "token").value
      ensures !CarriesToken(resp) ==> token == old(token)
    {
      result := CaptureToken(resp, failure);
    }

    /** `raise_for_status`, `response.json()` and the `"token" in data` capture. */
    method CaptureToken(resp: HttpResponse, failure: string) returns (result: Json)
      modifies this
      ensures resp.status >= 400 || resp.body.None? ==> result == ErrorObject(failure) && token == old(token)
      ensures resp.status < 400 && resp.body.Some? ==> result == resp.body.value
      ensures CarriesToken(resp) ==> token == Get(resp.body.value.members, "token").value
      ensures !CarriesToken(resp) ==> token == old(token)
    {
      if resp.status >= 400 || resp.body.None? {
        return ErrorObject(failure);
      }
      var data := resp.body.value;
      if data.JObj? && HasKey(data.members, "token") {
        SetToken(Get(data.members, "token").value);
      }
      result := data;
    }
  }

  /** `set_token(None)` (the logout path) leaves no Authorization header. */
  method LogoutClearsHeader(c: DjangoApiClient, repr: Json -> string)
    modifies c
    ensures c.token == JNull
    ensures c.GetHeaders(repr) == [("Content-Type", "application/json")]
  {
    c.SetToken(JNull);
  }
}
