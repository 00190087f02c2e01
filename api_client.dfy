/**
 * The web client's API wrapper (web/src/lib/api.ts): the token it keeps in
 * memory and in `localStorage`, the request headers, the session flags,
 * the capture of the token after login and OTP verification, and the
 * formatting of error bodies. `fetch` is replaced by the reply it produced.
 */
module ApiClient {
  import opened Common
  import opened Json

  type Storage = map<string, string>

  /** What `fetch` and `response.json()` produced: a thrown network error,
    * or a reply whose body may fail to parse (None). */
  datatype FetchReply = NetworkFailure | Reply(ok: bool, body: Option<Json>)

  /** The `{ data }` / `{ error }` objects the client methods resolve to. */
  datatype ApiResponse = Data(data: Json) | Error(message: string)

  // ------------------------------------------------------------ formatError

  /** `Object.entries` of an object or array (array indices as keys). */
  function Entries(e: Json): (r: seq<(string, Json)>)
    requires e.JObj? || e.JArr?
    ensures e.JObj? ==> r == e.members
    ensures e.JArr? ==> (|r| == |e.items| &&
              forall i :: 0 <= i < |r| ==> r[i] == (NatToString(i), e.items[i]))
  {
    if e.JObj? then e.members
    else seq(|e.items|, i requires 0 <= i < |e.items| => (NatToString(i), e.items[i]))
  }

  /** One pushed line: `${field}: ${messages.join(', ')}` or `${field}: ${messages}`. */
  function EntryLine(field: string, messages: Json, num: real -> string): string
  {
    if messages.JArr? then field + ": " + JsJoin(messages.items, ", ", num)
    else field + ": " + JsStr(messages, num)
  }

  function EntryLines(entries: seq<(string, Json)>, num: real -> string): (r: seq<string>)
    ensures |r| == |entries|
    ensures forall i :: 0 <= i < |r| ==> r[i] == EntryLine(entries[i].0, entries[i].1, num)
  {
    seq(|entries|, i requires 0 <= i < |entries| => EntryLine(entries[i].0, entries[i].1, num))
  }

  /** What `formatError` returns. */
  function FormatErrorSpec(e: Json, num: real -> string): string
  {
    match e
    case JStr(s) => s
    case JObj(m) =>
      if HasKey(m, "error") then JsStr(Get(m, "error").value, num)
      else Join(EntryLines(m, num), "\n")
    case JArr(_) => Join(EntryLines(Entries(e), num), "\n")
    case _ => "An error occurred"
  }

  /** The precedence of `formatError`'s branches: a string is returned as it
    * is; an object with an `error` key yields only that value; other
    * objects and arrays yield one line per entry; anything else (null, a
    * boolean, a number) yields the generic message. */
  lemma FormatErrorCases(e: Json, num: real -> string)
    ensures e.JStr? ==> FormatErrorSpec(e, num) == e.s
    ensures e.JObj? && HasKey(e.members, "error") ==>
              FormatErrorSpec(e, num) == JsStr(Get(e.members, "error").value, num)
    ensures e.JObj? && HasKey(e.members, "error") && Get(e.members, "error").value.JStr? ==>
              FormatErrorSpec(e, num) == Get(e.members, "error").value.s
    ensures (e.JNull? || e.JBool? || e.JInt? || e.JFloat?) ==> FormatErrorSpec(e, num) == "An error occurred"
    ensures (e.JArr? || (e.JObj? && !HasKey(e.members, "error"))) ==>
              FormatErrorSpec(e, num) == Join(EntryLines(Entries(e), num), "\n")
  {
  }

  /** `formatError`: the loop over `Object.entries` pushing one line each. */
  method FormatError(e: Json, num: real -> string) returns (r: string)
    ensures r == FormatErrorSpec(e, num)
  {
    if e.JStr? {
      return e.s;
    }
    if e.JObj? && HasKey(e.members, "error") {
      return JsStr(Get(e.members, "error").value, num);
    }
    if e.JObj? || e.JArr? {
      var entries := Entries(e);
      var errors: seq<string> := [];
      var i := 0;
      while i < |entries|
        invariant 0 <= i <= |entries|
        invariant errors == EntryLines(entries[..i], num)
      {
        var field, messages := entries[i].0, entries[i].1;
        if messages.JArr? {
          errors := errors + [field + ": " + JsJoin(messages.items, ", ", num)];
        } else {
          errors := errors + [field + ": " + JsStr(messages, num)];
        }
        i := i + 1;
      }
      assert entries[..i] == entries;
      return Join(errors, "\n");
    }
    return "An error occurred";
  }

  // ------------------------------------------------------------ storage rules

  /** `localStorage` after `setToken(t)`. */
  function StorageAfterSetToken(s: Storage, t: Option<string>): (r: Storage)
  {
    if t.Some? && t.value != [] then s["auth_token" := t.value]["isAuthenticated" := "true"]
    else s - {"auth_token", "isAuthenticated", "user_data"}
  }

  /** `isAuthenticated()` for a given token and storage. */
  predicate AuthenticatedIn(token: Option<string>, s: Storage)
  {
    token.Some? && "isAuthenticated" in s && s["isAuthenticated"] == "true"
  }

  /** Right after `setToken(t)` the client is authenticated exactly when `t`
    * is a non-empty string; every other key of the storage is untouched
    * except `user_data`, which a clearing call removes. */
  lemma SetTokenAuthenticates(s: Storage, t: Option<string>)
    ensures AuthenticatedIn(t, StorageAfterSetToken(s, t)) <==> t.Some? && t.value != []
    ensures forall k :: k !in {"auth_token", "isAuthenticated", "user_data"} ==>
              (k in StorageAfterSetToken(s, t) <==> k in s) &&
              (k in s ==> StorageAfterSetToken(s, t)[k] == s[k])
    ensures t.Some? && t.value != [] ==> StorageAfterSetToken(s, t)["auth_token"] == t.value
    ensures !(t.Some? && t.value != []) ==>
              "auth_token" !in StorageAfterSetToken(s, t) && "user_data" !in StorageAfterSetToken(s, t)
  {
  }

  const UserKeys := ["user_id", "username", "email", "full_name"]

  /** The user object `login` and `verifyOTP` store: exactly the four fields
    * that are present in the reply (`JSON.stringify` drops undefined ones),
    * in the order the object literal lists them. */
  function UserRecord(m: seq<(string, Json)>): (r: seq<(string, Json)>)
    ensures forall k :: 0 <= k < |r| ==> r[k].0 in UserKeys && Get(m, r[k].0) == Some(r[k].1)
    ensures forall key :: key in UserKeys && Get(m, key).Some? ==> (key, Get(m, key).value) in r
    ensures SubsequenceOf(KeysOf(r), UserKeys)
  {
    PickedInOrder(m, UserKeys);
    Picked(m, UserKeys)
  }

  /** The keys of an object's entries, in order. */
  function KeysOf(r: seq<(string, Json)>): seq<string>
  {
    if r == [] then [] else [r[0].0] + KeysOf(r[1..])
  }

  /** `xs` is `ys` with some elements left out. */
  predicate SubsequenceOf(xs: seq<string>, ys: seq<string>)
  {
    if xs == [] then true
    else if ys == [] then false
    else (xs[0] == ys[0] && SubsequenceOf(xs[1..], ys[1..])) || SubsequenceOf(xs, ys[1..])
  }

  /** The entries of `m` under `keys`, skipping absent ones: every entry is
    * one of the keys with its value, and every present key has its entry. */
  function Picked(m: seq<(string, Json)>, keys: seq<string>): (r: seq<(string, Json)>)
    ensures forall k :: 0 <= k < |r| ==> r[k].0 in keys && Get(m, r[k].0) == Some(r[k].1)
    ensures forall key :: key in keys && Get(m, key).Some? ==> (key, Get(m, key).value) in r
  {
    if keys == [] then []
    else
      var rest := Picked(m, keys[1..]);
      match Get(m, keys[0])
      case None => rest
      case Some(v) => [(keys[0], v)] + rest
  }

  /** The picked entries follow the order of `keys`. */
  lemma {:induction false} PickedInOrder(m: seq<(string, Json)>, keys: seq<string>)
    ensures SubsequenceOf(KeysOf(Picked(m, keys)), keys)
  {
    if keys != [] {
      PickedInOrder(m, keys[1..]);
      var rest := Picked(m, keys[1..]);
      if Get(m, keys[0]).Some? {
        var r := [(keys[0], Get(m, keys[0]).value)] + rest;
        assert r[1..] == rest;
        assert KeysOf(r) == [keys[0]] + KeysOf(rest);
      } else {
        assert Picked(m, keys) == rest;
        SubsequenceSkip(KeysOf(rest), keys);
      }
    }
  }

  lemma SubsequenceSkip(xs: seq<string>, ys: seq<string>)
    requires ys != [] && SubsequenceOf(xs, ys[1..])
    ensures SubsequenceOf(xs, ys)
  {
  }

  /** The parsed `user_data` of a storage, or null when it is absent or empty
    * (`parse` is `JSON.parse`, returning an object or null). */
  function StoredUser(s: Storage, parse: string -> Option<seq<(string, Json)>>): Option<seq<(string, Json)>>
  {
    if "user_data" in s && s["user_data"] != [] then parse(s["user_data"]) else None
  }

  /** What `setUserData` stores, `getUserData` reads back through the parser. */
  lemma StoredUserAfterSet(s: Storage, text: string, parse: string -> Option<seq<(string, Json)>>)
    requires text != []
    ensures StoredUser(s["user_data" := text], parse) == parse(text)
    ensures forall k :: k in s && k != "user_data" ==> k in s["user_data" := text] && s["user_data" := text][k] == s[k]
  {
  }

  class ApiClient {
    var token: Option<string>
    var storage: Storage

    /** The constructor reads `auth_token` from the storage it starts with. */
    constructor (initial: Storage)
      ensures storage == initial
      ensures token == (if "auth_token" in initial then Some(initial["auth_token"]) else None)
    {
      storage := initial;
      token := if "auth_token" in initial then Some(initial["auth_token"]) else None;
    }

    /** `getHeaders`: the JSON content type, plus `Token <t>` when a non-empty
      * token is held. */
    function GetHeaders(): (h: seq<(string, string)>)
      reads this
      ensures |h| >= 1 && h[0] == ("Content-Type", "application/json")
      ensures |h| <= 2
      ensures |h| == 2 <==> token.Some? && token.value != []
      ensures |h| == 2 ==> h[1] == ("Authorization", "Token " + token.value)
    {
      var base := [("Content-Type", "application/json")];
      if token.Some? && token.value != [] then base + [("Authorization", "Token " + token.value)] else base
    }

    method SetToken(t: Option<string>)
      modifies this
      ensures token == t
      ensures storage == StorageAfterSetToken(old(storage), t)
      ensures IsAuthenticated() <==> t.Some? && t.value != []
    {
      token := t;
      if t.Some? && t.value != [] {
        storage := storage["auth_token" := t.value];
        storage := storage["isAuthenticated" := "true"];
      } else {
        storage := storage - {"auth_token"};
        storage := storage - {"isAuthenticated"};
        storage := storage - {"user_data"};
      }
      SetTokenAuthenticates(old(storage), t);
    }

    function GetToken(): Option<string>
      reads this
    {
      token
    }

    /** `setUserData`: `text` is `JSON.stringify` of the user object. */
    method SetUserData(text: string)
      modifies this
      ensures token == old(token)
      ensures storage == old(storage)["user_data" := text]
    {
      storage := storage["user_data" := text];
    }

    /** `getUserData`: the parsed `user_data`, or null when it is absent or empty. */
    function GetUserData(parse: string -> Option<seq<(string, Json)>>): (u: Option<seq<(string, Json)>>)
      reads this
      ensures !("user_data" in storage && storage["user_data"] != []) ==> u.None?
      ensures "user_data" in storage && storage["user_data"] != [] ==> u == parse(storage["user_data"])
    {
      StoredUser(storage, parse)
    }

    /** `logout` clears the token and the three session keys. */
    method Logout()
      modifies this
      ensures token.None?
      ensures storage == old(storage) - {"auth_token", "isAuthenticated", "user_data"}
      ensures !IsAuthenticated()
    {
      SetToken(None);
    }

    /** `isAuthenticated`: a token is held and the stored flag reads 'true'. */
    predicate IsAuthenticated()
      reads this
    {
      AuthenticatedIn(token, storage)
    }

    /** `login` once the reply is in: an error status is formatted; a truthy
      * `token` is kept with the user record (`stringify` is `JSON.stringify`)
      * and the login time `now` in milliseconds. */
    method Login(reply: FetchReply, now: int, stringify: Json -> string, num: real -> string)
      returns (r: ApiResponse)
      modifies this
      ensures reply.NetworkFailure? || reply.body.None? || (reply.ok && reply.body.value.JNull?) ==>
                r == Error("Network error. Please check if Django server is running.") &&
                token == old(token) && storage == old(storage)
      ensures reply.Reply? && !reply.ok && reply.body.Some? ==>
                r == Error(FormatErrorSpec(reply.body.value, num)) &&
                token == old(token) && storage == old(storage)
      ensures TokenReply(reply) ==>
                var m := reply.body.value.members;
                var t := Get(m, "token").value.s;
                r == Data(reply.body.value) && token == Some(t) &&
                storage == StorageAfterSetToken(old(storage), Some(t))
                             ["user_data" := stringify(JObj(UserRecord(m)))]
                             ["login_timestamp" := IntToString(now)]
      ensures reply.Reply? && reply.ok && reply.body.Some? && !reply.body.value.JNull? && !TokenReply(reply) ==>
                r == Data(reply.body.value) && token == old(token) && storage == old(storage)
    {
      r := Capture(reply, stringify, num, "Network error. Please check if Django server is running.");
      if TokenReply(reply) {
        storage := storage["login_timestamp" := IntToString(now)];
      }
    }

    /** `verifyOTP` once the reply is in: as `login`, without the timestamp. */
    method VerifyOtp(reply: FetchReply, stringify: Json -> string, num: real -> string)
      returns (r: ApiResponse)
      modifies this
      ensures reply.NetworkFailure? || reply.body.None? || (reply.ok && reply.body.value.JNull?) ==>
                r == Error("Network error. Please try again.") &&
                token == old(token) && storage == old(storage)
      ensures reply.Reply? && !reply.ok && reply.body.Some? ==>
                r == Error(FormatErrorSpec(reply.body.value, num)) &&
                token == old(token) && storage == old(storage)
      ensures TokenReply(reply) ==>
                var m := reply.body.value.members;
                var t := Get(m, "token").value.s;
                r == Data(reply.body.value) && token == Some(t) &&
                storage == StorageAfterSetToken(old(storage), Some(t))
                             ["user_data" := stringify(JObj(UserRecord(m)))]
      ensures reply.Reply? && reply.ok && reply.body.Some? && !reply.body.value.JNull? && !TokenReply(reply) ==>
                r == Data(reply.body.value) && token == old(token) && storage == old(storage)
    {
      r := Capture(reply, stringify, num, "Network error. Please try again.");
    }

    /** The part `login` and `verifyOTP` share. Reading `result.token` of a
      * null body throws, which the `catch` reports as a network error. */
    method Capture(reply: FetchReply, stringify: Json -> string, num: real -> string, network: string)
      returns (r: ApiResponse)
      modifies this
      ensures reply.NetworkFailure? || reply.body.None? || (reply.ok && reply.body.value.JNull?) ==>
                r == Error(network) && token == old(token) && storage == old(storage)
      ensures reply.Reply? && !reply.ok && reply.body.Some? ==>
                r == Error(FormatErrorSpec(reply.body.value, num)) &&
                token == old(token) && storage == old(storage)
      ensures TokenReply(reply) ==>
                var m := reply.body.value.members;
                var t := Get(m, "token").value.s;
                r == Data(reply.body.value) && token == Some(t) &&
                storage == StorageAfterSetToken(old(storage), Some(t))["user_data" := stringify(JObj(UserRecord(m)))]
      ensures reply.Reply? && reply.ok && reply.body.Some? && !reply.body.value.JNull? && !TokenReply(reply) ==>
                r == Data(reply.body.value) && token == old(token) && storage == old(storage)
    {
      if reply.NetworkFailure? || reply.body.None? {
        return Error(network);
      }
      var result := reply.body.value;
      if !reply.ok {
        var msg := FormatError(result, num);
        return Error(msg);
      }
      if result.JNull? {
        return Error(network);
      }
      if TokenReply(reply) {
        var m := result.members;
        var t := Get(m, "token").value.s;
        SetToken(Some(t));
        SetUserData(stringify(JObj(UserRecord(m))));
      }
      r := Data(result);
    }
  }

  /** A successful object reply whose `token` is a non-empty (truthy) string. */
  predicate TokenReply(reply: FetchReply)
  {
    reply.Reply? && reply.ok && reply.body.Some? && reply.body.value.JObj? &&
    HasKey(reply.body.value.members, "token") &&
    Get(reply.body.value.members, "token").value.JStr? &&
    Get(reply.body.value.members, "token").value.s != []
  }
}
