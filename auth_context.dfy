/**
 * The web client's session holder (web/src/contexts/AuthContext.tsx): the
 * React state `user`, `token` and `isLoading`, the 48-hour session restore
 * on start-up, and `login`, `logout` and `updateUser`, which also write
 * through the shared API client and `localStorage`.
 */
module AuthContext {
  import opened Common
  import opened Json
  import opened ApiClient

  /** 48 hours in milliseconds. */
  const SessionTimeoutMs: int := 48 * 60 * 60 * 1000

  // ------------------------------------------------------------ parseInt

  function DigitValue(c: char): nat
    requires IsDigit(c)
  {
    c as int - '0' as int
  }

  /** The value of the longest run of leading digits, with its length. */
  function LeadingDigits(s: string, acc: nat): (r: (nat, nat))
    ensures r.1 <= |s|
    ensures forall i :: 0 <= i < r.1 ==> IsDigit(s[i])
    ensures r.1 < |s| ==> !IsDigit(s[r.1])
  {
    if s != [] && IsDigit(s[0]) then
      var rest := LeadingDigits(s[1..], acc * 10 + DigitValue(s[0]));
      (rest.0, rest.1 + 1)
    else (acc, 0)
  }

  /** JavaScript's `parseInt(s)` on decimal text: leading whitespace and one
    * sign are skipped, then the leading decimal digits are read; None stands
    * for NaN. Without a radix `parseInt` reads a `0x` or `0X` prefix as
    * hexadecimal; that case is not modelled (here it reads as 0), and the
    * timestamps this module stores are always decimal. */
  function JsParseInt(s: string): (r: Option<int>)
  {
    var t := TrimLeft(s);
    var negative := t != [] && t[0] == '-';
    var u := if t != [] && (t[0] == '+' || t[0] == '-') then t[1..] else t;
    var (value, len) := LeadingDigits(u, 0);
    var v: int := value;
    if len == 0 then None else Some(if negative then -v else v)
  }

  /** The number a run of digits denotes when read after `acc`. */
  function DigitsValue(s: string, acc: nat): nat
    requires forall i :: 0 <= i < |s| ==> IsDigit(s[i])
  {
    if s == [] then acc else DigitsValue(s[1..], acc * 10 + DigitValue(s[0]))
  }

  lemma {:induction false} LeadingDigitsOfRun(s: string, t: string, acc: nat)
    requires forall i :: 0 <= i < |s| ==> IsDigit(s[i])
    requires t == [] || !IsDigit(t[0])
    ensures LeadingDigits(s + t, acc) == (DigitsValue(s, acc), |s|)
  {
    if s != [] {
      assert (s + t)[1..] == s[1..] + t;
      LeadingDigitsOfRun(s[1..], t, acc * 10 + DigitValue(s[0]));
    } else {
      assert s + t == t;
    }
  }

  lemma {:induction false} DigitsValueSnoc(s: string, d: char, acc: nat)
    requires forall i :: 0 <= i < |s| ==> IsDigit(s[i])
    requires IsDigit(d)
    ensures DigitsValue(s + [d], acc) == DigitsValue(s, acc) * 10 + DigitValue(d)
  {
    if s == [] {
      assert [d][1..] == [];
    } else {
      assert (s + [d])[1..] == s[1..] + [d];
      DigitsValueSnoc(s[1..], d, acc * 10 + DigitValue(s[0]));
    }
  }

  lemma DigitCharValue(k: nat)
    requires k < 10
    ensures DigitValue(DigitChar(k)) == k
  {
  }

  lemma {:induction false} DigitsValueOfNat(n: nat)
    ensures DigitsValue(NatToString(n), 0) == n
  {
    DigitCharValue(n % 10);
    if n < 10 {
      assert [DigitChar(n)][1..] == [];
    } else {
      DigitsValueOfNat(n / 10);
      DigitsValueSnoc(NatToString(n / 10), DigitChar(n % 10), 0);
    }
  }

  /** Reading back the decimal text `Date.now().toString()` wrote gives the
    * same number, so a fresh timestamp restores the session. */
  lemma ParseIntRoundTrip(n: nat)
    ensures JsParseInt(NatToString(n)) == Some(n)
  {
    var s := NatToString(n);
    assert !IsSpace(s[0]);
    assert TrimLeft(s) == s;
    assert s[0] != '+' && s[0] != '-';
    LeadingDigitsOfRun(s, [], 0);
    assert s + [] == s;
    assert LeadingDigits(s, 0) == (DigitsValue(s, 0), |s|);
    DigitsValueOfNat(n);
  }

  // ------------------------------------------------------------ spread

  predicate DistinctKeys(m: seq<(string, Json)>)
  {
    forall i, j :: 0 <= i < j < |m| ==> m[i].0 != m[j].0
  }

  /** Every member with key `k` gets the value `v`. */
  function Replace(m: seq<(string, Json)>, k: string, v: Json): (r: seq<(string, Json)>)
  {
    if m == [] then [] else [if m[0].0 == k then (k, v) else m[0]] + Replace(m[1..], k, v)
  }

  /** Setting one property of an object: replaced in place, or appended. */
  function SetKey(m: seq<(string, Json)>, k: string, v: Json): (r: seq<(string, Json)>)
  {
    if HasKey(m, k) then Replace(m, k, v) else m + [(k, v)]
  }

  lemma {:induction false} ReplaceGetSame(m: seq<(string, Json)>, k: string, v: Json)
    requires HasKey(m, k)
    ensures Get(Replace(m, k, v), k) == Some(v)
  {
    if m[0].0 != k {
      assert HasKey(m[1..], k) by {
        var i :| 0 <= i < |m| && m[i].0 == k;
        assert m[1..][i - 1].0 == k;
      }
      ReplaceGetSame(m[1..], k, v);
    }
  }

  lemma {:induction false} ReplaceGetOther(m: seq<(string, Json)>, k: string, v: Json, q: string)
    requires q != k
    ensures Get(Replace(m, k, v), q) == Get(m, q)
  {
    if m != [] && m[0].0 != q {
      ReplaceGetOther(m[1..], k, v, q);
    }
  }

  lemma SetKeyGet(m: seq<(string, Json)>, k: string, v: Json, q: string)
    ensures Get(SetKey(m, k, v), q) == if q == k then Some(v) else Get(m, q)
  {
    if HasKey(m, k) {
      if q == k { ReplaceGetSame(m, k, v); } else { ReplaceGetOther(m, k, v, q); }
    } else {
      GetAppend(m, (k, v), q);
    }
  }

  lemma {:induction false} GetAppend(m: seq<(string, Json)>, e: (string, Json), q: string)
    requires !HasKey(m, e.0)
    ensures Get(m + [e], q) == if q == e.0 then Some(e.1) else Get(m, q)
  {
    if m == [] {
    } else {
      assert (m + [e])[1..] == m[1..] + [e];
      assert !HasKey(m[1..], e.0) by {
        forall i | 0 <= i < |m[1..]| ensures m[1..][i].0 != e.0 { assert m[i + 1].0 != e.0; }
      }
      if m[0].0 != q {
        GetAppend(m[1..], e, q);
      }
    }
  }

  /** `{ ...user, ...patch }`. */
  function Merge(base: seq<(string, Json)>, patch: seq<(string, Json)>): seq<(string, Json)>
    decreases |patch|
  {
    if patch == [] then base else Merge(SetKey(base, patch[0].0, patch[0].1), patch[1..])
  }

  /** After the spread, a property of the patch wins and every other property
    * keeps the user's value. */
  lemma {:induction false} MergeGet(base: seq<(string, Json)>, patch: seq<(string, Json)>, q: string)
    requires DistinctKeys(patch)
    ensures Get(Merge(base, patch), q) == if HasKey(patch, q) then Get(patch, q) else Get(base, q)
    decreases |patch|
  {
    if patch != [] {
      var b2 := SetKey(base, patch[0].0, patch[0].1);
      MergeGet(b2, patch[1..], q);
      SetKeyGet(base, patch[0].0, patch[0].1, q);
      if q == patch[0].0 {
        assert !HasKey(patch[1..], q) by {
          forall i | 0 <= i < |patch[1..]| ensures patch[1..][i].0 != q {
            assert patch[i + 1].0 != patch[0].0;
          }
        }
      } else {
        assert HasKey(patch, q) <==> HasKey(patch[1..], q) by {
          if HasKey(patch, q) {
            var i :| 0 <= i < |patch| && patch[i].0 == q;
            assert patch[1..][i - 1].0 == q;
          }
          if HasKey(patch[1..], q) {
            var i :| 0 <= i < |patch[1..]| && patch[1..][i].0 == q;
            assert patch[i + 1].0 == q;
          }
        }
      }
    }
  }

  // ------------------------------------------------------------ the provider

  /** Storage after an expired or unreadable session is discarded. */
  function StorageAfterExpiry(s: Storage): (r: Storage)
  {
    s - {"auth_token", "user_data", "login_timestamp", "isAuthenticated"}
  }

  /** The three stored values the mount effect looks for are all truthy. */
  predicate SessionStored(token: Option<string>, user: Option<seq<(string, Json)>>, s: Storage)
  {
    token.Some? && token.value != [] && user.Some? && "login_timestamp" in s && s["login_timestamp"] != []
  }

  /** The restore condition: all three stored values present and the stored
    * login time less than 48 hours before `now`. */
  predicate SessionLive(token: Option<string>, user: Option<seq<(string, Json)>>, s: Storage, now: int)
  {
    SessionStored(token, user, s) &&
    JsParseInt(s["login_timestamp"]).Some? &&
    now - JsParseInt(s["login_timestamp"]).value < SessionTimeoutMs
  }

  /** A login stored at `t` and read back at `now` survives exactly when
    * fewer than 48 hours passed. */
  lemma FreshLoginRestores(token: string, user: seq<(string, Json)>, s: Storage, t: nat, now: int)
    requires token != []
    requires "login_timestamp" in s && s["login_timestamp"] == NatToString(t)
    ensures SessionLive(Some(token), Some(user), s, now) <==> now - t < SessionTimeoutMs
  {
    ParseIntRoundTrip(t);
  }

  class AuthProvider {
    var user: Option<seq<(string, Json)>>
    var token: Option<string>
    var isLoading: bool
    const api: ApiClient

    constructor (client: ApiClient)
      ensures api == client && user.None? && token.None? && isLoading
    {
      api := client;
      user := None;
      token := None;
      isLoading := true;
    }

    /** `isAuthenticated: !!token`. */
    predicate IsAuthenticated()
      reads this
    {
      token.Some? && token.value != []
    }

    /** The mount effect: restore a live session into state, or wipe an
      * expired one from storage and log the client out. */
    method Restore(now: int, parse: string -> Option<seq<(string, Json)>>)
      modifies this, api
      ensures !isLoading
      ensures SessionLive(old(api.token), StoredUser(old(api.storage), parse), old(api.storage), now) ==>
                token == old(api.token) && user == StoredUser(old(api.storage), parse) &&
                api.storage == old(api.storage) && api.token == old(api.token)
      ensures !SessionLive(old(api.token), StoredUser(old(api.storage), parse), old(api.storage), now) ==>
                token == old(token) && user == old(user)
      ensures !SessionLive(old(api.token), StoredUser(old(api.storage), parse), old(api.storage), now) &&
              SessionStored(old(api.token), StoredUser(old(api.storage), parse), old(api.storage)) ==>
                api.storage == StorageAfterExpiry(old(api.storage)) && api.token.None?
      ensures !SessionStored(old(api.token), StoredUser(old(api.storage), parse), old(api.storage)) ==>
                api.storage == old(api.storage) && api.token == old(api.token)
    {
      var storedToken := api.GetToken();
      var storedUser := api.GetUserData(parse);
      var loginTime := if "login_timestamp" in api.storage then Some(api.storage["login_timestamp"]) else None;
      if storedToken.Some? && storedToken.value != [] && storedUser.Some? && loginTime.Some? && loginTime.value != [] {
        var parsed := JsParseInt(loginTime.value);
        if parsed.Some? && now - parsed.value < SessionTimeoutMs {
          token := storedToken;
          user := storedUser;
        } else {
          DiscardSession();
        }
      }
      isLoading := false;
    }

    /** The expired branch of the mount effect. */
    method DiscardSession()
      modifies api
      ensures api.storage == StorageAfterExpiry(old(api.storage)) && api.token.None?
    {
      api.storage := api.storage - {"auth_token"};
      api.storage := api.storage - {"user_data"};
      api.storage := api.storage - {"login_timestamp"};
      api.storage := api.storage["isAuthenticated" := "false"];
      api.Logout();
    }

    /** `login`: state, API client and storage all take the new session. */
    method Login(newToken: string, userData: seq<(string, Json)>, now: int, stringify: Json -> string)
      modifies this, api
      ensures token == Some(newToken) && user == Some(userData) && isLoading == old(isLoading)
      ensures api.token == Some(newToken)
      ensures api.storage == StorageAfterSetToken(old(api.storage), Some(newToken))
                               ["user_data" := stringify(JObj(userData))]
                               ["login_timestamp" := IntToString(now)]
      ensures newToken != [] ==> IsAuthenticated() && api.IsAuthenticated()
    {
      token := Some(newToken);
      user := Some(userData);
      api.SetToken(Some(newToken));
      api.SetUserData(stringify(JObj(userData)));
      api.storage := api.storage["login_timestamp" := IntToString(now)];
    }

    /** `logout`: state cleared, client logged out, timestamp removed. */
    method Logout()
      modifies this, api
      ensures token.None? && user.None? && isLoading == old(isLoading)
      ensures api.token.None?
      ensures api.storage == old(api.storage) - {"auth_token", "isAuthenticated", "user_data", "login_timestamp"}
      ensures !IsAuthenticated() && !api.IsAuthenticated()
    {
      token := None;
      user := None;
      api.Logout();
      api.storage := api.storage - {"login_timestamp"};
    }

    /** `updateUser`: merge into an existing user and store it; no-op without one. */
    method UpdateUser(patch: seq<(string, Json)>, stringify: Json -> string)
      modifies this, api
      ensures old(user).None? ==> user == old(user) && api.storage == old(api.storage)
      ensures old(user).Some? ==> user == Some(Merge(old(user).value, patch)) &&
                                  api.storage == old(api.storage)["user_data" := stringify(JObj(user.value))]
      ensures token == old(token) && isLoading == old(isLoading) && api.token == old(api.token)
    {
      if user.Some? {
        var updated := Merge(user.value, patch);
        user := Some(updated);
        api.SetUserData(stringify(JObj(updated)));
      }
    }
  }
}
