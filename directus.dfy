/** The session side of the client (DirectusPyWrapper/directus.py): the
    bearer-token header rule, the translations reshaping, and the token
    state that construction, `login`, `refresh` and `logout` keep. The
    server's replies and the clock are inputs. */
module Client {
  import opened Wrappers
  import opened Json
  import opened Python
  import opened Http
  import Responses

  // ------------------------------------------------------------ bearer auth

  /** `str.lower` on one character, for the ASCII letters. */
  function LowerChar(c: char): char
  {
    if 'A' <= c <= 'Z' then (c as int + 32) as char else c
  }

  /** `str.lower` for ASCII text. */
  function Lower(s: string): (r: string)
    ensures |r| == |s| && forall i :: 0 <= i < |s| ==> r[i] == LowerChar(s[i])
  {
    seq(|s|, i requires 0 <= i < |s| => LowerChar(s[i]))
  }

  /** Assigning a header: requests keeps headers in a case-insensitive
      dict, so the new name replaces every name equal to it up to case. */
  function SetHeader(headers: map<string, string>, name: string, value: string): map<string, string>
  {
    (map k | k in headers && Lower(k) != Lower(name) :: headers[k])[name := value]
  }

  /** `BearerAuth(token)`, which requests calls on every outgoing request. */
  datatype BearerAuth = BearerAuth(token: Option<string>) {
    /** `__call__`: set `authorization` only when there is a token. */
    function Apply(headers: map<string, string>): map<string, string>
    {
      if token.Some? then SetHeader(headers, "authorization", "Bearer " + token.value) else headers
    }
  }

  const BearerPrefix: string := "Bearer "

  /** How a server reads the token back out of the header value. This
      reader is not part of the client; it states what the header carries. */
  function ParseBearer(value: string): Option<string>
  {
    if |value| >= |BearerPrefix| && value[..|BearerPrefix|] == BearerPrefix then Some(value[|BearerPrefix|..])
    else None
  }

  /** With a token the request carries exactly one authorization header,
      whatever its case before, and it holds exactly that token; without
      one the request goes out as it was. No other header is touched. */
  lemma BearerHeaderRoundTrip(auth: BearerAuth, headers: map<string, string>)
    ensures auth.token.None? ==> auth.Apply(headers) == headers
    ensures auth.token.Some? ==>
      "authorization" in auth.Apply(headers) && ParseBearer(auth.Apply(headers)["authorization"]) == auth.token
    ensures auth.token.Some? ==>
      forall k :: k in auth.Apply(headers) && Lower(k) == "authorization" ==> k == "authorization"
    ensures forall k :: k in headers && Lower(k) != "authorization" ==> k in auth.Apply(headers) && auth.Apply(headers)[k] == headers[k]
    ensures auth.token.Some? ==>
      auth.Apply(headers).Keys == (set k | k in headers && Lower(k) != "authorization") + {"authorization"}
  {
    assert Lower("authorization") == "authorization";
    if auth.token.Some? {
      var v := BearerPrefix + auth.token.value;
      assert v[..|BearerPrefix|] == BearerPrefix && v[|BearerPrefix|..] == auth.token.value;
    }
  }

  // ----------------------------------------------------------- translations

  datatype TranslationRow = TranslationRow(languagesCode: string, translation: string)
  datatype TranslationEntry = TranslationEntry(key: string, translations: seq<TranslationRow>)

  /** A dict comprehension over pairs: later pairs overwrite earlier ones. */
  function ToMap<K, V>(ps: seq<(K, V)>): map<K, V>
    decreases |ps|
  {
    if ps == [] then map[] else ToMap(ps[..|ps| - 1])[ps[|ps| - 1].0 := ps[|ps| - 1].1]
  }

  /** The pairs' first components. */
  function Firsts<K, V>(ps: seq<(K, V)>): set<K>
  {
    set i | 0 <= i < |ps| :: ps[i].0
  }

  /** The keys are exactly the pairs' first components. */
  lemma {:induction false} ToMapKeys<K, V>(ps: seq<(K, V)>)
    ensures ToMap(ps).Keys == Firsts(ps)
    decreases |ps|
  {
    if ps != [] {
      var n := |ps| - 1;
      ToMapKeys(ps[..n]);
      assert Firsts(ps) == Firsts(ps[..n]) + {ps[n].0} by {
        forall i | 0 <= i < n ensures ps[..n][i].0 == ps[i].0 { }
        forall x | x in Firsts(ps) ensures x in Firsts(ps[..n]) + {ps[n].0} {
          var i :| 0 <= i < |ps| && ps[i].0 == x;
          if i < n {
            assert ps[..n][i].0 == x;
          }
        }
      }
    }
  }

  /** The value of a key is the one its last occurrence carries. */
  lemma {:induction false} ToMapLastWins<K, V>(ps: seq<(K, V)>, i: nat)
    requires i < |ps|
    requires forall j :: i < j < |ps| ==> ps[j].0 != ps[i].0
    ensures ps[i].0 in ToMap(ps) && ToMap(ps)[ps[i].0] == ps[i].1
    decreases |ps|
  {
    var n := |ps| - 1;
    if i < n {
      forall j | i < j < n ensures ps[..n][j].0 != ps[..n][i].0 {
        assert ps[..n][j] == ps[j];
      }
      ToMapLastWins(ps[..n], i);
    }
  }

  function RowPairs(rows: seq<TranslationRow>): (ps: seq<(string, string)>)
    ensures |ps| == |rows| && forall i :: 0 <= i < |rows| ==> ps[i] == (rows[i].languagesCode, rows[i].translation)
  {
    seq(|rows|, i requires 0 <= i < |rows| => (rows[i].languagesCode, rows[i].translation))
  }

  function EntryPairs(entries: seq<TranslationEntry>): (ps: seq<(string, map<string, string>)>)
    ensures |ps| == |entries| && forall i :: 0 <= i < |entries| ==> ps[i] == (entries[i].key, ToMap(RowPairs(entries[i].translations)))
  {
    seq(|entries|, i requires 0 <= i < |entries| => (entries[i].key, ToMap(RowPairs(entries[i].translations))))
  }

  /** `parse_translations`: `None` for no list or an empty one, otherwise
      key -> (language -> translation). */
  function ParseTranslations(all: Option<seq<TranslationEntry>>): Option<map<string, map<string, string>>>
  {
    if all.None? || all.value == [] then None else Some(ToMap(EntryPairs(all.value)))
  }

  /** `None` exactly for a missing or empty list; otherwise one key per
      entry key, and a key's languages are those of the last entry with
      that key, each language giving the last row's translation. */
  lemma ParseTranslationsSpec(all: Option<seq<TranslationEntry>>)
    ensures ParseTranslations(all).None? <==> all.None? || all.value == []
    ensures ParseTranslations(all).Some? ==>
      ParseTranslations(all).value.Keys == set i | 0 <= i < |all.value| :: all.value[i].key
  {
    if all.Some? && all.value != [] {
      var ps := EntryPairs(all.value);
      ToMapKeys(ps);
      assert Firsts(ps) == set i | 0 <= i < |all.value| :: all.value[i].key;
    }
  }

  lemma ParseTranslationsLastWins(entries: seq<TranslationEntry>, i: nat, j: nat)
    requires i < |entries| && j < |entries[i].translations|
    requires forall k :: i < k < |entries| ==> entries[k].key != entries[i].key
    requires forall k :: j < k < |entries[i].translations| ==>
      entries[i].translations[k].languagesCode != entries[i].translations[j].languagesCode
    ensures ParseTranslations(Some(entries)).Some?
    ensures var m := ParseTranslations(Some(entries)).value;
      entries[i].key in m && entries[i].translations[j].languagesCode in m[entries[i].key]
      && m[entries[i].key][entries[i].translations[j].languagesCode] == entries[i].translations[j].translation
  {
    var ps := EntryPairs(entries);
    ToMapLastWins(ps, i);
    ToMapLastWins(RowPairs(entries[i].translations), j);
  }

  // ---------------------------------------------------------- session state

  /** Why `login` or `refresh` stopped: the reply raised in the response
      constructor, or reading its item raised. */
  datatype ClientError =
    | Raised(exception: Responses.DirectusException)
    | Failed(error: PyError)
    /** An `access_token` that is neither a string nor null. */
    | UnsupportedToken(value: Json)

  /** The client's token-related attributes: `_token`, `auth`,
      `refresh_token`, `expires`, `expiration_time` (milliseconds on the
      caller's clock) and the session's own `auth`. */
  datatype Session = Session(
    token: Option<string>,
    auth: BearerAuth,
    refreshToken: Json,
    expires: Json,
    expirationTime: Option<int>,
    sessionAuth: Option<BearerAuth>)

  /** The state after an operation, and whether it raised. */
  datatype Outcome = Outcome(state: Session, error: Option<ClientError>)

  /** Truth of an optional string: `None` and `""` are false. */
  predicate Given(s: Option<string>)
  {
    s.Some? && s.value != []
  }

  /** `x or None` for an optional string. */
  function OrNone(s: Option<string>): Option<string>
  {
    if Given(s) then s else None
  }

  /** The header `auth` sends matches the token the getter returns. */
  predicate AuthAgrees(s: Session)
  {
    s.auth == BearerAuth(s.token)
  }

  /** A token value as the server sends it. */
  function TokenOf(j: Json): Result<Option<string>, ClientError>
  {
    match j
    case JNull => Ok(None)
    case JStr(t) => Ok(Some(t))
    case _ => Err(UnsupportedToken(j))
  }

  /** `timedelta(milliseconds=expires)` added to `now`: Python's booleans
      are the numbers 0 and 1, every other non-number raises. */
  function ExpiryAfter(now: int, expires: Json): Result<int, PyError>
  {
    match expires
    case JInt(ms) => Ok(now + ms)
    case JBool(b) => Ok(now + if b then 1 else 0)
    case _ => Err(TypeError)
  }

  /** The e-mail/password branch of `login`: read the reply's item and
      store, in order, the access token, the refresh token, `expires`, the
      expiry time and finally the header; a failure keeps what was stored
      before it. */
  function PasswordLogin(s: Session, reply: Reply, now: int): Outcome
  {
    match Responses.New(reply)
    case Err(e) => Outcome(s, Some(Raised(e)))
    case Ok(response) =>
      var item := Responses.Item(response);
      match Subscript(item, "access_token")
      case Err(e) => Outcome(s, Some(Failed(e)))
      case Ok(access) =>
        match TokenOf(access)
        case Err(e) => Outcome(s, Some(e))
        case Ok(token) =>
          var s1 := s.(token := token);
          match Subscript(item, "refresh_token")
          case Err(e) => Outcome(s1, Some(Failed(e)))
          case Ok(refresh) =>
            var s2 := s1.(refreshToken := refresh);
            match Subscript(item, "expires")
            case Err(e) => Outcome(s2, Some(Failed(e)))
            case Ok(expires) =>
              var s3 := s2.(expires := expires);
              match ExpiryAfter(now, expires)
              case Err(e) => Outcome(s3, Some(Failed(e)))
              case Ok(at) => Outcome(s3.(expirationTime := Some(at), auth := BearerAuth(token)), None)
  }

  /** `login` as written: a static token is stored in `_token` only, the
      header object is left as it was. */
  function LoggedInAsWritten(s: Session, staticToken: Option<string>, reply: Reply, now: int): Outcome
  {
    if Given(staticToken) then Outcome(s.(token := staticToken), None)
    else PasswordLogin(s, reply, now)
  }

  /** `login` with the static token stored through the `token` setter, so
      that the header follows it. */
  function LoggedIn(s: Session, staticToken: Option<string>, reply: Reply, now: int): Outcome
  {
    if Given(staticToken) then Outcome(s.(token := staticToken, auth := BearerAuth(staticToken)), None)
    else PasswordLogin(s, reply, now)
  }

  /** `refresh`: the token through the setter, then `refresh_token` and
      `expires`; the expiry time is not recomputed. */
  function Refreshed(s: Session, reply: Reply): Outcome
  {
    match Responses.New(reply)
    case Err(e) => Outcome(s, Some(Raised(e)))
    case Ok(response) =>
      var item := Responses.Item(response);
      match Subscript(item, "access_token")
      case Err(e) => Outcome(s, Some(Failed(e)))
      case Ok(access) =>
        match TokenOf(access)
        case Err(e) => Outcome(s, Some(e))
        case Ok(token) =>
          var s1 := s.(token := token, auth := BearerAuth(token));
          match Subscript(item, "refresh_token")
          case Err(e) => Outcome(s1, Some(Failed(e)))
          case Ok(refresh) =>
            var s2 := s1.(refreshToken := refresh);
            match Subscript(item, "expires")
            case Err(e) => Outcome(s2, Some(Failed(e)))
            case Ok(expires) => Outcome(s2.(expires := expires), None)
  }

  // ----------------------------------------------------------------- lemmas

  /** A password login that succeeds stores the reply item's values and
      leaves the header in step with the token. */
  lemma PasswordLoginSucceeds(s: Session, reply: Reply, now: int)
    ensures PasswordLogin(s, reply, now).error.None? ==>
      var r := PasswordLogin(s, reply, now).state;
      var item := Responses.Item(Responses.New(reply).value);
      && AuthAgrees(r)
      && item.JObject? && "access_token" in item.fields && "refresh_token" in item.fields && "expires" in item.fields
      && TokenOf(item.fields["access_token"]) == Ok(r.token)
      && r.refreshToken == item.fields["refresh_token"] && r.expires == item.fields["expires"]
      && ExpiryAfter(now, r.expires) == Ok(r.expirationTime.value) && r.expirationTime.Some?
      && r.sessionAuth == s.sessionAuth
    ensures PasswordLogin(s, reply, now).error.Some? ==> PasswordLogin(s, reply, now).state.auth == s.auth
  {
  }

  /** A password login whose reply raises in the response constructor
      changes nothing. */
  lemma PasswordLoginRejected(s: Session, reply: Reply, now: int)
    requires reply.body.Some? && !IsSuccessStatus(reply.status)
    ensures PasswordLogin(s, reply, now).state == s
    ensures PasswordLogin(s, reply, now).error.Some? && PasswordLogin(s, reply, now).error.value.Raised?
  {
  }

  /** The corrected `login` always leaves the header in step with the token
      when it succeeds, whatever the state before. */
  lemma LoginKeepsAuthInStep(s: Session, staticToken: Option<string>, reply: Reply, now: int)
    ensures LoggedIn(s, staticToken, reply, now).error.None? ==> AuthAgrees(LoggedIn(s, staticToken, reply, now).state)
    ensures Given(staticToken) ==> LoggedIn(s, staticToken, reply, now).state.token == staticToken
  {
    PasswordLoginSucceeds(s, reply, now);
  }

  /** As written, a static-token login after the token was changed leaves
      the header sending the changed token while the getter reports the
      static one. */
  lemma LoginAsWrittenLeavesStaleHeader(s: Session, staticToken: Option<string>, reply: Reply, now: int)
    requires Given(staticToken) && AuthAgrees(s) && s.token != staticToken
    ensures var r := LoggedInAsWritten(s, staticToken, reply, now).state;
      r.token == staticToken && r.auth == BearerAuth(s.token) && !AuthAgrees(r)
  {
  }

  /** The two agree whenever the token is the static one as `__init__`
      stores it (`token or None`) and the header carries it, as right after
      construction, which is why the defect needs a token change in between. */
  lemma LoginAsWrittenAgreesAtStart(s: Session, staticToken: Option<string>, reply: Reply, now: int)
    requires AuthAgrees(s) && s.token == OrNone(staticToken)
    ensures LoggedInAsWritten(s, staticToken, reply, now) == LoggedIn(s, staticToken, reply, now)
  {
  }

  /** `Directus(url, token="S")`, then `token = "T"`, then `login()`: the
      getter says S, the header says Bearer T. */
  lemma StaleHeaderExample(reply: Reply, now: int)
    ensures
      var start := Session(Some("S"), BearerAuth(Some("S")), JNull, JNull, None, None);
      var changed := start.(token := Some("T"), auth := BearerAuth(Some("T")));
      var r := LoggedInAsWritten(changed, Some("S"), reply, now).state;
      r.token == Some("S") && r.auth.Apply(map[])["authorization"] == "Bearer T"
      && LoggedIn(changed, Some("S"), reply, now).state.auth.Apply(map[])["authorization"] == "Bearer S"
  {
    assert "S" != "T";
  }

  /** `refresh` keeps the header in step with the token on every path,
      failed ones included, since it stores the token through the setter
      before anything else can fail. */
  lemma RefreshKeepsAuthInStep(s: Session, reply: Reply)
    requires AuthAgrees(s)
    ensures AuthAgrees(Refreshed(s, reply).state)
  {
  }

  /** A successful `refresh` stores the item's three values and leaves the
      expiry time and the session's auth as they were. */
  lemma RefreshSucceeds(s: Session, reply: Reply)
    ensures Refreshed(s, reply).error.None? ==>
      var r := Refreshed(s, reply).state;
      var item := Responses.Item(Responses.New(reply).value);
      && item.JObject? && "access_token" in item.fields && "refresh_token" in item.fields && "expires" in item.fields
      && TokenOf(item.fields["access_token"]) == Ok(r.token)
      && r.refreshToken == item.fields["refresh_token"] && r.expires == item.fields["expires"]
      && r.expirationTime == s.expirationTime && r.sessionAuth == s.sessionAuth
  {
  }

  // ------------------------------------------------------------ the client

  class Directus {
    const url: string
    const email: Option<string>
    const password: Option<string>
    const staticToken: Option<string>
    var token: Option<string>
    var auth: BearerAuth
    var refreshToken: Json
    var expires: Json
    var expirationTime: Option<int>
    var sessionAuth: Option<BearerAuth>

    ghost function State(): Session
      reads this
    {
      Session(token, auth, refreshToken, expires, expirationTime, sessionAuth)
    }

    /** `__init__` up to the login decision: no expiry, the given refresh
        token, and the static token (when non-empty) set through the setter. */
    constructor(url: string, email: Option<string>, password: Option<string>, staticToken: Option<string>,
                refreshToken: Json, sessionAuth: Option<BearerAuth>)
      ensures this.url == url && this.email == email && this.password == password && this.staticToken == staticToken
      ensures State() == Session(OrNone(staticToken), BearerAuth(OrNone(staticToken)), refreshToken, JNull, None, sessionAuth)
      ensures AuthAgrees(State())
    {
      this.url := url;
      this.email := email;
      this.password := password;
      this.staticToken := staticToken;
      this.expires := JNull;
      this.expirationTime := None;
      this.refreshToken := refreshToken;
      this.sessionAuth := sessionAuth;
      this.token := None;
      this.auth := BearerAuth(None);
      new;
      SetToken(if staticToken.Some? && staticToken.value != [] then staticToken else None);
    }

    /** The `token` setter: the header is rebuilt with the new token. */
    method SetToken(t: Option<string>)
      modifies this
      ensures State() == old(State()).(token := t, auth := BearerAuth(t))
      ensures AuthAgrees(State())
    {
      token := t;
      auth := BearerAuth(t);
    }

    /** `login()` with the static token stored through the setter. */
    method Login(reply: Reply, now: int) returns (error: Option<ClientError>)
      modifies this
      ensures Outcome(State(), error) == LoggedIn(old(State()), staticToken, reply, now)
    {
      if staticToken.Some? && staticToken.value != [] {
        SetToken(staticToken);
        return None;
      }
      error := LoginWithPassword(reply, now);
    }

    /** `login()` as written: `_token` is assigned directly. */
    method LoginAsWritten(reply: Reply, now: int) returns (error: Option<ClientError>)
      modifies this
      ensures Outcome(State(), error) == LoggedInAsWritten(old(State()), staticToken, reply, now)
    {
      if staticToken.Some? && staticToken.value != [] {
        token := staticToken;
        return None;
      }
      error := LoginWithPassword(reply, now);
    }

    /** The e-mail/password branch shared by both. */
    method LoginWithPassword(reply: Reply, now: int) returns (error: Option<ClientError>)
      modifies this
      ensures Outcome(State(), error) == PasswordLogin(old(State()), reply, now)
    {
      var response := Responses.New(reply);
      if response.Err? {
        return Some(Raised(response.error));
      }
      var item := Responses.Item(response.value);
      var access := Subscript(item, "access_token");
      if access.Err? {
        return Some(Failed(access.error));
      }
      var t := TokenOf(access.value);
      if t.Err? {
        return Some(t.error);
      }
      token := t.value;
      var refresh := Subscript(item, "refresh_token");
      if refresh.Err? {
        return Some(Failed(refresh.error));
      }
      refreshToken := refresh.value;
      var exp := Subscript(item, "expires");
      if exp.Err? {
        return Some(Failed(exp.error));
      }
      expires := exp.value;
      var at := ExpiryAfter(now, expires);
      if at.Err? {
        return Some(Failed(at.error));
      }
      expirationTime := Some(at.value);
      auth := BearerAuth(token);
      error := None;
    }

    /** `refresh()`. */
    method Refresh(reply: Reply) returns (error: Option<ClientError>)
      modifies this
      ensures Outcome(State(), error) == Refreshed(old(State()), reply)
    {
      var response := Responses.New(reply);
      if response.Err? {
        return Some(Raised(response.error));
      }
      var item := Responses.Item(response.value);
      var access := Subscript(item, "access_token");
      if access.Err? {
        return Some(Failed(access.error));
      }
      var t := TokenOf(access.value);
      if t.Err? {
        return Some(t.error);
      }
      SetToken(t.value);
      var refresh := Subscript(item, "refresh_token");
      if refresh.Err? {
        return Some(Failed(refresh.error));
      }
      refreshToken := refresh.value;
      var exp := Subscript(item, "expires");
      if exp.Err? {
        return Some(Failed(exp.error));
      }
      expires := exp.value;
      error := None;
    }

    /** `logout()`: only the session's auth is cleared; the client's own
        header object keeps the token. */
    method Logout(reply: Reply) returns (ok: bool)
      modifies this
      ensures State() == old(State()).(sessionAuth := None)
      ensures ok <==> reply.status == 200
    {
      sessionAuth := None;
      ok := reply.status == 200;
    }
  }

  /** `Directus(...)`: construct, then log in (as written) when both e-mail
      and password are given; a login that raises means no client. On a
      fresh client the as-written login keeps the header in step. */
  method Open(url: string, email: Option<string>, password: Option<string>, staticToken: Option<string>,
              refreshToken: Json, sessionAuth: Option<BearerAuth>, reply: Reply, now: int)
    returns (r: Result<Directus, ClientError>)
    ensures var start := Session(OrNone(staticToken), BearerAuth(OrNone(staticToken)), refreshToken, JNull, None, sessionAuth);
      && (!(Given(email) && Given(password)) ==> r.Ok? && r.value.State() == start)
      && (Given(email) && Given(password) ==>
            var o := LoggedInAsWritten(start, staticToken, reply, now);
            (o.error.Some? ==> r == Err(o.error.value))
            && (o.error.None? ==> r.Ok? && r.value.State() == o.state))
      && (r.Ok? ==> fresh(r.value) && AuthAgrees(r.value.State()))
  {
    var d := new Directus(url, email, password, staticToken, refreshToken, sessionAuth);
    if email.Some? && email.value != [] && password.Some? && password.value != [] {
      ghost var start := d.State();
      var error := d.LoginAsWritten(reply, now);
      LoginAsWrittenAgreesAtStart(start, staticToken, reply, now);
      LoginKeepsAuthInStep(start, staticToken, reply, now);
      if error.Some? {
        return Err(error.value);
      }
    }
    r := Ok(d);
  }
}
