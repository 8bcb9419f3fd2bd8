/**
 * The provider-facing endpoint: HTTP Basic authentication (section 2 of RFC 7617),
 * routing by method name, and the JSON-RPC 2.0 response object (section 5 of the
 * JSON-RPC 2.0 specification).
 */
module Rpc {
  import opened Common
  import opened PaymeErrors
  import opened MerchantSpec

  /** Deployment settings read from the environment. */
  datatype Config = Config(merchantId: string, secretKey: string, secretKeyTest: string, testMode: bool)

  /** The password the provider must present: the test key in test mode, the production key otherwise. */
  function ActiveSecret(cfg: Config): string {
    if cfg.testMode then cfg.secretKeyTest else cfg.secretKey
  }

  /** The fixed login of the provider. */
  const ProviderLogin: string := "Paycom"

  /** `String.prototype.split` with a one-character separator. */
  function Split(s: string, sep: char): (parts: seq<string>)
    ensures |parts| >= 1
    ensures forall k :: 0 <= k < |parts| ==> sep !in parts[k]
    ensures |parts| >= 2 <==> sep in s
    decreases |s|
  {
    if s == [] then [""]
    else
      var rest := Split(s[1..], sep);
      if s[0] == sep then [""] + rest
      else [[s[0]] + rest[0]] + rest[1..]
  }

  /** `Array.prototype.join` with a one-character separator. */
  function Join(parts: seq<string>, sep: char): string
    requires |parts| >= 1
    decreases |parts|
  {
    if |parts| == 1 then parts[0] else parts[0] + [sep] + Join(parts[1..], sep)
  }

  /** Splitting loses nothing: joining the parts restores the text. */
  lemma {:induction false} JoinSplit(s: string, sep: char)
    ensures Join(Split(s, sep), sep) == s
    decreases |s|
  {
    if s != [] {
      var rest := Split(s[1..], sep);
      JoinSplit(s[1..], sep);
      if s[0] == sep {
        assert ([""] + rest)[1..] == rest;
      } else if |rest| == 1 {
      } else {
        var parts := [[s[0]] + rest[0]] + rest[1..];
        assert parts[1..] == rest[1..];
        assert Join(rest, sep) == rest[0] + [sep] + Join(rest[1..], sep);
      }
    }
  }

  /** A text without the separator is one part. */
  lemma {:induction false} SplitWithoutSep(w: string, sep: char)
    requires sep !in w
    ensures Split(w, sep) == [w]
    decreases |w|
  {
    if w != [] {
      SplitWithoutSep(w[1..], sep);
      assert [w[0]] + w[1..] == w;
    }
  }

  /** Text before the first separator is the first part. */
  lemma {:induction false} SplitAtFirst(w: string, sep: char, t: string)
    requires sep !in w
    ensures Split(w + [sep] + t, sep) == [w] + Split(t, sep)
    decreases |w|
  {
    var s := w + [sep] + t;
    if w == [] {
      assert s[0] == sep && s[1..] == t;
    } else {
      assert s[0] == w[0] && s[1..] == w[1..] + [sep] + t;
      SplitAtFirst(w[1..], sep, t);
      assert [w[0]] + w[1..] == w;
    }
  }

  /** Parts without the separator are recovered from their join. */
  lemma {:induction false} SplitJoin(parts: seq<string>, sep: char)
    requires |parts| >= 1
    requires forall k :: 0 <= k < |parts| ==> sep !in parts[k]
    ensures Split(Join(parts, sep), sep) == parts
    decreases |parts|
  {
    if |parts| == 1 {
      SplitWithoutSep(parts[0], sep);
    } else {
      SplitJoin(parts[1..], sep);
      SplitAtFirst(parts[0], sep, Join(parts[1..], sep));
      assert [parts[0]] + parts[1..] == parts;
    }
  }

  predicate StartsWith(s: string, prefix: string) {
    |prefix| <= |s| && s[..|prefix|] == prefix
  }

  /**
   * The login and password of a `Basic` header: the second space-separated field is
   * decoded (`decode` stands for Base64 then UTF-8 decoding), then split at every `:`;
   * the password is the second piece, absent when there is no `:`.
   */
  function Credentials(header: string, decode: string -> string): (r: (string, Option<string>))
    requires StartsWith(header, "Basic ")
    ensures ':' !in r.0 && (r.1.Some? ==> ':' !in r.1.value)
  {
    assert header[5] == ' ';
    var fields := Split(decode(Split(header, ' ')[1]), ':');
    (fields[0], if |fields| >= 2 then Some(fields[1]) else None)
  }

  /** The caller is the provider: a `Basic` header whose login and password match. */
  predicate Authorized(cfg: Config, header: Option<string>, decode: string -> string) {
    header.Some? && StartsWith(header.value, "Basic ") &&
    var (login, password) := Credentials(header.value, decode);
    login == ProviderLogin && password == Some(ActiveSecret(cfg))
  }

  /** A well-formed header carrying `Paycom:<secret>` is accepted, provided the secret has no `:`. */
  lemma AcceptsProviderCredentials(cfg: Config, token: string, decode: string -> string)
    requires ' ' !in token
    requires ':' !in ActiveSecret(cfg)
    requires decode(token) == ProviderLogin + ":" + ActiveSecret(cfg)
    ensures Authorized(cfg, Some("Basic " + token), decode)
  {
    var header := "Basic " + token;
    assert header == "Basic" + [' '] + token;
    SplitAtFirst("Basic", ' ', token);
    SplitWithoutSep(token, ' ');
    assert Split(header, ' ') == ["Basic", token];
    assert decode(token) == ProviderLogin + [':'] + ActiveSecret(cfg);
    SplitAtFirst(ProviderLogin, ':', ActiveSecret(cfg));
    SplitWithoutSep(ActiveSecret(cfg), ':');
    assert header[..6] == "Basic ";
  }

  /** A `Basic <token>` header splits at spaces into the scheme and the token. */
  lemma BasicHeader(token: string)
    requires ' ' !in token
    ensures StartsWith("Basic " + token, "Basic ")
    ensures Split("Basic " + token, ' ') == ["Basic", token]
  {
    var header := "Basic " + token;
    assert header == "Basic" + [' '] + token;
    SplitAtFirst("Basic", ' ', token);
    SplitWithoutSep(token, ' ');
    assert header[..6] == "Basic ";
  }

  /** Credentials the provider check accepts have the form `login:password` or `login:password:...`. */
  lemma AcceptedFieldsShape(d: string, login: string, password: string)
    requires |Split(d, ':')| >= 2 && Split(d, ':')[0] == login && Split(d, ':')[1] == password
    ensures ':' !in password
    ensures d == login + ":" + password || StartsWith(d, login + ":" + password + ":")
  {
    var fields := Split(d, ':');
    JoinSplit(d, ':');
    assert d == login + [':'] + Join(fields[1..], ':');
    if |fields| > 2 {
      assert fields[1..][1..] == fields[2..];
      var prefix := login + ":" + password + ":";
      assert d == prefix + Join(fields[2..], ':');
      assert d[..|prefix|] == prefix;
    }
  }

  /** Conversely, text of that form splits into the login and the password first. */
  lemma FieldsOfAcceptedShape(d: string, login: string, password: string)
    requires ':' !in login && ':' !in password
    requires d == login + ":" + password || StartsWith(d, login + ":" + password + ":")
    ensures |Split(d, ':')| >= 2 && Split(d, ':')[0] == login && Split(d, ':')[1] == password
  {
    if d == login + ":" + password {
      assert d == login + [':'] + password;
      SplitAtFirst(login, ':', password);
      SplitWithoutSep(password, ':');
    } else {
      var prefix := login + ":" + password + ":";
      var rest := d[|prefix|..];
      assert d == login + [':'] + (password + [':'] + rest);
      SplitAtFirst(login, ':', password + [':'] + rest);
      SplitAtFirst(password, ':', rest);
    }
  }

  /**
   * For a header `Basic <token>`, the provider is accepted exactly when the secret has no `:`
   * and the decoded token is `Paycom:<secret>`, possibly followed by `:` and anything else.
   */
  lemma AuthorizedExactly(cfg: Config, token: string, decode: string -> string)
    requires ' ' !in token
    ensures Authorized(cfg, Some("Basic " + token), decode) <==>
      ':' !in ActiveSecret(cfg) &&
      (decode(token) == ProviderLogin + ":" + ActiveSecret(cfg) ||
       StartsWith(decode(token), ProviderLogin + ":" + ActiveSecret(cfg) + ":"))
  {
    BasicHeader(token);
    var d := decode(token);
    var fields := Split(d, ':');
    assert Credentials("Basic " + token, decode) == (fields[0], if |fields| >= 2 then Some(fields[1]) else None);
    if Authorized(cfg, Some("Basic " + token), decode) {
      AcceptedFieldsShape(d, ProviderLogin, ActiveSecret(cfg));
    }
    if ':' !in ActiveSecret(cfg) &&
       (d == ProviderLogin + ":" + ActiveSecret(cfg) || StartsWith(d, ProviderLogin + ":" + ActiveSecret(cfg) + ":")) {
      FieldsOfAcceptedShape(d, ProviderLogin, ActiveSecret(cfg));
    }
  }

  /** Only the key of the current mode is consulted; the other key can be anything. */
  lemma InactiveKeyIgnored(cfg: Config, key: string, header: Option<string>, decode: string -> string)
    ensures cfg.testMode ==>
      (Authorized(cfg.(secretKey := key), header, decode) <==> Authorized(cfg, header, decode))
    ensures !cfg.testMode ==>
      (Authorized(cfg.(secretKeyTest := key), header, decode) <==> Authorized(cfg, header, decode))
  {
  }

  /** A secret containing `:` can never be presented: the password is cut at the next `:`. */
  lemma ColonInSecretNeverAuthorized(cfg: Config, header: Option<string>, decode: string -> string)
    requires ':' in ActiveSecret(cfg)
    ensures !Authorized(cfg, header, decode)
  {
  }

  /** With no secret configured, the bare credentials `Paycom:` are accepted. */
  lemma EmptySecretAcceptsBareLogin(cfg: Config, token: string, decode: string -> string)
    requires ActiveSecret(cfg) == ""
    requires ' ' !in token
    requires decode(token) == ProviderLogin + ":"
    ensures Authorized(cfg, Some("Basic " + token), decode)
  {
    AcceptsProviderCredentials(cfg, token, decode);
  }

  /** The JSON-RPC `id` member, echoed back as sent. */
  datatype RpcId = NoId | NumId(n: int) | StrId(s: string)

  /** A call: the `Authorization` header, and the body's `id`, `method` and `params`. */
  datatype Request = Request(authorization: Option<string>, id: RpcId, methodName: string, params: Option<Params>)

  /**
   * What the endpoint answers: a bare `{error}` object on an authentication failure, or
   * `{jsonrpc: "2.0", id, result | error}`.
   */
  datatype Response = BareError(error: PaymeError) | Envelope(id: RpcId, reply: Reply)

  datatype Handled = Handled(response: Response, state: State, notice: Option<Notice>)

  const Methods: set<string> := {"CheckPerformTransaction", "CreateTransaction", "PerformTransaction",
                                 "CancelTransaction", "CheckTransaction", "GetStatement"}

  /** The endpoint. A missing `params` object makes every handler throw, which is answered with -32400. */
  function Dispatch(cfg: Config, s: State, req: Request, now: int, txId: string, decode: string -> string): (h: Handled)
    ensures !Authorized(cfg, req.authorization, decode) ==>
      h == Handled(BareError(CreatePaymeError(InsufficientPrivileges, "Unauthorized", None)), s, None)
    ensures Authorized(cfg, req.authorization, decode) ==> h.response.Envelope? && h.response.id == req.id
    ensures Authorized(cfg, req.authorization, decode) && req.methodName !in Methods ==>
      h == Handled(Envelope(req.id, Fail(CreatePaymeError(MethodNotFound, "Method not found", None))), s, None)
    ensures Authorized(cfg, req.authorization, decode) && req.methodName in Methods && req.params.None? ==>
      h == Handled(Envelope(req.id, Fail(SystemFault())), s, None)
    ensures h.state != s ==>
      req.methodName in {"CreateTransaction", "PerformTransaction", "CancelTransaction"}
    ensures (Authorized(cfg, req.authorization, decode) && req.params.Some? &&
             req.methodName == "CheckPerformTransaction") ==>
      h == Handled(Envelope(req.id, CheckPerform(s.orders, req.params.value, now)), s, None)
    ensures (Authorized(cfg, req.authorization, decode) && req.params.Some? &&
             req.methodName == "CreateTransaction") ==>
      var out := Create(s, req.params.value, now, txId);
      h == Handled(Envelope(req.id, out.reply), out.state, out.notice)
    ensures (Authorized(cfg, req.authorization, decode) && req.params.Some? &&
             req.methodName == "PerformTransaction") ==>
      var out := Perform(s, req.params.value.id, now);
      h == Handled(Envelope(req.id, out.reply), out.state, out.notice)
    ensures (Authorized(cfg, req.authorization, decode) && req.params.Some? &&
             req.methodName == "CancelTransaction") ==>
      var out := Cancel(s, req.params.value.id, req.params.value.reason, now);
      h == Handled(Envelope(req.id, out.reply), out.state, out.notice)
    ensures (Authorized(cfg, req.authorization, decode) && req.params.Some? &&
             req.methodName == "CheckTransaction") ==>
      h == Handled(Envelope(req.id, CheckTx(s, req.params.value.id)), s, None)
    ensures (Authorized(cfg, req.authorization, decode) && req.params.Some? &&
             req.methodName == "GetStatement") ==>
      h == Handled(Envelope(req.id, Statement(s, req.params.value.from, req.params.value.to)), s, None)
  {
    if !Authorized(cfg, req.authorization, decode) then
      Handled(BareError(CreatePaymeError(InsufficientPrivileges, "Unauthorized", None)), s, None)
    else if req.methodName !in Methods then
      Handled(Envelope(req.id, Fail(CreatePaymeError(MethodNotFound, "Method not found", None))), s, None)
    else if req.params.None? then
      Handled(Envelope(req.id, Fail(SystemFault())), s, None)
    else
      var p := req.params.value;
      if req.methodName == "CheckPerformTransaction" then
        Handled(Envelope(req.id, CheckPerform(s.orders, p, now)), s, None)
      else if req.methodName == "CreateTransaction" then
        var out := Create(s, p, now, txId);
        Handled(Envelope(req.id, out.reply), out.state, out.notice)
      else if req.methodName == "PerformTransaction" then
        var out := Perform(s, p.id, now);
        Handled(Envelope(req.id, out.reply), out.state, out.notice)
      else if req.methodName == "CancelTransaction" then
        var out := Cancel(s, p.id, p.reason, now);
        Handled(Envelope(req.id, out.reply), out.state, out.notice)
      else if req.methodName == "CheckTransaction" then
        Handled(Envelope(req.id, CheckTx(s, p.id)), s, None)
      else
        Handled(Envelope(req.id, Statement(s, p.from, p.to)), s, None)
  }
}
