/** A text-configured realm: accounts given by user lines of the shape
    `password, role1, role2, ...`, authentication of a username/password
    token against them, and role lookup for the principals it produced. */
module Realms {
  import opened Wrappers
  import opened Principals

  datatype Account = Account(password: string, roles: seq<string>)

  datatype Realm = Realm(name: RealmName, accounts: map<string, Account>)

  datatype UsernamePasswordToken = UsernamePasswordToken(username: string, password: string)

  /** A user line whose first field is blank names no password. */
  datatype ConfigError = MissingPassword

  datatype AuthenticationError = NoRealmConfigured | UnknownAccount | IncorrectCredentials

  // ---------------------------------------------------------------------
  // Tokenising a user line

  /** Blank characters, as trimming treats them: space and every control character. */
  predicate IsBlank(c: char) {
    c <= ' '
  }

  /** A token as it is after trimming: non-empty, comma-free, without blank ends. */
  predicate PlainToken(t: string) {
    t != [] && ',' !in t && !IsBlank(t[0]) && !IsBlank(t[|t| - 1])
  }

  function TrimLeft(s: string): (r: string)
    ensures forall c :: c in r ==> c in s
    ensures r != [] ==> !IsBlank(r[0])
    ensures |r| <= |s| && r == s[|s| - |r|..]
    decreases |s|
  {
    if s != [] && IsBlank(s[0]) then TrimLeft(s[1..]) else s
  }

  function TrimRight(s: string): (r: string)
    ensures forall c :: c in r ==> c in s
    ensures r != [] ==> !IsBlank(r[|r| - 1])
    ensures |r| <= |s| && r == s[..|r|]
    decreases |s|
  {
    if s != [] && IsBlank(s[|s| - 1]) then TrimRight(s[..|s| - 1]) else s
  }

  /** `s` without blank characters at either end. */
  function Trim(s: string): (r: string)
    ensures r != [] && ',' !in s ==> PlainToken(r)
  {
    var l := TrimLeft(s);
    var r := TrimRight(l);
    assert r != [] ==> r[0] == l[0];
    r
  }

  lemma {:induction false} TrimLeftEmpty(s: string)
    ensures TrimLeft(s) == [] <==> forall c :: c in s ==> IsBlank(c)
    decreases |s|
  {
    if s != [] && IsBlank(s[0]) {
      TrimLeftEmpty(s[1..]);
      assert forall c :: c in s <==> c == s[0] || c in s[1..];
    } else if s != [] {
      assert s[0] in s;
    }
  }

  lemma {:induction false} TrimRightKeeps(s: string)
    requires s != [] && !IsBlank(s[0])
    ensures TrimRight(s) != []
    decreases |s|
  {
    if IsBlank(s[|s| - 1]) {
      TrimRightKeeps(s[..|s| - 1]);
    }
  }

  /** Trimming leaves nothing exactly when every character is blank. */
  lemma TrimEmpty(s: string)
    ensures Trim(s) == [] <==> forall c :: c in s ==> IsBlank(c)
  {
    TrimLeftEmpty(s);
    var l := TrimLeft(s);
    if l != [] {
      TrimRightKeeps(l);
      assert l[0] in s;
    }
  }

  /** The token a finished piece contributes: its trimmed text, or nothing
      when that is empty. */
  function Emit(piece: string): (r: seq<string>)
    requires ',' !in piece
    ensures forall i :: 0 <= i < |r| ==> PlainToken(r[i])
  {
    var t := Trim(piece);
    if t == [] then [] else [t]
  }

  /** The tokens of `s` when the piece read so far is `piece`: pieces end at
      a comma or at the end of the line. */
  function TokensFrom(s: string, piece: string): (r: seq<string>)
    requires ',' !in piece
    ensures forall i :: 0 <= i < |r| ==> PlainToken(r[i])
    decreases |s|
  {
    if s == [] then Emit(piece)
    else if s[0] == ',' then Emit(piece) + TokensFrom(s[1..], [])
    else TokensFrom(s[1..], piece + [s[0]])
  }

  /** The trimmed comma-separated tokens of a line, empty ones dropped. */
  function Tokens(line: string): (r: seq<string>)
    ensures forall i :: 0 <= i < |r| ==> PlainToken(r[i])
  {
    TokensFrom(line, [])
  }

  /** The text of `s` before its first comma, and the text after that comma
      when there is one. */
  function FirstField(s: string): (r: (string, Option<string>))
    ensures ',' !in r.0
    ensures r.1.None? ==> r.0 == s
    ensures r.1.Some? ==> s == r.0 + "," + r.1.value
    decreases |s|
  {
    if s == [] then ([], None)
    else if s[0] == ',' then
      assert s == [] + "," + s[1..];
      ([], Some(s[1..]))
    else
      var t := FirstField(s[1..]);
      assert s == [s[0]] + s[1..];
      ([s[0]] + t.0, t.1)
  }

  /** What the tokens of a line are, field by field: a comma-free line is
      one field, and a comma ends the first field. */
  lemma TokensByField(a: string, b: string)
    requires ',' !in a
    ensures Tokens(a) == Emit(a)
    ensures Tokens(a + "," + b) == Emit(a) + Tokens(b)
  {
    TokensFromPrefix(a, [], []);
    assert a + [] == a && [] + a == a;
    assert a + "," + b == a + ("," + b);
    TokensFromPrefix(a, "," + b, []);
    assert ("," + b)[0] == ',' && ("," + b)[1..] == b;
  }

  /** Reads a user line: the first comma-separated field, trimmed, is the
      password (a blank one is missing); the non-empty trimmed fields after
      it are the role names. */
  function ParseUserLine(line: string): (r: Result<Account, ConfigError>)
    ensures r.Failure? <==> forall c :: c in FirstField(line).0 ==> IsBlank(c)
    ensures r.Failure? ==> r.error == MissingPassword
    ensures r.Success? ==> PlainToken(r.value.password) && forall i :: 0 <= i < |r.value.roles| ==> PlainToken(r.value.roles[i])
  {
    var (head, rest) := FirstField(line);
    var password := Tokens(head);
    TokensByField(head, []);
    TrimEmpty(head);
    if password == [] then Failure(MissingPassword)
    else Success(Account(password[0], if rest.Some? then Tokens(rest.value) else []))
  }

  /** The account a line configures is the line's token list: the password
      first, then the roles in order. */
  lemma ParsedTokens(line: string)
    requires ParseUserLine(line).Success?
    ensures [ParseUserLine(line).value.password] + ParseUserLine(line).value.roles == Tokens(line)
  {
    var (head, rest) := FirstField(line);
    TokensByField(head, if rest.Some? then rest.value else []);
  }

  /** Writes tokens separated by a comma and a space. */
  function JoinTokens(xs: seq<string>): string
    requires xs != []
    decreases |xs|
  {
    if |xs| == 1 then xs[0] else xs[0] + ", " + JoinTokens(xs[1..])
  }

  /** The user line that configures `a`. */
  function FormatUserLine(a: Account): string {
    JoinTokens([a.password] + a.roles)
  }

  // ---------------------------------------------------------------------
  // Round trip of user lines

  /** Comma-free text just extends the current piece. */
  lemma {:induction false} TokensFromPrefix(a: string, rest: string, piece: string)
    requires ',' !in a && ',' !in piece
    ensures TokensFrom(a + rest, piece) == TokensFrom(rest, piece + a)
    decreases |a|
  {
    if a == [] {
      assert a + rest == rest && piece + a == piece;
    } else {
      assert (a + rest)[0] == a[0] && (a + rest)[1..] == a[1..] + rest;
      TokensFromPrefix(a[1..], rest, piece + [a[0]]);
      assert piece + [a[0]] + a[1..] == piece + a;
    }
  }

  lemma TrimPlain(t: string)
    requires PlainToken(t)
    ensures Trim(t) == t
  {
  }

  lemma TrimBlank(t: string)
    ensures Trim(" " + t) == Trim(t)
  {
    assert (" " + t)[1..] == t;
  }

  lemma EmitBlank(piece: string)
    requires ',' !in piece
    ensures ',' !in " " + piece && Emit(" " + piece) == Emit(piece)
  {
    TrimBlank(piece);
  }

  /** A blank at the start of a piece does not change the tokens. */
  lemma {:induction false} TokensFromBlank(s: string, piece: string)
    requires ',' !in piece
    ensures ',' !in " " + piece && TokensFrom(s, " " + piece) == TokensFrom(s, piece)
    decreases |s|
  {
    EmitBlank(piece);
    if s != [] && s[0] != ',' {
      var longer := piece + [s[0]];
      assert " " + piece + [s[0]] == " " + longer;
      TokensFromBlank(s[1..], longer);
    }
  }

  /** A plain token followed by a comma starts the token list. */
  lemma TokensCons(x: string, rest: string)
    requires PlainToken(x)
    ensures Tokens(x + "," + rest) == [x] + Tokens(rest)
  {
    TokensByField(x, rest);
    TrimPlain(x);
  }

  /** A leading blank does not change the tokens of a line. */
  lemma TokensOfBlank(j: string)
    ensures Tokens(" " + j) == Tokens(j)
  {
    TokensFromPrefix(" ", j, []);
    assert [] + " " == " " + [];
    TokensFromBlank(j, []);
  }

  lemma {:induction false} TokensOfJoin(xs: seq<string>)
    requires xs != [] && forall i :: 0 <= i < |xs| ==> PlainToken(xs[i])
    ensures Tokens(JoinTokens(xs)) == xs
    decreases |xs|
  {
    if |xs| == 1 {
      TokensByField(xs[0], []);
      TrimPlain(xs[0]);
    } else {
      var j := JoinTokens(xs[1..]);
      assert JoinTokens(xs) == xs[0] + "," + (" " + j);
      TokensCons(xs[0], " " + j);
      TokensOfBlank(j);
      TokensOfJoin(xs[1..]);
      assert xs == [xs[0]] + xs[1..];
    }
  }

  /** Parsing the line that configures an account gives that account back,
      for any password and roles that are plain tokens. */
  lemma UserLineRoundTrip(a: Account)
    requires PlainToken(a.password) && forall i :: 0 <= i < |a.roles| ==> PlainToken(a.roles[i])
    ensures ParseUserLine(FormatUserLine(a)) == Success(a)
  {
    if a.roles == [] {
      assert FormatUserLine(a) == a.password;
      ParsePlainPassword(a.password, "");
    } else {
      var xs, j := [a.password] + a.roles, JoinTokens(a.roles);
      assert xs[1..] == a.roles;
      assert FormatUserLine(a) == a.password + "," + (" " + j);
      ParsePlainPassword(a.password, " " + j);
      TokensOfBlank(j);
      TokensOfJoin(a.roles);
    }
  }

  /** A line that starts with a plain token configures it as the password. */
  lemma ParsePlainPassword(password: string, rest: string)
    requires PlainToken(password)
    ensures ParseUserLine(password) == Success(Account(password, []))
    ensures ParseUserLine(password + "," + rest) == Success(Account(password, Tokens(rest)))
  {
    TokensOfJoin([password]);
    FirstFieldWhole(password);
    FirstFieldOf(password, rest);
  }

  lemma {:induction false} FirstFieldWhole(a: string)
    requires ',' !in a
    ensures FirstField(a) == (a, None)
    decreases |a|
  {
    if a != [] {
      FirstFieldWhole(a[1..]);
      assert a == [a[0]] + a[1..];
    }
  }

  lemma {:induction false} FirstFieldOf(a: string, b: string)
    requires ',' !in a
    ensures FirstField(a + "," + b) == (a, Some(b))
    decreases |a|
  {
    var s := a + "," + b;
    if a == [] {
      assert s[0] == ',' && s[1..] == b;
    } else {
      assert s[0] == a[0] && s[1..] == a[1..] + "," + b;
      FirstFieldOf(a[1..], b);
      assert a == [a[0]] + a[1..];
    }
  }

  /** A blank first field is a missing password, whatever roles follow it:
      a role is never taken for the password. */
  lemma BlankFirstField(blank: string, rest: string)
    requires forall c :: c in blank ==> IsBlank(c)
    ensures ParseUserLine(blank + "," + rest) == Failure(MissingPassword)
  {
    FirstFieldOf(blank, rest);
    TrimEmpty(blank);
  }

  /** Every line that parses is equivalent to its normalised form. */
  lemma UserLineNormalises(line: string)
    requires ParseUserLine(line).Success?
    ensures ParseUserLine(FormatUserLine(ParseUserLine(line).value)) == ParseUserLine(line)
  {
    UserLineRoundTrip(ParseUserLine(line).value);
  }

  // ---------------------------------------------------------------------
  // Realm configuration and authentication

  /** A realm from a users section mapping each username to its user line;
      one line without a password rejects the whole section. */
  function BuildRealm(name: RealmName, users: map<string, string>): (r: Result<Realm, ConfigError>)
    ensures r.Success? <==> AllParse(users)
    ensures r.Success? ==> r.value.name == name && r.value.accounts.Keys == users.Keys
    ensures r.Success? ==> forall u :: u in users ==> ParseUserLine(users[u]) == Success(r.value.accounts[u])
  {
    if AllParse(users) then
      Success(Realm(name, map u | u in users :: ParseUserLine(users[u]).value))
    else
      Failure(MissingPassword)
  }

  /** The realm configured by a section whose every line parses to the
      account given for its user. */
  lemma BuildRealmOf(name: RealmName, users: map<string, string>, accounts: map<string, Account>)
    requires users.Keys == accounts.Keys
    requires forall u :: u in users ==> ParseUserLine(users[u]) == Success(accounts[u])
    ensures BuildRealm(name, users) == Success(Realm(name, accounts))
  {
    assert AllParse(users);
    var r := BuildRealm(name, users);
    forall u | u in users
      ensures r.value.accounts[u] == accounts[u]
    {
      assert ParseUserLine(users[u]) == Success(r.value.accounts[u]);
    }
    assert r.value.accounts.Keys == accounts.Keys;
    assert r.value.accounts == accounts;
  }

  /** Every user line of the section names a password. */
  predicate AllParse(users: map<string, string>) {
    forall u :: u in users ==> ParseUserLine(users[u]).Success?
  }

  /** Checks a token's password against the configured one; success yields
      the single-principal collection of the username under this realm. */
  function Authenticate(realm: Option<Realm>, token: UsernamePasswordToken): (r: Result<PrincipalCollection, AuthenticationError>)
    ensures r.Success? <==>
              realm.Some? && token.username in realm.value.accounts
              && realm.value.accounts[token.username].password == token.password
    ensures realm.None? ==> r == Failure(NoRealmConfigured)
    ensures realm.Some? && token.username !in realm.value.accounts ==> r == Failure(UnknownAccount)
    ensures (realm.Some? && token.username in realm.value.accounts
             && realm.value.accounts[token.username].password != token.password)
            ==> r == Failure(IncorrectCredentials)
    ensures r.Success? ==> r.value == OfSinglePrincipal(token.username, realm.value.name)
    ensures r.Success? ==> Primary(r.value) == Some(token.username)
  {
    match realm
    case None => Failure(NoRealmConfigured)
    case Some(rlm) =>
      if token.username !in rlm.accounts then Failure(UnknownAccount)
      else if rlm.accounts[token.username].password != token.password then Failure(IncorrectCredentials)
      else Success(OfSinglePrincipal(token.username, rlm.name))
  }

  /** The principal a realm looks accounts up by: the first one it
      contributed itself, otherwise the primary principal. */
  function AvailablePrincipal(c: PrincipalCollection, realmName: RealmName): (r: Option<Principal>)
    ensures ForRealm(c, realmName) != [] ==> r.Some? && r.value in ForRealm(c, realmName)
    ensures ForRealm(c, realmName) == [] ==> r == Primary(c)
    ensures IsEmpty(c) ==> r == None
  {
    if ForRealm(c, realmName) != [] then Some(ForRealm(c, realmName)[0]) else Primary(c)
  }

  /** Role membership for a subject's principals (none: no role). */
  function HasRole(realm: Option<Realm>, principals: Option<PrincipalCollection>, role: string): (b: bool)
    ensures b ==> realm.Some? && principals.Some? && !IsEmpty(principals.value)
    ensures b ==> var user := AvailablePrincipal(principals.value, realm.value.name);
                  user.Some? && user.value in realm.value.accounts && role in realm.value.accounts[user.value].roles
  {
    match (realm, principals)
    case (Some(rlm), Some(c)) =>
      var user := AvailablePrincipal(c, rlm.name);
      user.Some? && user.value in rlm.accounts && role in rlm.accounts[user.value].roles
    case _ => false
  }

  /** After a successful login the subject has exactly the roles on its
      user's line. */
  lemma LoginGrantsConfiguredRoles(realm: Realm, token: UsernamePasswordToken, role: string)
    requires Authenticate(Some(realm), token).Success?
    ensures (HasRole(Some(realm), Some(Authenticate(Some(realm), token).value), role)
             <==> role in realm.accounts[token.username].roles)
  {
    var c := Authenticate(Some(realm), token).value;
    assert AvailablePrincipal(c, realm.name) == Some(token.username);
  }
}
