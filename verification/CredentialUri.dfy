/** The credentials URI: how net/url writes it, and how section 3.2 of RFC 3986 reads it back. */
module CredentialUri {
  import opened GoTypes
  import Token

  // ---- writing ----

  datatype Mode = UserPassword | Host

  /** Which bytes net/url percent-encodes in these two positions. */
  predicate ShouldEscape(c: GoByte, mode: Mode) {
    if Token.IsAlphaNum(c) then false
    else if mode == Host && c in "!$&'()*+,;=:[]<>\"" then false
    else if c in "-_.~" then false
    else if mode == UserPassword && c in "$&+,;=" then false
    else true
  }

  function HexDigit(n: nat): GoByte
    requires n < 16
  {
    if n < 10 then '0' + n as char else 'A' + (n - 10) as char
  }

  function Escape(s: GoString, mode: Mode): GoString {
    if s == [] then []
    else
      var c := s[0];
      var rest := Escape(s[1..], mode);
      if ShouldEscape(c, mode)
      then ['%', HexDigit(c as int / 16), HexDigit(c as int % 16)] + rest
      else [c] + rest
  }

  /** %d for a port, which AWS never makes negative. */
  function Decimal(n: nat): (text: GoString)
    ensures |text| > 0
    ensures forall i :: 0 <= i < |text| ==> '0' <= text[i] <= '9'
  {
    if n < 10 then ['0' + n as char] else Decimal(n / 10) + ['0' + (n % 10) as char]
  }

  function Uri(host: GoString, port: nat, password: GoString): GoString {
    var userinfo := Escape("", UserPassword) + ":" + Escape(password, UserPassword);
    "rediss://" + userinfo + "@" + Escape(host + ":" + Decimal(port), Host)
  }

  // ---- reading ----

  datatype Parts = Parts(user: string, password: string, host: string, port: nat)

  function IndexOf(s: string, c: char): (i: nat)
    ensures i <= |s|
    ensures i < |s| ==> s[i] == c
    ensures forall k :: 0 <= k < i ==> s[k] != c
  {
    if s == [] || s[0] == c then 0 else 1 + IndexOf(s[1..], c)
  }

  function FromHex(c: char): Option<nat> {
    if '0' <= c <= '9' then Some((c - '0') as nat)
    else if 'A' <= c <= 'F' then Some((c - 'A') as nat + 10)
    else if 'a' <= c <= 'f' then Some((c - 'a') as nat + 10)
    else None
  }

  function Unescape(s: string): Option<string> {
    if s == [] then Some([])
    else if s[0] != '%' then
      match Unescape(s[1..])
      case None => None
      case Some(rest) => Some([s[0]] + rest)
    else if |s| < 3 then None
    else
      match (FromHex(s[1]), FromHex(s[2]), Unescape(s[3..]))
      case (Some(high), Some(low), Some(rest)) =>
        if high < 16 && low < 16 then Some([(16 * high + low) as char] + rest) else None
      case _ => None
  }

  function ReadDecimal(s: string): Option<nat> {
    if s == [] then Some(0)
    else
      match ReadDecimal(s[..|s| - 1])
      case None => None
      case Some(n) =>
        var c := s[|s| - 1];
        if '0' <= c <= '9' then Some(10 * n + (c - '0') as nat) else None
  }

  /** Scheme, then the authority up to the first of "/", "?" and "#": userinfo "@" host ":" port. */
  function Read(uri: string): Option<Parts> {
    if |uri| < 9 || uri[..9] != "rediss://" then None
    else
      var rest := uri[9..];
      var authority := rest[..Min(IndexOf(rest, '/'), Min(IndexOf(rest, '?'), IndexOf(rest, '#')))];
      var at := IndexOf(authority, '@');
      if at == |authority| then None
      else
        var userinfo, location := authority[..at], authority[at + 1..];
        var colon, split := IndexOf(userinfo, ':'), IndexOf(location, ':');
        if colon == |userinfo| || split == |location| then None
        else
          match (Unescape(userinfo[..colon]), Unescape(userinfo[colon + 1..]), ReadDecimal(location[split + 1..]))
          case (Some(user), Some(password), Some(port)) => Some(Parts(user, password, location[..split], port))
          case _ => None
  }

  function Min(a: nat, b: nat): nat { if a < b then a else b }

  // ---- the round trip ----

  /** Letters, digits, dots and hyphens: what an ElastiCache endpoint address is made of. */
  predicate PlainHost(host: string) {
    forall i :: 0 <= i < |host| ==> Token.IsAlphaNum(host[i]) || host[i] == '.' || host[i] == '-'
  }

  predicate Plain(c: char) {
    c != '/' && c != '?' && c != '#' && c != '@' && c != ':'
  }

  lemma HexRoundTrip(c: GoByte)
    ensures FromHex(HexDigit(c as int / 16)) == Some(c as int / 16)
    ensures FromHex(HexDigit(c as int % 16)) == Some(c as int % 16)
  {
  }

  /** Percent-encoding leaves no delimiter behind and can be undone, whatever the bytes. */
  lemma {:induction false} EscapeRoundTrip(s: GoString)
    ensures Unescape(Escape(s, UserPassword)) == Some(s)
    ensures forall i :: 0 <= i < |Escape(s, UserPassword)| ==> Plain(Escape(s, UserPassword)[i])
  {
    if s != [] {
      var c := s[0];
      var rest := Escape(s[1..], UserPassword);
      var all := Escape(s, UserPassword);
      EscapeRoundTrip(s[1..]);
      if ShouldEscape(c, UserPassword) {
        HexRoundTrip(c);
        assert all[3..] == rest;
        assert (16 * (c as int / 16) + c as int % 16) as char == c;
      } else {
        assert all[1..] == rest;
      }
      assert s == [c] + s[1..];
    }
  }

  lemma {:induction false} NothingToEscape(s: GoString, mode: Mode)
    requires forall i :: 0 <= i < |s| ==> !ShouldEscape(s[i], mode)
    ensures Escape(s, mode) == s
  {
    if s != [] {
      NothingToEscape(s[1..], mode);
    }
  }

  lemma {:induction false} DecimalRoundTrip(n: nat)
    ensures ReadDecimal(Decimal(n)) == Some(n)
  {
    var text := Decimal(n);
    if n >= 10 {
      DecimalRoundTrip(n / 10);
      assert text[..|text| - 1] == Decimal(n / 10);
    } else {
      assert text[..0] == [];
      assert ReadDecimal(text[..|text| - 1]) == Some(0);
    }
  }

  /** The first delimiter is found where it was written. */
  lemma {:induction false} IndexOfFirst(before: string, c: char, after: string)
    requires forall i :: 0 <= i < |before| ==> before[i] != c
    ensures IndexOf(before + [c] + after, c) == |before|
  {
    var s := before + [c] + after;
    assert s[|before|] == c;
    assert forall i :: 0 <= i < |before| ==> s[i] == before[i];
  }

  lemma IndexOfMissing(s: string, c: char)
    requires forall i :: 0 <= i < |s| ==> s[i] != c
    ensures IndexOf(s, c) == |s|
  {
  }

  lemma UriShape(host: GoString, port: nat, password: GoString)
    requires PlainHost(host)
    ensures Uri(host, port, password)
         == "rediss://" + ([':'] + Escape(password, UserPassword) + ['@'] + (host + [':'] + Decimal(port)))
  {
    var location: GoString := host + [':'] + Decimal(port);
    assert host + ":" + Decimal(port) == location;
    NothingToEscape(location, Host);
    assert Escape("", UserPassword) == [];
  }

  lemma NoDelimiters(secret: string, host: string, digits: string)
    requires forall i :: 0 <= i < |secret| ==> Plain(secret[i])
    requires forall i :: 0 <= i < |digits| ==> Plain(digits[i])
    requires PlainHost(host)
    ensures var authority := [':'] + secret + ['@'] + (host + [':'] + digits);
      IndexOf(authority, '/') == IndexOf(authority, '?') == IndexOf(authority, '#') == |authority|
  {
    var authority := [':'] + secret + ['@'] + (host + [':'] + digits);
    assert forall i :: 0 <= i < |authority| ==>
      authority[i] != '/' && authority[i] != '?' && authority[i] != '#';
    IndexOfMissing(authority, '/');
    IndexOfMissing(authority, '?');
    IndexOfMissing(authority, '#');
  }

  lemma ReadAuthority(secret: string, password: string, host: string, digits: string, port: nat)
    requires forall i :: 0 <= i < |secret| ==> Plain(secret[i])
    requires forall i :: 0 <= i < |digits| ==> Plain(digits[i])
    requires PlainHost(host)
    requires Unescape(secret) == Some(password) && ReadDecimal(digits) == Some(port)
    ensures Read("rediss://" + ([':'] + secret + ['@'] + (host + [':'] + digits)))
         == Some(Parts("", password, host, port))
  {
    var userinfo, location := [':'] + secret, host + [':'] + digits;
    var authority := userinfo + ['@'] + location;
    var uri := "rediss://" + authority;
    assert uri[..9] == "rediss://" && uri[9..] == authority;
    NoDelimiters(secret, host, digits);
    assert authority[..|authority|] == authority;
    IndexOfFirst(userinfo, '@', location);
    assert authority[..|userinfo|] == userinfo && authority[|userinfo| + 1..] == location;
    assert userinfo[..0] == [] && userinfo[1..] == secret;
    IndexOfFirst(host, ':', digits);
    assert location[..|host|] == host && location[|host| + 1..] == digits;
  }

  /** For any password bytes, plain host and port, reading the URI gives back its parts. */
  lemma UriRoundTrip(host: GoString, port: nat, password: GoString)
    requires PlainHost(host)
    ensures Read(Uri(host, port, password)) == Some(Parts("", password, host, port))
  {
    EscapeRoundTrip(password);
    DecimalRoundTrip(port);
    UriShape(host, port, password);
    ReadAuthority(Escape(password, UserPassword), password, host, Decimal(port), port);
  }

  /** A generated token is written into the URI as it stands. */
  lemma TokenNeedsNoEscape(host: GoString, port: nat, indices: seq<nat>)
    requires PlainHost(host) && Token.Choice(indices)
    ensures Uri(host, port, Token.TokenOf(indices))
         == "rediss://:" + Token.TokenOf(indices) + "@" + host + ":" + Decimal(port)
  {
    var token := Token.TokenOf(indices);
    Token.TokenShape(indices);
    NothingToEscape(token, UserPassword);
    UriShape(host, port, token);
  }

  // ---- written out ----

  lemma DefaultPort()
    ensures Decimal(6379) == "6379"
  {
    assert Decimal(6) == "6";
    assert Decimal(63) == "63";
    assert Decimal(637) == "637";
  }

  lemma EscapeFirst(c: GoByte, rest: GoString)
    requires ShouldEscape(c, UserPassword)
    ensures Escape([c] + rest, UserPassword)
         == ['%', HexDigit(c as int / 16), HexDigit(c as int % 16)] + Escape(rest, UserPassword)
  {
    assert ([c] + rest)[1..] == rest;
  }

  lemma EscapeDelimiters()
    ensures Escape(['@', '/'], UserPassword) == "%40%2F"
  {
    var at: GoByte, slash: GoByte := '@', '/';
    assert ['@', '/'] == [at] + ([slash] + []);
    EscapeFirst(at, [slash] + []);
    EscapeFirst(slash, []);
    assert Escape([], UserPassword) == [];
  }
}
