/**
 * The VNPay gateway helpers (VNPayConfig.java): the canonical string that is
 * signed, the HMAC guard checks, client address detection, the random
 * transaction reference, and the checks on the configured values.
 *
 * The HMAC-SHA512 digest itself is a function parameter (`mac`); the random
 * generator is the sequence of values `nextInt(10)` returned; the request is
 * its header map and remote address.
 */
module VnPayConfig {
  import opened Common
  import opened StringSort
  import opened UrlEncoding
  import PaymentValidation

  /** The static configuration fields; a missing property is None. */
  datatype Config = Config(
    payUrl: Option<string>,
    returnUrl: Option<string>,
    tmnCode: Option<string>,
    hashSecret: Option<string>,
    apiUrl: Option<string>)

  // ------------------------------------------------------ canonical string

  /** `fields.get(name)`, with a missing entry read as "" (both are skipped). */
  function ValueOf(fields: map<string, string>, name: string): string
  {
    if name in fields then fields[name] else ""
  }

  /** One `name=value` entry of the signed string. */
  function Entry(name: string, value: string): string
  {
    name + "=" + UrlEncode(value)
  }

  /** What one name adds: its entry when its value is non-empty, then '&' unless it is the last name. */
  function Piece(name: string, value: string, last: bool): string
  {
    (if value != "" then Entry(name, value) else "") + (if last then "" else "&")
  }

  /**
   * The string hashAllFields signs, over the sorted names: each name with a
   * non-empty value contributes its entry, and every name but the last
   * contributes '&' whether or not its value was empty.
   */
  function HashData(names: seq<string>, fields: map<string, string>): string
  {
    if names == [] then ""
    else Piece(names[0], ValueOf(fields, names[0]), |names| == 1) + HashData(names[1..], fields)
  }

  /** The entries of the names in order. */
  function Entries(names: seq<string>, fields: map<string, string>): (r: seq<string>)
    ensures |r| == |names|
  {
    if names == [] then [] else [Entry(names[0], ValueOf(fields, names[0]))] + Entries(names[1..], fields)
  }

  predicate NoEmptyValue(names: seq<string>, fields: map<string, string>)
  {
    forall i :: 0 <= i < |names| ==> ValueOf(fields, names[i]) != ""
  }

  /** With no empty value the signed string is the entries joined by '&'. */
  lemma {:induction false} HashDataJoinsEntries(names: seq<string>, fields: map<string, string>)
    requires NoEmptyValue(names, fields)
    ensures HashData(names, fields) == JoinChar(Entries(names, fields), '&')
  {
    if names != [] {
      assert NoEmptyValue(names[1..], fields) by {
        forall i | 0 <= i < |names[1..]| ensures ValueOf(fields, names[1..][i]) != "" {
          assert names[1..][i] == names[i + 1];
        }
      }
      HashDataJoinsEntries(names[1..], fields);
      assert ValueOf(fields, names[0]) != "";
      if |names| == 1 {
        assert HashData(names[1..], fields) == "";
      }
    }
  }

  /** With no '&' in the names, the signed string splits back into its entries. */
  lemma SignedStringSplitsIntoEntries(names: seq<string>, fields: map<string, string>)
    requires |names| >= 1 && NoEmptyValue(names, fields)
    requires forall i :: 0 <= i < |names| ==> '&' !in names[i]
    ensures SplitChar(HashData(names, fields), '&') == Entries(names, fields)
  {
    HashDataJoinsEntries(names, fields);
    var e := Entries(names, fields);
    forall k | 0 <= k < |e| ensures '&' !in e[k] {
      EntryAt(names, fields, k);
      EncodedHasNoSeparators(ValueOf(fields, names[k]));
    }
    SplitJoin(e, '&');
  }

  lemma {:induction false} EntryAt(names: seq<string>, fields: map<string, string>, k: nat)
    requires k < |names|
    ensures Entries(names, fields)[k] == Entry(names[k], ValueOf(fields, names[k]))
  {
    if k > 0 {
      EntryAt(names[1..], fields, k - 1);
    }
  }

  /** An empty value between two others leaves a doubled '&'. */
  lemma EmptyMiddleValueDoublesSeparator()
    ensures HashData(["a", "b", "c"], map["a" := "1", "b" := "", "c" := "2"]) == "a=1&&c=2"
  {
    var f := map["a" := "1", "b" := "", "c" := "2"];
    assert UrlEncode("1") == "1" && UrlEncode("2") == "2";
    assert HashData(["c"], f) == "c=2";
    assert ["a", "b", "c"][1..] == ["b", "c"] && ["b", "c"][1..] == ["c"];
    assert HashData(["b", "c"], f) == "&c=2";
  }

  /** hashAllFields' loop: the sorted names, each appended as HashData describes. */
  method BuildHashData(fields: map<string, string>) returns (data: string)
    ensures data == HashData(SortedKeys(fields.Keys), fields)
  {
    var names := SortKeys(fields.Keys);
    data := AppendPieces(names, fields);
  }

  /** The append loop over a given list of names. */
  method AppendPieces(names: seq<string>, fields: map<string, string>) returns (data: string)
    ensures data == HashData(names, fields)
  {
    data := "";
    var i := 0;
    while i < |names|
      invariant 0 <= i <= |names|
      invariant data + HashData(names[i..], fields) == HashData(names, fields)
    {
      var piece := Piece(names[i], ValueOf(fields, names[i]), i + 1 == |names|);
      AppendStep(data, names, fields, i);
      data := data + piece;
      i := i + 1;
    }
    assert names[i..] == [];
  }

  /** Appending the next piece moves the split point one name along. */
  lemma AppendStep(data: string, names: seq<string>, fields: map<string, string>, i: nat)
    requires i < |names|
    requires data + HashData(names[i..], fields) == HashData(names, fields)
    ensures (data + Piece(names[i], ValueOf(fields, names[i]), i + 1 == |names|)) + HashData(names[i + 1..], fields)
            == HashData(names, fields)
  {
    HashDataAt(names, fields, i);
    var piece := Piece(names[i], ValueOf(fields, names[i]), i + 1 == |names|);
    var rest := HashData(names[i + 1..], fields);
    assert (data + piece) + rest == data + (piece + rest);
  }

  lemma HashDataAt(names: seq<string>, fields: map<string, string>, i: nat)
    requires i < |names|
    ensures HashData(names[i..], fields)
            == Piece(names[i], ValueOf(fields, names[i]), i + 1 == |names|) + HashData(names[i + 1..], fields)
  {
    assert names[i..][1..] == names[i + 1..];
  }

  /** hmacSHA512's guards: a blank key or blank data is refused before the digest. */
  function HmacSha512(key: Option<string>, data: string, mac: (string, string) -> string): (r: Result<string, string>)
    ensures (key.None? || JavaTrimEmpty(key.value)) ==> r == Err("HMAC key cannot be null or empty")
    ensures (key.Some? && !JavaTrimEmpty(key.value) && JavaTrimEmpty(data)) ==> r == Err("HMAC data cannot be null or empty")
    ensures r.Ok? <==> key.Some? && !JavaTrimEmpty(key.value) && !JavaTrimEmpty(data)
    ensures r.Ok? ==> r.value == mac(key.value, data)
  {
    if key.None? || JavaTrimEmpty(key.value) then Err("HMAC key cannot be null or empty")
    else if JavaTrimEmpty(data) then Err("HMAC data cannot be null or empty")
    else Ok(mac(key.value, data))
  }

  /** hashAllFields: the digest of the canonical string under the configured secret. */
  method HashAllFields(config: Config, fields: map<string, string>, mac: (string, string) -> string)
    returns (r: Result<string, string>)
    ensures r == HmacSha512(config.hashSecret, HashData(SortedKeys(fields.Keys), fields), mac)
  {
    var data := BuildHashData(fields);
    r := HmacSha512(config.hashSecret, data, mac);
  }

  // ------------------------------------------------------------ addresses

  predicate HexGroup(g: string)
  {
    1 <= |g| <= 4 && forall i :: 0 <= i < |g| ==> IsHexDigit(g[i])
  }

  /** `^([0-9a-fA-F]{1,4}:){7}[0-9a-fA-F]{1,4}$`: eight hex groups separated by ':'. */
  predicate FullIPv6(ip: string)
  {
    var groups := SplitChar(ip, ':');
    |groups| == 8 && forall k :: 0 <= k < 8 ==> HexGroup(groups[k])
  }

  /** Eight hex groups joined by ':' match the pattern, and every match is such a join. */
  lemma FullIPv6Exactly(groups: seq<string>)
    requires |groups| == 8 && forall k :: 0 <= k < 8 ==> HexGroup(groups[k])
    ensures FullIPv6(JoinChar(groups, ':'))
  {
    forall k | 0 <= k < 8 ensures ':' !in groups[k] {
    }
    SplitJoin(groups, ':');
  }

  lemma FullIPv6IsJoin(ip: string)
    requires FullIPv6(ip)
    ensures ip == JoinChar(SplitChar(ip, ':'), ':')
  {
    JoinSplit(ip, ':');
  }

  /**
   * isValidIPAddress: four dot-separated parts decide by the octet test;
   * otherwise text with ':' must be a full IPv6 address, "::1" or "::".
   */
  predicate IsValidIPAddress(ip: Option<string>)
  {
    !PaymentValidation.Blank(ip) &&
    var parts := JavaSplitChar(ip.value, '.');
    if |parts| == 4 then PaymentValidation.FourOctets(parts)
    else ':' in ip.value && (FullIPv6(ip.value) || ip.value == "::1" || ip.value == "::")
  }

  /** On text without ':' this is the payment-service IPv4 check as written. */
  lemma SameIPv4Check(ip: Option<string>)
    requires ip.Some? && ':' !in ip.value
    ensures IsValidIPAddress(ip) <==> PaymentValidation.IsValidIPAddressAsWritten(ip)
  {
  }

  const LocalHost := "127.0.0.1"

  lemma LocalHostValid()
    ensures IsValidIPAddress(Some(LocalHost))
  {
    LocalHostAsWritten();
    LocalHostHasNoColon();
    ValidWhenAsWritten(LocalHost);
  }

  /** An address without ':' that passes the IPv4 check as written is valid. */
  lemma ValidWhenAsWritten(ip: string)
    requires ':' !in ip && PaymentValidation.IsValidIPAddressAsWritten(Some(ip))
    ensures IsValidIPAddress(Some(ip))
  {
    SameIPv4Check(Some(ip));
  }

  lemma LocalHostAsWritten()
    ensures PaymentValidation.IsValidIPAddressAsWritten(Some(LocalHost))
  {
    var parts := ["127", "0", "0", "1"];
    LocalHostJoin();
    PaymentValidation.DigitOctet("0");
    PaymentValidation.DigitOctet("1");
    assert DigitsValue("127") == 127 by {
      assert "127"[..2] == "12" && "12"[..1] == "1";
    }
    assert PaymentValidation.Octet("127");
    PaymentValidation.DottedQuadAccepted(parts);
    PaymentValidation.IntendedImpliesAsWritten(Some(LocalHost));
  }

  lemma LocalHostHasNoColon()
    ensures ':' !in LocalHost
  {
  }

  lemma LocalHostJoin()
    ensures JoinChar(["127", "0", "0", "1"], '.') == LocalHost
  {
    var parts := ["127", "0", "0", "1"];
    assert JoinChar(parts[3..], '.') == "1";
    assert JoinChar(parts[2..], '.') == "0.1";
    assert JoinChar(parts[1..], '.') == "0.0.1";
  }

  /** The proxy headers consulted, in order. */
  const HeaderNames := ["X-Forwarded-For", "X-Real-IP", "X-Forwarded", "X-Cluster-Client-IP",
                        "Proxy-Client-IP", "WL-Proxy-Client-IP", "HTTP_CLIENT_IP", "HTTP_X_FORWARDED_FOR"]

  datatype Request = Request(headers: map<string, string>, remoteAddr: Option<string>)

  function Header(request: Request, name: string): Option<string>
  {
    if name in request.headers then Some(request.headers[name]) else None
  }

  /** Present, not blank, and not "unknown" in any letter case. */
  predicate Usable(v: Option<string>)
  {
    v.Some? && !JavaTrimEmpty(v.value) && !EqualsIgnoreCase("unknown", v.value)
  }

  /** The first usable header value among `names`. */
  function FirstUsable(request: Request, names: seq<string>): (r: Option<string>)
    ensures r.Some? ==> Usable(r)
    ensures r.None? <==> forall k :: 0 <= k < |names| ==> !Usable(Header(request, names[k]))
  {
    if names == [] then None
    else if Usable(Header(request, names[0])) then Header(request, names[0])
    else
      var r := FirstUsable(request, names[1..]);
      assert forall k :: 1 <= k < |names| ==> names[k] == names[1..][k - 1];
      r
  }

  /**
   * The address a usable header yields: with a ',' the first piece of
   * `split(",")`, trimmed; None when that split has no piece at all (a
   * header made only of commas), which makes the lookup fail.
   */
  function HeaderCandidate(header: Option<string>): Option<Option<string>>
  {
    if header.Some? && ',' in header.value then
      var pieces := JavaSplitChar(header.value, ',');
      if pieces == [] then None else Some(Some(JavaTrim(pieces[0])))
    else Some(header)
  }

  /** The fallbacks after the header loop: the remote address, then "127.0.0.1". */
  function Finish(candidate: Option<string>, remoteAddr: Option<string>): (ip: string)
    ensures ip == LocalHost || IsValidIPAddress(Some(ip))
  {
    var chosen := if Usable(candidate) then candidate else remoteAddr;
    if chosen.None? || JavaTrimEmpty(chosen.value) then LocalHost
    else if !IsValidIPAddress(chosen) then LocalHost
    else chosen.value
  }

  /**
   * getIpAddress as a value: the first usable header, else the remote
   * address, else "127.0.0.1"; "127.0.0.1" also when the result is not a
   * valid address or the lookup fails.
   */
  function ClientIp(request: Option<Request>): (ip: string)
  {
    if request.None? then LocalHost
    else
      match HeaderCandidate(FirstUsable(request.value, HeaderNames))
      case None => LocalHost
      case Some(candidate) => Finish(candidate, request.value.remoteAddr)
  }

  /** The detected address is always a valid one. */
  lemma ClientIpIsValid(request: Option<Request>)
    ensures IsValidIPAddress(Some(ClientIp(request)))
  {
    LocalHostValid();
  }

  /** A usable, comma-free, valid first header is taken exactly as given. */
  lemma FirstHeaderWins(request: Request)
    requires HeaderNames[0] in request.headers
    requires var v := request.headers[HeaderNames[0]]; Usable(Some(v)) && ',' !in v && IsValidIPAddress(Some(v))
    ensures ClientIp(Some(request)) == request.headers[HeaderNames[0]]
  {
  }

  /** With no usable header, the remote address is used when it is valid. */
  lemma RemoteAddressFallback(request: Request)
    requires forall k :: 0 <= k < |HeaderNames| ==> !Usable(Header(request, HeaderNames[k]))
    requires IsValidIPAddress(request.remoteAddr)
    ensures ClientIp(Some(request)) == request.remoteAddr.value
  {
  }

  /** getIpAddress: the header loop with its early exit, then the fallbacks. */
  method GetIpAddress(request: Option<Request>) returns (ip: string)
    ensures ip == ClientIp(request)
  {
    if request.None? {
      return LocalHost;
    }
    var req := request.value;
    var header := FindUsableHeader(req, HeaderNames);
    match HeaderCandidate(header)
    case None =>
      ip := LocalHost;
    case Some(candidate) =>
      ip := Finish(candidate, req.remoteAddr);
  }

  /** The header loop of getIpAddress: the first usable header, leaving the loop as soon as one is found. */
  method FindUsableHeader(req: Request, names: seq<string>) returns (header: Option<string>)
    ensures header == FirstUsable(req, names)
  {
    header := None;
    var i := 0;
    while i < |names|
      invariant 0 <= i <= |names|
      invariant header.None? ==> FirstUsable(req, names) == FirstUsable(req, names[i..])
      invariant header.Some? ==> header == FirstUsable(req, names)
    {
      var v := Header(req, names[i]);
      if Usable(v) {
        header := v;
        break;
      }
      assert names[i..][1..] == names[i + 1..];
      i := i + 1;
    }
  }

  // ------------------------------------------------------- random numbers

  /** The digits drawn: each value of `nextInt(10)` picks from "0123456789". */
  function DigitsOf(draws: seq<nat>): (s: string)
    requires forall i :: 0 <= i < |draws| ==> draws[i] < 10
    ensures |s| == |draws| && AllDigits(s)
    ensures forall i :: 0 <= i < |draws| ==> DigitValue(s[i]) == draws[i]
  {
    if draws == [] then [] else [DigitChar(draws[0])] + DigitsOf(draws[1..])
  }

  /**
   * getRandomNumber: a length outside 1..50 is refused, otherwise exactly
   * `len` digits, one per value drawn.
   */
  method GetRandomNumber(len: int, draws: seq<nat>) returns (r: Result<string, string>)
    requires forall i :: 0 <= i < |draws| ==> draws[i] < 10
    requires 1 <= len <= 50 ==> len <= |draws|
    ensures len <= 0 ==> r == Err("Length must be greater than 0")
    ensures len > 50 ==> r == Err("Length cannot exceed 50 characters")
    ensures 1 <= len <= 50 ==> r == Ok(DigitsOf(draws[..len]))
  {
    if len <= 0 {
      return Err("Length must be greater than 0");
    }
    if len > 50 {
      return Err("Length cannot exceed 50 characters");
    }
    var sb := "";
    var i := 0;
    while i < len
      invariant 0 <= i <= len
      invariant sb == DigitsOf(draws[..i])
    {
      assert draws[..i + 1][..i] == draws[..i];
      DigitsOfSnoc(draws[..i + 1]);
      sb := sb + [DigitChar(draws[i])];
      i := i + 1;
    }
    return Ok(sb);
  }

  lemma {:induction false} DigitsOfSnoc(draws: seq<nat>)
    requires |draws| >= 1 && forall i :: 0 <= i < |draws| ==> draws[i] < 10
    ensures DigitsOf(draws) == DigitsOf(draws[..|draws| - 1]) + [DigitChar(draws[|draws| - 1])]
  {
    if |draws| > 1 {
      DigitsOfSnoc(draws[1..]);
      assert draws[1..][..|draws| - 2] == draws[..|draws| - 1][1..];
    }
  }

  // ------------------------------------------------------- configuration

  /** A character Java's regex `.` does not match without DOTALL. */
  predicate IsLineTerminator(c: char)
  {
    c == '\n' || c == '\r' || c == '\U{85}' || c == '\U{2028}' || c == '\U{2029}'
  }

  /** `s.matches(".*[a-zA-Z].*")`: one line holding an ASCII letter. */
  predicate MatchesHasLetter(s: string)
  {
    (forall i :: 0 <= i < |s| ==> !IsLineTerminator(s[i])) && exists i :: 0 <= i < |s| && IsAsciiLetter(s[i])
  }

  /** `s.matches(".*[0-9].*")` */
  predicate MatchesHasDigit(s: string)
  {
    (forall i :: 0 <= i < |s| ==> !IsLineTerminator(s[i])) && exists i :: 0 <= i < |s| && IsAsciiDigit(s[i])
  }

  /** isValidHashSecret: not blank, at least 32 characters, a letter and a digit, on one line. */
  function IsValidHashSecret(secret: Option<string>): (r: bool)
    ensures r ==> secret.Some? && |secret.value| >= 32
    ensures r ==> (exists i :: 0 <= i < |secret.value| && IsAsciiLetter(secret.value[i]))
                  && (exists i :: 0 <= i < |secret.value| && IsAsciiDigit(secret.value[i]))
  {
    !PaymentValidation.Blank(secret) && |secret.value| >= 32 && MatchesHasLetter(secret.value) && MatchesHasDigit(secret.value)
  }

  /** isValidVNPayUrl: https and a VNPay domain. */
  function IsValidVNPayUrl(url: Option<string>): (r: bool)
    ensures r ==> url.Some? && PaymentValidation.HttpUrl(url.value)
  {
    !PaymentValidation.Blank(url) && StartsWith(url.value, "https://")
    && (Contains(url.value, "vnpay.vn") || Contains(url.value, "sandbox.vnpayment.vn"))
  }

  /** isValidReturnUrl: http(s) and no VNPay domain. */
  function IsValidReturnUrl(url: Option<string>): (r: bool)
    ensures r ==> !IsValidVNPayUrl(url)
  {
    !PaymentValidation.Blank(url) && PaymentValidation.HttpUrl(url.value)
    && !Contains(url.value, "vnpay.vn") && !Contains(url.value, "sandbox.vnpayment.vn")
  }

  /** No address is both a gateway address and an acceptable return address. */
  lemma GatewayAndReturnUrlsDisjoint(url: Option<string>)
    ensures !(IsValidVNPayUrl(url) && IsValidReturnUrl(url))
  {
  }

  /**
   * validateConfiguration: every check is run and the result is their
   * conjunction; the environment check always passes.
   */
  function ValidateConfiguration(config: Config): (ok: bool)
    ensures ok <==> !PaymentValidation.Blank(config.tmnCode) && |config.tmnCode.value| >= 8
                    && IsValidHashSecret(config.hashSecret) && IsValidVNPayUrl(config.payUrl)
                    && IsValidVNPayUrl(config.apiUrl) && IsValidReturnUrl(config.returnUrl)
  {
    var tmnOk := !PaymentValidation.Blank(config.tmnCode) && |config.tmnCode.value| >= 8;
    var secretOk := !PaymentValidation.Blank(config.hashSecret) && IsValidHashSecret(config.hashSecret);
    var payOk := !PaymentValidation.Blank(config.payUrl) && IsValidVNPayUrl(config.payUrl);
    var apiOk := !PaymentValidation.Blank(config.apiUrl) && IsValidVNPayUrl(config.apiUrl);
    var returnOk := !PaymentValidation.Blank(config.returnUrl) && IsValidReturnUrl(config.returnUrl);
    tmnOk && secretOk && payOk && apiOk && returnOk
  }

  /** A valid configuration has a secret the HMAC guard accepts. */
  lemma ValidConfigurationSignsData(config: Config, data: string, mac: (string, string) -> string)
    requires ValidateConfiguration(config) && !JavaTrimEmpty(data)
    ensures HmacSha512(config.hashSecret, data, mac) == Ok(mac(config.hashSecret.value, data))
  {
  }
}
