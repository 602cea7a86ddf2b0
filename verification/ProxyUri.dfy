/** The URI printer and parser of Proxy.swift: buildSsUri, buildSsrUri and the uri branch of
    init(dictionary:). */
module ProxyUri {
  import opened Basics
  import opened Text
  import Base64
  import Percent

  datatype Kind = Shadowsocks | ShadowsocksR

  datatype Node = Node(
    kind: Kind,
    name: string,
    host: string,
    port: Int64,
    authscheme: Option<string>,
    password: Option<string>,
    ota: bool,
    ssrProtocol: Option<string>,
    ssrProtocolParam: Option<string>,
    ssrObfs: Option<string>,
    ssrObfsParam: Option<string>,
    ssrotEnable: bool,
    ssrotDomain: Option<string>,
    ssrotPath: Option<string>)

  /** ForcedUnwrap stands for the trap of a forced unwrap of nil. */
  datatype Error = InvalidName | InvalidHost | InvalidPort | InvalidAuthScheme | InvalidUri | ForcedUnwrap

  datatype Result = Ok(node: Node) | Err(error: Error)

  /** self.init(). */
  const NEW_NODE := Node(ShadowsocksR, "", "", 0, None, None, false, None, None, None, None, false, None, None)

  const SS_PREFIX := "ss://"
  const SSR_PREFIX := "ssr://"

  ghost predicate OptionalText(o: Option<string>) {
    o.Some? ==> Utf8(o.value)
  }

  ghost predicate IsText(n: Node) {
    && Utf8(n.name) && Utf8(n.host) && OptionalText(n.authscheme) && OptionalText(n.password)
    && OptionalText(n.ssrProtocol) && OptionalText(n.ssrProtocolParam)
    && OptionalText(n.ssrObfs) && OptionalText(n.ssrObfsParam)
    && OptionalText(n.ssrotDomain) && OptionalText(n.ssrotPath)
  }

  function Or(o: Option<string>, other: string): string {
    match o
    case Some(s) => s
    case None => other
  }

  // ---- Printing ----

  /** base64EncodeUrlSafe of an optional text. */
  function Coded(o: Option<string>): string
    requires OptionalText(o)
  {
    OptionalBytes(o);
    Base64.EncodeUrlSafe(o)
  }

  lemma OptionalBytes(o: Option<string>)
    requires OptionalText(o)
    ensures o.Some? ==> Bytes(o.value)
  {
    if o.Some? { Utf8Bytes(o.value); }
  }

  function Glue(m: string, p: string, h: string, d: string): string {
    m + ":" + p + "@" + h + ":" + d
  }

  function SsText(n: Node): string
    requires n.authscheme.Some? && n.password.Some?
  {
    Glue(n.authscheme.value, n.password.value, n.host, Decimal(n.port))
  }

  /** buildSsUri. */
  function SsUri(n: Node): string
    requires IsText(n)
  {
    if n.authscheme.Some? && n.password.Some? then
      SsTextUtf8(n);
      SS_PREFIX + Coded(Some(SsText(n))) + Remarks(n.name)
    else ""
  }

  function Remarks(name: string): string
    requires Utf8(name)
  {
    Utf8Bytes(name);
    if name != "" then "#" + Percent.Encode(name) else ""
  }

  function Param(key: string, value: Option<string>): seq<string>
    requires OptionalText(value)
  {
    if value.Some? && value.value != "" then [key + "=" + Coded(value)] else []
  }

  function SsrParams(n: Node): seq<string>
    requires IsText(n)
  {
    Param("obfsparam", n.ssrObfsParam) + Param("protoparam", n.ssrProtocolParam) + Param("remarks", Some(n.name))
    + if n.ssrotEnable then ["ot_enable=1"] + Param("ot_domain", n.ssrotDomain) + Param("ot_path", n.ssrotPath)
      else []
  }

  function SsrFields(n: Node): (r: seq<string>)
    requires IsText(n)
    ensures |r| == 6
  {
    [n.host, Decimal(n.port), Or(n.ssrProtocol, "origin"), Or(n.authscheme, "none"), Or(n.ssrObfs, "plain"),
     Coded(n.password)]
  }

  function SsrText(n: Node): string
    requires IsText(n)
  {
    var query := Join(SsrParams(n), '&');
    Join(SsrFields(n), ':') + (if query != "" then "/?" + query else "")
  }

  /** buildSsrUri. */
  function SsrUri(n: Node): string
    requires IsText(n)
  {
    SsrTextUtf8(n);
    SSR_PREFIX + Coded(Some(SsrText(n)))
  }

  // ---- Parsing ----

  predicate HasPrefix(s: string, prefix: string) {
    prefix <= s
  }

  function Drop(s: string, n: nat): string {
    if n <= |s| then s[n..] else ""
  }

  /** validate(). The kind of a node is always a valid type here. */
  function Validated(n: Node): Result {
    if n.name == "" then Err(InvalidName)
    else if n.host == "" then Err(InvalidHost)
    else if !(0 < n.port <= 65535) then Err(InvalidPort)
    else if n.authscheme.None? then Err(InvalidAuthScheme)
    else Ok(n)
  }

  /** The ss text behind base64. */
  function ReadSsText(text: string, n: Node): Result {
    var pc1, pc2, pcm := First(text, ':'), Last(text, ':'), Last(text, '@');
    if pc2 < 0 || pcm < 0 || !(pc1 < pcm < pc2) then Err(InvalidUri)
    else
      var full := Lower(text)[..pc1];
      var auth := LastText(full, "-auth", |full|);
      match ParseInt(text[pc2 + 1..])
      case None => Err(InvalidPort)
      case Some(p) =>
        Validated(n.(authscheme := Some(if auth >= 0 then full[..auth] else full), ota := n.ota || auth >= 0,
                     password := Some(text[pc1 + 1..pcm]), host := text[pcm + 1..pc2],
                     port := p, kind := Shadowsocks))
  }

  /** The form with the user information alone in base64; it is not validated. */
  function ReadSsPlain(body: string, n: Node): Result {
    if LastText(body, "/?", |body|) >= 0 then Err(InvalidUri)
    else
      var parts := Split(body, '@');
      match Base64.DecodeUrlSafe(parts[0])
      case None => Err(InvalidUri)
      case Some(userinfo) =>
        var user := Split(userinfo, ':');
        if |user| != 2 || |parts| < 2 then Err(InvalidUri)
        else
          var address := Split(parts[1], ':');
          if |address| != 2 then Err(InvalidUri)
          else match ParseInt(address[1])
               case None => Err(InvalidUri)
               case Some(p) =>
                 if p == 0 then Err(InvalidUri)
                 else Ok(n.(authscheme := Some(user[0]), password := Some(user[1]), host := address[0],
                            port := p, kind := Shadowsocks))
  }

  function ReadSs(uri: string, n: Node): Result {
    var parts := Split(uri, '#');
    var name := if |parts| > 1 then Percent.Decode(parts[1]) else Some(n.name);
    match name
    case None => Err(ForcedUnwrap)
    case Some(name) =>
      var n1 := n.(name := name);
      var body := Drop(parts[0], |SS_PREFIX|);
      if '@' in body then ReadSsPlain(body, n1)
      else match Base64.DecodeUrlSafe(body)
           case None => Err(InvalidUri)
           case Some(text) => if ':' in text then ReadSsText(text, n1) else Err(InvalidUri)
  }

  /** One component of the query. A remark that cannot be decoded restores the given name. */
  function ApplyParam(n: Node, comp: string, given: string): Node {
    var comps := Split(comp, '=');
    if |comps| != 2 then n
    else
      var value := Base64.DecodeUrlSafe(comps[1]);
      if comps[0] == "protoparam" then n.(ssrProtocolParam := value)
      else if comps[0] == "obfsparam" then n.(ssrObfsParam := value)
      else if comps[0] == "remarks" then n.(name := Or(value, given))
      else if comps[0] == "ot_enable" then n.(ssrotEnable := ParseInt(comps[1]) != Some(0))
      else if comps[0] == "ot_domain" then n.(ssrotDomain := Some(Or(value, "")))
      else if comps[0] == "ot_path" then n.(ssrotPath := Some(Or(value, "")))
      else n
  }

  function ApplyParams(n: Node, comps: seq<string>, given: string): Node
    decreases |comps|
  {
    if comps == [] then n else ApplyParams(ApplyParam(n, comps[0], given), comps[1..], given)
  }

  /** The text before the last c, or all of it. */
  function CutAt(s: string, c: char): string {
    if Last(s, c) >= 0 then s[..Last(s, c)] else s
  }

  /** The main part, before the query and the slash in front of it. */
  function HostPart(text: string): string {
    CutAt(CutAt(text, '?'), '/')
  }

  function QueryPart(text: string): string {
    var mark := Last(text, '?');
    if mark >= 0 then text[mark + 1..] else ""
  }

  /** The ssr text behind base64. */
  function ReadSsrText(text: string, n: Node): Result {
    var comps := Split(HostPart(text), ':');
    if |comps| != 6 then Err(InvalidUri)
    else match ParseInt(comps[1])
         case None => Err(InvalidPort)
         case Some(p) =>
           var n1 := n.(host := comps[0], port := p, ssrProtocol := Some(comps[2]), authscheme := Some(comps[3]),
                        ssrObfs := Some(comps[4]), password := Base64.DecodeUrlSafe(comps[5]));
           Validated(ApplyParams(n1, Split(QueryPart(text), '&'), n.name).(kind := ShadowsocksR))
  }

  function ReadSsr(uri: string, n: Node): Result {
    match Base64.DecodeUrlSafe(Drop(uri, |SSR_PREFIX|))
    case None => Err(InvalidUri)
    case Some(text) => if ':' in text then ReadSsrText(text, n) else Err(InvalidUri)
  }

  /** The uri branch of init(dictionary:), when no node has the name yet; name is the dictionary's. */
  function Import(uri: string, name: Option<string>): Result {
    match name
    case None => Err(InvalidName)
    case Some(name) =>
      var n := NEW_NODE.(name := name);
      if HasPrefix(Lower(uri), SS_PREFIX) then ReadSs(uri, n)
      else if HasPrefix(Lower(uri), SSR_PREFIX) then ReadSsr(uri, n)
      else Err(InvalidUri)
  }

  // ---- Texts stay texts ----

  lemma DecimalAscii(n: int)
    ensures Utf8(Decimal(n)) && ':' !in Decimal(n) && '@' !in Decimal(n) && '/' !in Decimal(n) && '?' !in Decimal(n)
  {
    hide DecimalNat;
    AsciiUtf8(Decimal(n));
  }

  lemma SsTextUtf8(n: Node)
    requires IsText(n) && n.authscheme.Some? && n.password.Some?
    ensures Utf8(SsText(n))
  {
    hide Utf8, Decimal;
    var m, p, h, d := n.authscheme.value, n.password.value, n.host, Decimal(n.port);
    Separators();
    DecimalAscii(n.port);
    Utf8Append(m, ":");
    Utf8Append(m + ":", p);
    Utf8Append(m + ":" + p, "@");
    Utf8Append(m + ":" + p + "@", h);
    Utf8Append(m + ":" + p + "@" + h, ":");
    Utf8Append(m + ":" + p + "@" + h + ":", d);
  }

  lemma Separators()
    ensures Utf8(":") && Utf8("@") && Utf8("/?") && Utf8("origin") && Utf8("none") && Utf8("plain")
  {
    hide Utf8;
    AsciiUtf8(":");
    AsciiUtf8("@");
    AsciiUtf8("/?");
    AsciiUtf8("origin");
    AsciiUtf8("none");
    AsciiUtf8("plain");
  }

  /** What base64 leaves in an encoded text. */
  lemma CodedAscii(o: Option<string>)
    requires OptionalText(o)
    ensures forall i :: 0 <= i < |Coded(o)| ==> Base64.UrlDigit(Coded(o)[i])
    ensures Utf8(Coded(o))
  {
    hide Utf8;
    OptionalBytes(o);
    if o.Some? { Base64.UrlSafeDigits(o.value); }
    AsciiUtf8(Coded(o));
  }

  lemma {:induction false} JoinUtf8(parts: seq<string>, c: char)
    requires forall p :: p in parts ==> Utf8(p)
    requires c < 128 as char
    ensures Utf8(Join(parts, c))
  {
    hide Utf8;
    if |parts| == 0 {
      assert Utf8("") by { AsciiUtf8(""); }
    } else if |parts| == 1 {
      assert parts[0] in parts;
    } else {
      assert parts[0] in parts;
      JoinUtf8(parts[1..], c);
      AsciiUtf8([c]);
      Utf8Append(parts[0], [c]);
      Utf8Append(parts[0] + [c], Join(parts[1..], c));
    }
  }

  /** Parameters are plain ASCII without the characters the parser splits at. */
  ghost predicate PlainParam(p: string) {
    Ascii(p) && '&' !in p && '?' !in p && p != ""
  }

  lemma ParamPlain(key: string, value: Option<string>)
    requires OptionalText(value) && PlainParam(key)
    ensures forall p :: p in Param(key, value) ==> PlainParam(p)
  {
    hide Coded;
    CodedAscii(value);
  }

  lemma KeysPlain()
    ensures PlainParam("obfsparam") && PlainParam("protoparam") && PlainParam("remarks")
    ensures PlainParam("ot_enable=1") && PlainParam("ot_domain") && PlainParam("ot_path")
  {
    KeyPlain("obfsparam");
    KeyPlain("protoparam");
    KeyPlain("remarks");
    KeyPlain("ot_enable=1");
    KeyPlain("ot_domain");
    KeyPlain("ot_path");
  }

  lemma KeyPlain(key: string)
    requires key != ""
    requires forall i :: 0 <= i < |key| ==> 'a' <= key[i] <= 'z' || key[i] == '_' || key[i] == '=' || key[i] == '1'
    ensures PlainParam(key)
  {
  }

  lemma ParamsPlain(n: Node)
    requires IsText(n)
    ensures forall p :: p in SsrParams(n) ==> PlainParam(p) && Utf8(p)
  {
    hide Param, PlainParam, Utf8;
    KeysPlain();
    ParamPlain("obfsparam", n.ssrObfsParam);
    ParamPlain("protoparam", n.ssrProtocolParam);
    ParamPlain("remarks", Some(n.name));
    ParamPlain("ot_domain", n.ssrotDomain);
    ParamPlain("ot_path", n.ssrotPath);
    forall p | p in SsrParams(n) ensures Utf8(p) { PlainUtf8(p); }
  }

  lemma PlainUtf8(p: string)
    requires PlainParam(p)
    ensures Utf8(p)
  {
    AsciiUtf8(p);
  }

  lemma FieldsUtf8(n: Node)
    requires IsText(n)
    ensures forall f :: f in SsrFields(n) ==> Utf8(f)
  {
    hide Utf8, Coded, Decimal;
    Separators();
    DecimalAscii(n.port);
    CodedAscii(n.password);
  }

  lemma SsrTextUtf8(n: Node)
    requires IsText(n)
    ensures Utf8(SsrText(n))
  {
    hide Utf8, SsrParams, SsrFields, Join;
    FieldsUtf8(n);
    ParamsPlain(n);
    JoinUtf8(SsrFields(n), ':');
    JoinUtf8(SsrParams(n), '&');
    Separators();
    var query := Join(SsrParams(n), '&');
    Utf8Append("/?", query);
    Utf8Append(Join(SsrFields(n), ':'), "/?" + query);
    assert Join(SsrFields(n), ':') + "" == Join(SsrFields(n), ':');
  }
}
