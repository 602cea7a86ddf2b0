/** What an import makes of URIs that were not printed here: the branches of the parser, each for every
    text that takes it. */
module ProxyReading {
  import opened Basics
  import opened ProxyRoundTrip
  import opened ProxyUri
  import opened Text
  import Base64
  import Percent

  // ---- ss: the base64 form ----

  lemma SsTextPieces(m: string, p: string, h: string, port: Int64, n: Node)
    requires ':' !in m && '@' !in h
    ensures var full, text := Lower(m), Glue(m, p, h, Decimal(port));
            var auth := LastText(full, "-auth", |full|);
            ReadSsText(text, n) ==
            Validated(n.(authscheme := Some(if auth >= 0 then full[..auth] else full), ota := n.ota || auth >= 0,
                         password := Some(p), host := h, port := port, kind := Shadowsocks))
  {
    hide Decimal, First, Last, Validated, ParseInt, Glue, LastText, Lower;
    var d := Decimal(port);
    DecimalAscii(port);
    GluePositions(m, p, h, d);
    GlueMethod(m, p, h, d);
    GluePassword(m, p, h, d);
    GlueHost(m, p, h, d);
    ParseDecimal(port);
    LowerSlice(Glue(m, p, h, d), |m|);
  }

  /** The last "-auth" asks for one-time authentication, and it and what follows it are cut off; the
      method is read in lower case. */
  lemma SsOneTimeAuth(m: string, x: string, y: string, p: string, h: string, port: Int64, n: Node)
    requires Ascii(m) && ':' !in m && '@' !in h && Separated(Glue(m, p, h, Decimal(port)))
    requires Lower(m) == x + "-auth" + y && forall i :: i > |x| ==> !At(Lower(m), "-auth", i)
    ensures ReadSsText(Glue(m, p, h, Decimal(port)), n) ==
            Validated(n.(authscheme := Some(x), ota := true, password := Some(p), host := h, port := port,
                         kind := Shadowsocks))
  {
    hide LastText, ReadSsText, Validated, Decimal, Glue;
    SsTextPieces(m, p, h, port, n);
    var full := Lower(m);
    assert At(full, "-auth", |x|);
    assert LastText(full, "-auth", |full|) == |x|;
    assert full[..|x|] == x;
  }

  /** In particular as a suffix, in any case. */
  lemma SsAuthSuffix(m: string, p: string, h: string, port: Int64, n: Node)
    requires Ascii(m) && ':' !in m && '@' !in h && Separated(Glue(m + "-auth", p, h, Decimal(port)))
    ensures ReadSsText(Glue(m + "-auth", p, h, Decimal(port)), n) ==
            Validated(n.(authscheme := Some(Lower(m)), ota := true, password := Some(p), host := h, port := port,
                         kind := Shadowsocks))
  {
    hide ReadSsText, Validated, Decimal, Glue;
    assert forall i :: 0 <= i < |"-auth"| ==> LowerChar("-auth"[i]) == "-auth"[i];
    assert Lower(m + "-auth") == Lower(m) + "-auth" + "";
    SsOneTimeAuth(m + "-auth", Lower(m), "", p, h, port, n);
  }

  /** Without it the method is read in lower case, and the option stays as it was. */
  lemma SsNoAuth(m: string, p: string, h: string, port: Int64, n: Node)
    requires Ascii(m) && ':' !in m && '@' !in h && Separated(Glue(m, p, h, Decimal(port)))
    requires Lacks(Lower(m), "-auth")
    ensures ReadSsText(Glue(m, p, h, Decimal(port)), n) ==
            Validated(n.(authscheme := Some(Lower(m)), password := Some(p), host := h, port := port,
                         kind := Shadowsocks))
  {
    hide LastText, ReadSsText, Validated, Decimal, Glue;
    SsTextPieces(m, p, h, port, n);
    assert LastText(Lower(m), "-auth", |Lower(m)|) == -1;
  }

  /** A port that is no number is refused, and so is a text without the delimiters. */
  lemma SsTextRefused(m: string, p: string, h: string, d: string, text: string, n: Node)
    ensures ':' !in m && '@' !in h && '@' !in d && ':' !in d && ParseInt(d).None? ==>
              ReadSsText(Glue(m, p, h, d), n) == Err(InvalidPort)
    ensures '@' !in text || ':' !in text ==> ReadSsText(text, n) == Err(InvalidUri)
  {
    hide First, Last, Validated, ParseInt, Glue, LastText, Lower;
    if ':' !in m && '@' !in h && '@' !in d && ':' !in d {
      GluePositions(m, p, h, d);
      GlueHost(m, p, h, d);
    }
    if Last(text, '@') >= 0 { assert text[Last(text, '@')] in text; }
    if Last(text, ':') >= 0 { assert text[Last(text, ':')] in text; }
  }

  /** validate() accepts exactly the complete nodes, and reports what it misses first. */
  lemma ValidatedExactly(n: Node)
    ensures Validated(n) == Ok(n) <==> n.name != "" && n.host != "" && 0 < n.port < 0x1_0000 && n.authscheme.Some?
    ensures Validated(n) == Err(InvalidName) <==> n.name == ""
    ensures Validated(n) == Err(InvalidHost) <==> n.name != "" && n.host == ""
    ensures Validated(n) == Err(InvalidPort) <==>
              n.name != "" && n.host != "" && (n.port <= 0 || n.port >= 0x1_0000)
    ensures Validated(n) == Err(InvalidAuthScheme) <==>
              n.name != "" && n.host != "" && 0 < n.port < 0x1_0000 && n.authscheme.None?
  {
  }

  /** The last at sign must stand between two colons. */
  lemma SsAtBetweenColons(a: string, b: string, n: Node)
    requires '@' !in b && (':' !in a || ':' !in b)
    ensures ReadSsText(a + "@" + b, n) == Err(InvalidUri)
  {
    hide First, Last, Validated, ParseInt, LastText, Lower;
    var text := a + ['@'] + b;
    LastIs(a, '@', b);
    assert a + "@" + b == text;
    var pc1, pc2 := First(text, ':'), Last(text, ':');
    if pc1 < |a| { assert text[pc1] == a[pc1] && a[pc1] in a; }
    if pc2 > |a| { assert text[pc2] == b[pc2 - |a| - 1] && b[pc2 - |a| - 1] in b; }
  }

  /** What does not decode, or decodes to a text without a colon, is refused in either scheme. */
  lemma Undecodable(code: string, n: Node)
    requires '#' !in code && '@' !in code
    requires var d := Base64.DecodeUrlSafe(code); d.None? || ':' !in d.value
    ensures ReadSs(SS_PREFIX + code, n) == Err(InvalidUri) && ReadSsr(SSR_PREFIX + code, n) == Err(InvalidUri)
  {
    hide Split, ReadSsText, ReadSsrText, ReadSsPlain, Base64.DecodeUrlSafe;
    SplitIs(SS_PREFIX + code, '#', "");
    assert Drop(SS_PREFIX + code, |SS_PREFIX|) == code && Drop(SSR_PREFIX + code, |SSR_PREFIX|) == code;
  }

  /** Import reads the decoded text, in either scheme; and a text with a colon need not be encoded. */
  lemma TextsImported(text: string, name: string)
    requires Utf8(text) && ':' in text
    ensures Import(SS_PREFIX + Coded(Some(text)), Some(name)) == ReadSsText(text, NEW_NODE.(name := name))
    ensures Import(SSR_PREFIX + Coded(Some(text)), Some(name)) == ReadSsrText(text, NEW_NODE.(name := name))
    ensures Import(SSR_PREFIX + text, Some(name)) == ReadSsrText(text, NEW_NODE.(name := name))
  {
    hide ReadSsText, ReadSsrText, Base64.DecodeUrlSafe, Utf8, Split, Coded;
    var code := Coded(Some(text));
    CodedAscii(Some(text));
    CodedBack(Some(text));
    Base64.ColonPasses(text);
    SsPrefix(code, "");
    assert SS_PREFIX + code + "" == SS_PREFIX + code;
    SplitIs(SS_PREFIX + code, '#', "");
    SsrPrefix(code);
    SsrPrefix(text);
    assert Drop(SS_PREFIX + code, |SS_PREFIX|) == code;
    assert Drop(SSR_PREFIX + code, |SSR_PREFIX|) == code && Drop(SSR_PREFIX + text, |SSR_PREFIX|) == text;
  }

  // ---- ss: fragment and prefix ----

  /** The name is what stands between the first and the second hash sign, unescaped; a fragment that
      cannot be unescaped traps. */
  lemma SsNamed(body: string, fragment: string, more: string, n: Node)
    requires '#' !in body && '#' !in fragment && (more == "" || more[0] == '#')
    ensures ReadSs(SS_PREFIX + body + "#" + fragment + more, n) ==
            match Percent.Decode(fragment)
            case Some(name) => ReadSs(SS_PREFIX + body, n.(name := name))
            case None => Err(ForcedUnwrap)
  {
    hide Percent.Decode, ReadSsText, ReadSsPlain, Base64.DecodeUrlSafe, Split;
    var plain := SS_PREFIX + body;
    assert '#' !in plain;
    SplitIs(plain, '#', fragment + more);
    if more == "" {
      assert fragment + more == fragment;
      SplitIs(fragment, '#', "");
    } else {
      assert fragment + more == fragment + ['#'] + more[1..];
      SplitIs(fragment, '#', more[1..]);
    }
    assert plain + "#" + fragment + more == plain + ['#'] + (fragment + more);
  }

  /** The prefix may be in any case. */
  lemma PrefixInAnyCase(prefix: string, rest: string, name: string)
    requires Lower(prefix) == SS_PREFIX || Lower(prefix) == SSR_PREFIX
    ensures Import(prefix + rest, Some(name)) ==
            if Lower(prefix) == SS_PREFIX then ReadSs(prefix + rest, NEW_NODE.(name := name))
            else ReadSsr(prefix + rest, NEW_NODE.(name := name))
  {
    hide ReadSs, ReadSsr;
    LowerSlice(prefix + rest, |prefix|);
    assert (prefix + rest)[..|prefix|] == prefix;
    var low := Lower(prefix + rest);
    assert low[..|prefix|] == Lower(prefix);
    if Lower(prefix) == SSR_PREFIX { assert low[2] == 'r'; }
  }

  /** Any other scheme, and a dictionary without a name, are refused. */
  lemma OtherSchemes(uri: string, name: string)
    ensures Import(uri, None) == Err(InvalidName)
    ensures (|uri| < 5 || Lower(uri[..5]) != "ss://") && (|uri| < 6 || Lower(uri[..6]) != "ssr://") ==>
              Import(uri, Some(name)) == Err(InvalidUri)
  {
    hide ReadSs, ReadSsr;
    if |uri| >= 5 { LowerSlice(uri, 5); }
    if |uri| >= 6 { LowerSlice(uri, 6); }
  }

  // ---- ssr: one component of the query ----

  lemma KeyAndValue(key: string, value: string)
    requires '=' !in key && '=' !in value
    ensures Split(key + "=" + value, '=') == [key, value]
  {
    SplitIs(key, '=', value);
    SplitIs(value, '=', "");
  }

  /** A component without exactly one equals sign changes nothing. */
  lemma NoPair(comp: string, n: Node, given: string)
    requires Count(comp, '=') != 1
    ensures ApplyParam(n, comp, given) == n
  {
    hide Split, Base64.DecodeUrlSafe, ParseInt;
    SplitParts(comp, '=');
  }

  /** What every key sets, for every value, and that any other key sets nothing. */
  lemma EveryKey(key: string, value: string, n: Node, given: string)
    requires '=' !in key && '=' !in value
    ensures var r, d := ApplyParam(n, key + "=" + value, given), Base64.DecodeUrlSafe(value);
            && (key == "protoparam" ==> r == n.(ssrProtocolParam := d))
            && (key == "obfsparam" ==> r == n.(ssrObfsParam := d))
            && (key == "remarks" ==> r == n.(name := if d.Some? then d.value else given))
            && (key == "ot_domain" ==> r == n.(ssrotDomain := Some(if d.Some? then d.value else "")))
            && (key == "ot_path" ==> r == n.(ssrotPath := Some(if d.Some? then d.value else "")))
            && (key !in ["protoparam", "obfsparam", "remarks", "ot_enable", "ot_domain", "ot_path"] ==> r == n)
  {
    hide Split, Base64.DecodeUrlSafe, ParseInt;
    KeyAndValue(key, value);
  }

  /** The option is on for every number but zero, and for what is no number. */
  lemma OtEnable(k: Int64, value: string, n: Node, given: string)
    ensures ApplyParam(n, "ot_enable=" + Decimal(k), given) == n.(ssrotEnable := k != 0)
    ensures '=' !in value && ParseInt(value).None? ==>
              ApplyParam(n, "ot_enable=" + value, given) == n.(ssrotEnable := true)
  {
    hide Split, Base64.DecodeUrlSafe, ParseInt, Decimal;
    ParseDecimal(k);
    DecimalNoEquals(k);
    KeyAndValue("ot_enable", Decimal(k));
    assert "ot_enable" + "=" + Decimal(k) == "ot_enable=" + Decimal(k);
    if '=' !in value {
      KeyAndValue("ot_enable", value);
      assert "ot_enable" + "=" + value == "ot_enable=" + value;
    }
  }

  lemma DecimalNoEquals(k: int)
    ensures '=' !in Decimal(k)
  {
    hide DecimalNat;
  }

  /** The main part must have six fields, and the second must be a number. */
  lemma SsrRefused(text: string, n: Node)
    ensures Count(HostPart(text), ':') != 5 ==> ReadSsrText(text, n) == Err(InvalidUri)
    ensures var comps := Split(HostPart(text), ':');
            |comps| == 6 && ParseInt(comps[1]).None? ==> ReadSsrText(text, n) == Err(InvalidPort)
  {
    hide Split, ParseInt, HostPart, QueryPart, ApplyParams, Base64.DecodeUrlSafe, Validated;
    SplitParts(HostPart(text), ':');
  }

  // ---- ssr: where main part and query are ----

  /** The slash in front of the question mark may be missing; without a question mark there is no query,
      and the main part ends at its last slash. */
  lemma QueryWithoutSlash(main: string, query: string, rest: string)
    requires '?' !in query && '/' !in main
    ensures HostPart(main + "?" + query) == main && QueryPart(main + "?" + query) == query
    ensures '?' !in main && '?' !in rest && '/' !in rest ==>
              HostPart(main + "/" + rest) == main && QueryPart(main + "/" + rest) == ""
  {
    hide Last;
    LastIs(main, '?', query);
    assert main + "?" + query == main + ['?'] + query;
    assert (main + "?" + query)[..|main|] == main && (main + "?" + query)[|main| + 1..] == query;
    if '?' !in main && '?' !in rest && '/' !in rest {
      LastIs(main, '/', rest);
      assert main + "/" + rest == main + ['/'] + rest;
      assert (main + "/" + rest)[..|main|] == main;
    }
  }

  // ---- ssr: the main part ----

  lemma JoinMore(p: string, ps: seq<string>, sep: char)
    requires ps != []
    ensures Join([p] + ps, sep) == p + [sep] + Join(ps, sep)
  {
    assert ([p] + ps)[1..] == ps;
  }

  lemma JoinSix(a: string, b: string, c: string, d: string, e: string, f: string, sep: char)
    ensures Join([a, b, c, d, e, f], sep) ==
            a + [sep] + b + [sep] + c + [sep] + d + [sep] + e + [sep] + f
  {
    hide Join;
    assert Join([f], sep) == f by { JoinOne(f, sep); }
    JoinMore(e, [f], sep);
    JoinMore(d, [e, f], sep);
    JoinMore(c, [d, e, f], sep);
    JoinMore(b, [c, d, e, f], sep);
    JoinMore(a, [b, c, d, e, f], sep);
    assert [e] + [f] == [e, f] && [d] + [e, f] == [d, e, f] && [c] + [d, e, f] == [c, d, e, f];
    assert [b] + [c, d, e, f] == [b, c, d, e, f] && [a] + [b, c, d, e, f] == [a, b, c, d, e, f];
    var right := a + [sep] + (b + [sep] + (c + [sep] + (d + [sep] + (e + [sep] + f))));
    assert right == a + [sep] + b + [sep] + c + [sep] + d + [sep] + e + [sep] + f;
  }

  lemma JoinOne(p: string, sep: char)
    ensures Join([p], sep) == p
  {
  }

  /** The six fields of the main part, in their order, and the query behind them. */
  lemma SsrFieldsRead(h: string, port: Int64, a: string, b: string, o: string, w: string, query: string, n: Node)
    requires ':' !in h && ':' !in a && ':' !in b && ':' !in o && ':' !in w && '?' !in query
    ensures ReadSsrText(h + ":" + Decimal(port) + ":" + a + ":" + b + ":" + o + ":" + w + "/?" + query, n) ==
            Validated(ApplyParams(n.(host := h, port := port, ssrProtocol := Some(a), authscheme := Some(b),
                                     ssrObfs := Some(o), password := Base64.DecodeUrlSafe(w)),
                                  Split(query, '&'), n.name).(kind := ShadowsocksR))
  {
    hide Decimal, Split, HostPart, QueryPart, ApplyParams, Validated, ParseInt, Base64.DecodeUrlSafe, Join;
    var d := Decimal(port);
    DecimalAscii(port);
    ParseDecimal(port);
    JoinSix(h, d, a, b, o, w, ':');
    var main := h + ":" + d + ":" + a + ":" + b + ":" + o + ":" + w;
    SplitJoin([h, d, a, b, o, w], ':');
    CutQuery(main, query);
    assert h + ":" + d + ":" + a + ":" + b + ":" + o + ":" + w + "/?" + query == main + "/?" + query;
  }

  lemma ParamIs(key: string, value: Option<string>)
    requires OptionalText(value) && value.Some? && value.value != ""
    ensures Param(key, value) == [key + "=" + Coded(value)]
  {
  }

  /** Every field is there to be printed. */
  ghost predicate Complete(n: Node) {
    && IsText(n) && n.password.Some? && n.name != "" && n.ssrotEnable
    && n.ssrObfsParam.Some? && n.ssrObfsParam.value != ""
    && n.ssrProtocolParam.Some? && n.ssrProtocolParam.value != ""
    && n.ssrotDomain.Some? && n.ssrotDomain.value != "" && n.ssrotPath.Some? && n.ssrotPath.value != ""
  }

  lemma SsrParamsAre(n: Node)
    requires Complete(n)
    ensures OptionalText(n.ssrObfsParam) && OptionalText(n.ssrProtocolParam) && OptionalText(Some(n.name))
    ensures OptionalText(n.ssrotDomain) && OptionalText(n.ssrotPath)
    ensures SsrParams(n) ==
            ["obfsparam" + "=" + Coded(n.ssrObfsParam), "protoparam" + "=" + Coded(n.ssrProtocolParam),
             "remarks" + "=" + Coded(Some(n.name)), "ot_enable=1", "ot_domain" + "=" + Coded(n.ssrotDomain),
             "ot_path" + "=" + Coded(n.ssrotPath)]
  {
    hide Coded, Utf8, OptionalText, Param;
    TextFields(n);
    ParamIs("obfsparam", n.ssrObfsParam);
    ParamIs("protoparam", n.ssrProtocolParam);
    ParamIs("remarks", Some(n.name));
    ParamIs("ot_domain", n.ssrotDomain);
    ParamIs("ot_path", n.ssrotPath);
  }

  /** The text of a complete ssr node, written out. */
  lemma SsrTextIs(n: Node)
    requires Complete(n)
    ensures OptionalText(n.ssrObfsParam) && OptionalText(n.ssrProtocolParam) && OptionalText(Some(n.name))
    ensures OptionalText(n.ssrotDomain) && OptionalText(n.ssrotPath) && OptionalText(n.password)
    ensures SsrText(n) ==
            n.host + ":" + Decimal(n.port) + ":" + Or(n.ssrProtocol, "origin") + ":" + Or(n.authscheme, "none") + ":"
            + Or(n.ssrObfs, "plain") + ":" + Coded(n.password)
            + ("/?" + ("obfsparam" + "=" + Coded(n.ssrObfsParam)
                       + "&" + ("protoparam" + "=" + Coded(n.ssrProtocolParam))
                       + "&" + ("remarks" + "=" + Coded(Some(n.name))) + "&" + "ot_enable=1"
                       + "&" + ("ot_domain" + "=" + Coded(n.ssrotDomain))
                       + "&" + ("ot_path" + "=" + Coded(n.ssrotPath))))
  {
    hide Decimal, Coded, IsText, Utf8, Join, OptionalText, SsrParams;
    TextFields(n);
    SsrParamsAre(n);
    JoinSix(n.host, Decimal(n.port), Or(n.ssrProtocol, "origin"), Or(n.authscheme, "none"), Or(n.ssrObfs, "plain"),
            Coded(n.password), ':');
    JoinSix("obfsparam" + "=" + Coded(n.ssrObfsParam), "protoparam" + "=" + Coded(n.ssrProtocolParam),
            "remarks" + "=" + Coded(Some(n.name)), "ot_enable=1", "ot_domain" + "=" + Coded(n.ssrotDomain),
            "ot_path" + "=" + Coded(n.ssrotPath), '&');
    assert Join(SsrParams(n), '&') != "" by { assert |Join(SsrParams(n), '&')| > 0; }
  }

  // ---- ss: the plain form ----

  /** What stands behind the second at sign of the plain form is ignored. */
  lemma PlainIgnoresMore(code: string, address: string, more: string, n: Node)
    requires '@' !in code && '@' !in address
    requires LastText(code + "@" + address + "@" + more, "/?", |code + "@" + address + "@" + more|) < 0
    requires LastText(code + "@" + address, "/?", |code + "@" + address|) < 0
    ensures ReadSsPlain(code + "@" + address + "@" + more, n) == ReadSsPlain(code + "@" + address, n)
  {
    hide Split, LastText, ParseInt, Base64.DecodeUrlSafe;
    SplitIs(code, '@', address + "@" + more);
    SplitIs(address, '@', more);
    SplitIs(code, '@', address);
    SplitIs(address, '@', "");
    assert code + "@" + address + "@" + more == code + ['@'] + (address + "@" + more);
    assert address + "@" + more == address + ['@'] + more;
  }

  /** The user information need not be encoded, since it holds a colon. */
  lemma PlainTextRead(m: string, p: string, h: string, port: Int64, n: Node)
    requires '@' !in m && '@' !in p && '@' !in h && ':' !in m && ':' !in p && ':' !in h && port != 0
    requires Lacks(m + ":" + p + "@" + h + ":" + Decimal(port), "/?")
    ensures ReadSsPlain(m + ":" + p + "@" + h + ":" + Decimal(port), n) ==
            Ok(n.(authscheme := Some(m), password := Some(p), host := h, port := port, kind := Shadowsocks))
  {
    hide Split, LastText, ParseInt, Base64.DecodeUrlSafe, Decimal, Lacks;
    var d, user := Decimal(port), m + ":" + p;
    DecimalAscii(port);
    ParseDecimal(port);
    Base64.ColonPasses(user);
    PlainParts(user, h, d);
    UserParts(m, p);
    UserParts(h, d);
    var body := user + "@" + h + ":" + d;
    NoText(body, "/?");
  }

  /** A port of the plain form that is no number is refused like a wrong form. */
  lemma PlainPortRefused(code: string, h: string, d: string, n: Node)
    requires '@' !in code && '@' !in h && '@' !in d && ':' !in h && ':' !in d && ParseInt(d).None?
    ensures ReadSsPlain(code + "@" + h + ":" + d, n) == Err(InvalidUri)
  {
    hide Split, LastText, ParseInt, Base64.DecodeUrlSafe;
    PlainParts(code, h, d);
    UserParts(h, d);
  }

  lemma NoText(s: string, t: string)
    requires Lacks(s, t)
    ensures LastText(s, t, |s|) < 0
  {
    hide LastText;
  }

  /** Plugin parameters are not supported. */
  lemma PluginRefused(body: string, k: int, name: string)
    requires '#' !in body && '@' in body && At(body, "/?", k)
    ensures Import(SS_PREFIX + body, Some(name)) == Err(InvalidUri)
  {
    hide Split, LastText, ReadSsText, Base64.DecodeUrlSafe, Percent.Decode;
    SplitIs(SS_PREFIX + body, '#', "");
    LowerSlice(SS_PREFIX + body, |SS_PREFIX|);
    assert Drop(SS_PREFIX + body, |SS_PREFIX|) == body;
    assert LastText(body, "/?", |body|) >= k;
  }

  // ---- The example in a comment of the source ----

  const USER := "bf-cfb:test"
  const USER_CODE := "YmYtY2ZiOnRlc3Q"
  const SERVER := "192.168.100.1"

  lemma UserGroups()
    ensures Base64.Digits3('b' as int, 'f' as int, '-' as int) == "YmYt"
    ensures Base64.Digits3('c' as int, 'f' as int, 'b' as int) == "Y2Zi"
    ensures Base64.Digits3(':' as int, 't' as int, 'e' as int) == "OnRl"
    ensures Base64.Digits3('s' as int, 't' as int, 0)[..3] == "c3Q"
  {
  }

  lemma UserDigits()
    ensures Bytes(USER) && Base64.Digits(USER) == USER_CODE
  {
    hide Base64.Digits3;
    UserGroups();
    assert USER[3..] == "cfb:test" && USER[3..][3..] == ":test" && USER[3..][3..][3..] == "st";
    assert Base64.Digits("st") == "c3Q";
    assert Base64.Digits(":test") == "OnRl" + "c3Q" by { assert ":test"[3..] == "st"; }
    assert Base64.Digits("cfb:test") == "Y2Zi" + ("OnRl" + "c3Q") by { assert "cfb:test"[3..] == ":test"; }
  }

  lemma UserCoded()
    ensures Utf8(USER) && Coded(Some(USER)) == USER_CODE
  {
    hide Base64.Digits, Base64.EncodeUrlSafe, Utf8;
    UserDigits();
    AsciiUtf8(USER);
    Base64.UrlSafeDigits(USER);
    assert Base64.Swapped(USER_CODE) == USER_CODE;
  }

  lemma PortDigits()
    ensures Decimal(8888) == "8888"
  {
    assert DecimalNat(8) == "8" && DecimalNat(88) == "88" && DecimalNat(888) == "888";
  }

  lemma {:induction false} SeparatedAscii(s: string)
    requires Ascii(s)
    ensures Separated(s)
  {
  }

  lemma LacksQuery(h: string)
    requires '/' !in h
    ensures Lacks(h, "/?")
  {
    forall i ensures !At(h, "/?", i) {
      assert 0 <= i && i + 2 <= |h| ==> h[i..i + 2][0] == h[i] && h[i] in h;
    }
  }

  const EXAMPLE := "ss://" + USER_CODE + "@" + SERVER + ":8888"

  lemma ExampleIsPlain()
    ensures Utf8("bf-cfb" + ":" + "test") && PlainUri("bf-cfb", "test", SERVER, 8888) == EXAMPLE
    ensures Separated("bf-cfb" + ":" + "test") && Separated(EXAMPLE)
  {
    hide Coded, Utf8, Decimal, Separated;
    UserCoded();
    PortDigits();
    assert "bf-cfb" + ":" + "test" == USER;
    assert "ss://" + USER_CODE + ("@" + SERVER + ":" + "8888") == EXAMPLE;
    SeparatedAscii(USER);
    SeparatedAscii(EXAMPLE);
  }

  lemma ExampleClean()
    ensures '@' !in SERVER && '#' !in SERVER && ':' !in SERVER && Lacks(SERVER, "/?")
    ensures ':' !in "bf-cfb" && ':' !in "test"
  {
    hide Lacks;
    LacksQuery(SERVER);
  }

  /** The URI is read as the comment means it. */
  lemma CommentExample(name: string)
    ensures Import(EXAMPLE, Some(name)) ==
            Ok(Node(Shadowsocks, name, "192.168.100.1", 8888, Some("bf-cfb"), Some("test"), false,
                    None, None, None, None, false, None, None))
  {
    hide Import, Coded, Utf8, Separated, Lacks, PlainUri;
    ExampleIsPlain();
    ExampleClean();
    SsPlainImport("bf-cfb", "test", SERVER, 8888, name);
  }
}
