/** Importing a printed URI restores the node, and exactly when it does. */
module ProxyRoundTrip {
  import opened Basics
  import opened ProxyUri
  import opened Text
  import Base64
  import Percent

  /** The characters the parser searches for. */
  predicate Delimiter(c: char) {
    c in ":@#/?&="
  }

  /** No delimiter is followed by a byte beyond ASCII. Foundation does not find a character that a
      combining mark follows, and only characters beyond ASCII combine; so where this holds, searching
      the text is searching its bytes. */
  ghost predicate Separated(text: string) {
    forall i :: 0 <= i < |text| - 1 && Delimiter(text[i]) ==> text[i + 1] < 128 as char
  }

  // ---- ss ----

  /** What an import of the printed URI of n can restore at best; name is the dictionary's. */
  function SsRestored(n: Node, name: string): Node
    requires n.authscheme.Some? && n.password.Some?
  {
    NEW_NODE.(kind := Shadowsocks, name := if n.name != "" then n.name else name, host := n.host, port := n.port,
              authscheme := n.authscheme, password := n.password)
  }

  ghost predicate Lacks(s: string, t: string) {
    forall i :: !At(s, t, i)
  }

  ghost predicate CanValidate(n: Node, name: string) {
    n.host != "" && 0 < n.port <= 65535 && (n.name != "" || name != "")
  }

  /** The method is lower-case, without a colon and without "-auth", and the host has no at sign. The
      password may hold anything. */
  ghost predicate SsClean(n: Node)
    requires n.authscheme.Some?
  {
    var m := n.authscheme.value;
    ':' !in m && Lower(m) == m && Lacks(m, "-auth") && '@' !in n.host
  }

  lemma GlueMethod(m: string, p: string, h: string, d: string)
    ensures var t := Glue(m, p, h, d); |m| < |t| && t[..|m|] == m && t[|m|] == ':'
  {
  }

  lemma GluePassword(m: string, p: string, h: string, d: string)
    ensures var t := Glue(m, p, h, d); var k := |m| + 1 + |p|;
            k < |t| && t[|m| + 1..k] == p && t[k] == '@'
  {
  }

  lemma GlueHost(m: string, p: string, h: string, d: string)
    ensures var t := Glue(m, p, h, d); var (j, k) := (|m| + 1 + |p| + 1, |m| + 1 + |p| + 1 + |h|);
            k < |t| && t[j..k] == h && t[k] == ':' && t[k + 1..] == d
  {
  }

  lemma FirstAt(s: string, c: char, k: nat)
    requires k < |s| && s[k] == c && c !in s[..k]
    ensures First(s, c) == k
  {
    assert s == s[..k] + [c] + s[k + 1..];
    FirstIs(s[..k], c, s[k + 1..]);
  }

  lemma LastAt(s: string, c: char, k: nat)
    requires k < |s| && s[k] == c && c !in s[k + 1..]
    ensures Last(s, c) == k
  {
    assert s == s[..k] + [c] + s[k + 1..];
    LastIs(s[..k], c, s[k + 1..]);
  }

  /** The text splits where it was joined. */
  lemma GluePositions(m: string, p: string, h: string, d: string)
    requires ':' !in m && '@' !in h && '@' !in d && ':' !in d
    ensures var t := Glue(m, p, h, d);
            First(t, ':') == |m| && Last(t, '@') == |m| + 1 + |p| && Last(t, ':') == |m| + 1 + |p| + 1 + |h|
  {
    hide Glue, First, Last;
    var t := Glue(m, p, h, d);
    GlueMethod(m, p, h, d);
    FirstAt(t, ':', |m|);
    GluePassword(m, p, h, d);
    GlueHost(m, p, h, d);
    var (k, j) := (|m| + 1 + |p|, |m| + 1 + |p| + 1 + |h|);
    LastAt(t, ':', j);
    assert t[k + 1..] == t[k + 1..j] + [t[j]] + t[j + 1..];
    LastAt(t, '@', k);
  }

  lemma SsTextBack(n: Node, n0: Node)
    requires n.authscheme.Some? && n.password.Some? && SsClean(n)
    ensures ReadSsText(SsText(n), n0) ==
            Validated(n0.(authscheme := n.authscheme, password := n.password, host := n.host,
                          port := n.port, kind := Shadowsocks))
  {
    hide Decimal, First, Last, Validated, ParseInt, Glue, LastText, Lower;
    var (m, p, h, d) := (n.authscheme.value, n.password.value, n.host, Decimal(n.port));
    DecimalAscii(n.port);
    GluePositions(m, p, h, d);
    GlueMethod(m, p, h, d);
    GluePassword(m, p, h, d);
    GlueHost(m, p, h, d);
    ParseDecimal(n.port);
    LowerSlice(SsText(n), |m|);
    assert LastText(m, "-auth", |m|) == -1;
  }

  /** If the fields come back they were clean. */
  lemma SsTextClean(n: Node, n0: Node)
    requires n.authscheme.Some? && n.password.Some?
    requires var r := ReadSsText(SsText(n), n0);
             r.Ok? && r.node.authscheme == n.authscheme && r.node.host == n.host
    ensures SsClean(n)
  {
    hide Decimal, ParseInt, Glue, First, Last, Lower, LastText;
    var text, m := SsText(n), n.authscheme.value;
    var pc1, pc2, pcm := First(text, ':'), Last(text, ':'), Last(text, '@');
    var full := Lower(text)[..pc1];
    assert |m| <= pc1;
    GlueMethod(m, n.password.value, n.host, Decimal(n.port));
    SubText(text[..pc1], m, 0, ':');
    assert First(text, ':') == |m| by { FirstAt(text, ':', |m|); }
    LowerSlice(text, |m|);
    assert full == Lower(m);
    SubText(text[pcm + 1..], n.host, 0, '@');
    assert LastText(full, "-auth", |full|) == -1;
  }

  /** What is missing in a text is missing in every part of it. */
  lemma SubText(s: string, t: string, at: nat, c: char)
    requires at + |t| <= |s| && s[at..at + |t|] == t && c !in s
    ensures c !in t
  {
    assert forall i :: 0 <= i < |t| ==> t[i] == s[at + i];
  }

  lemma CodedBack(o: Option<string>)
    requires OptionalText(o)
    ensures Base64.DecodeUrlSafe(Coded(o)) == Some(Or(o, ""))
  {
    match o
    case Some(s) => Base64.UrlSafeRoundTrip(s);
    case None => Base64.UrlSafeOfNone();
  }

  /** Behind the prefix, and with the name from the fragment, what is read is the ss text. */
  lemma SsUriReads(n: Node, name: string)
    requires IsText(n) && n.authscheme.Some? && n.password.Some?
    ensures Import(SsUri(n), Some(name)) ==
            ReadSsText(SsText(n), NEW_NODE.(name := if n.name != "" then n.name else name))
  {
    hide ReadSsText, Base64.DecodeUrlSafe, Percent.Encode, Percent.Decode, Utf8, SsText, First, Split, Coded;
    SsTextUtf8(n);
    var code := Coded(Some(SsText(n)));
    CodedAscii(Some(SsText(n)));
    CodedBack(Some(SsText(n)));
    SsColon(n);
    SsPrefix(code, Remarks(n.name));
    Percent.RoundTrip(n.name);
    SsFragment(code, n.name);
    assert Drop(SS_PREFIX + code, |SS_PREFIX|) == code;
  }

  lemma SsColon(n: Node)
    requires n.authscheme.Some? && n.password.Some?
    ensures ':' in SsText(n)
  {
    hide Glue;
    GlueMethod(n.authscheme.value, n.password.value, n.host, Decimal(n.port));
  }

  lemma SsPrefix(code: string, rest: string)
    ensures HasPrefix(Lower(SS_PREFIX + code + rest), SS_PREFIX)
  {
    LowerSlice(SS_PREFIX + code + rest, |SS_PREFIX|);
  }

  lemma SsFragment(code: string, name: string)
    requires Utf8(name) && '#' !in code
    requires Bytes(name) && '#' !in Percent.Encode(name)
    ensures Split(SS_PREFIX + code + Remarks(name), '#') ==
            if name != "" then [SS_PREFIX + code, Percent.Encode(name)] else [SS_PREFIX + code]
  {
    hide Utf8, Percent.Encode, Split;
    var parts := if name != "" then [SS_PREFIX + code, Percent.Encode(name)] else [SS_PREFIX + code];
    SplitJoin(parts, '#');
    if name != "" {
      assert parts[1..] == [Percent.Encode(name)];
      assert Join(parts, '#') == SS_PREFIX + code + ("#" + Percent.Encode(name));
    } else {
      assert SS_PREFIX + code + "" == SS_PREFIX + code;
    }
  }

  /** The round trip of an ss node with an ASCII method, for every password and host that leave the
      delimiters alone, and every name: it holds if and only if the text can be split where it was
      joined and the node passes validation. */
  lemma SsRoundTrip(n: Node, name: string)
    requires IsText(n) && n.authscheme.Some? && n.password.Some?
    requires Ascii(n.authscheme.value) && Separated(SsText(n))
    ensures Import(SsUri(n), Some(name)) == Ok(SsRestored(n, name)) <==> SsClean(n) && CanValidate(n, name)
  {
    hide Import, SsUri, ReadSsText, SsText, SsClean, Utf8;
    SsUriReads(n, name);
    var n0 := NEW_NODE.(name := if n.name != "" then n.name else name);
    if SsClean(n) {
      SsTextBack(n, n0);
    }
    if ReadSsText(SsText(n), n0) == Ok(SsRestored(n, name)) {
      SsTextClean(n, n0);
      SsTextBack(n, n0);
    }
  }

  /** Without a method or a password there is no URI to import. */
  lemma SsIncomplete(n: Node, name: string)
    requires IsText(n) && (n.authscheme.None? || n.password.None?)
    ensures SsUri(n) == "" && Import(SsUri(n), Some(name)) == Err(InvalidUri)
  {
  }

  /** The form with the user information alone in base64. */
  function PlainUri(m: string, p: string, h: string, port: Int64): string
    requires Utf8(m + ":" + p)
  {
    SS_PREFIX + Coded(Some(m + ":" + p)) + ("@" + h + ":" + Decimal(port))
  }

  /** The body holds "/?" exactly if the host does. */
  lemma QueryInHost(code: string, h: string, d: string)
    requires '/' !in code && '/' !in d
    ensures var body := code + "@" + h + ":" + d;
            LastText(body, "/?", |body|) >= 0 <==> !Lacks(h, "/?")
  {
    hide LastText;
    var body := code + "@" + h + ":" + d;
    var r := LastText(body, "/?", |body|);
    if r >= 0 { PlaceInHost(code, h, d, r); }
    if i :| At(h, "/?", i) {
      assert body[|code| + 1 + i..|code| + 1 + i + 2] == h[i..i + 2];
      assert At(body, "/?", |code| + 1 + i);
    }
  }

  lemma PlaceInHost(code: string, h: string, d: string, r: int)
    requires '/' !in code && '/' !in d && At(code + "@" + h + ":" + d, "/?", r)
    ensures At(h, "/?", r - |code| - 1)
  {
    var body := code + "@" + h + ":" + d;
    assert body[r] == body[r..r + 2][0] && body[r + 1] == body[r..r + 2][1];
    assert forall k :: 0 <= k < |code| ==> body[k] == code[k];
    assert forall k :: |code| + 1 + |h| < k < |body| ==> body[k] == d[k - |code| - |h| - 2];
    assert body[|code|] == '@' && body[|code| + 1 + |h|] == ':';
    var i := r - |code| - 1;
    assert body[r] == h[i];
    assert body[r + 1] == h[i + 1];
    assert h[i..i + 2] == "/?";
  }

  lemma PlainParts(code: string, h: string, d: string)
    requires '@' !in code && '@' !in h && '@' !in d
    ensures Split(code + "@" + h + ":" + d, '@') == [code, h + ":" + d]
  {
    hide Split;
    var parts := [code, h + ":" + d];
    assert parts[1..] == [h + ":" + d];
    assert Join(parts, '@') == code + "@" + h + ":" + d;
    SplitJoin(parts, '@');
  }

  /** Two texts joined by a colon are found again if and only if neither holds one. */
  lemma UserParts(m: string, p: string)
    ensures ':' !in m && ':' !in p ==> Split(m + ":" + p, ':') == [m, p]
    ensures ':' in m || ':' in p ==> |Split(m + ":" + p, ':')| > 2
  {
    hide Split, Count;
    if ':' !in m && ':' !in p {
      var parts := [m, p];
      assert parts[1..] == [p];
      assert Join(parts, ':') == m + ":" + p;
      SplitJoin(parts, ':');
    } else {
      SplitParts(m + ":" + p, ':');
      CountAppend(m + ":", p, ':');
      CountAppend(m, ":", ':');
      CountSome(":", ':');
      if ':' in m { CountSome(m, ':'); }
      if ':' in p { CountSome(p, ':'); }
    }
  }

  lemma PlainPrefix(code: string, h: string, d: string)
    requires '#' !in code && '#' !in h && '#' !in d
    ensures var uri := SS_PREFIX + code + ("@" + h + ":" + d);
            && HasPrefix(Lower(uri), SS_PREFIX) && Split(uri, '#') == [uri]
            && Drop(uri, |SS_PREFIX|) == code + "@" + h + ":" + d
  {
    hide Split;
    var uri := SS_PREFIX + code + ("@" + h + ":" + d);
    SsPrefix(code, "@" + h + ":" + d);
    SplitJoin([uri], '#');
    assert Join([uri], '#') == uri;
    assert uri[|SS_PREFIX|..] == code + "@" + h + ":" + d;
  }

  lemma ReadPlain(m: string, p: string, h: string, port: Int64, n: Node)
    requires Utf8(m + ":" + p) && '@' !in h
    ensures ReadSsPlain(Coded(Some(m + ":" + p)) + "@" + h + ":" + Decimal(port), n) ==
            if Lacks(h, "/?") && ':' !in m && ':' !in p && ':' !in h && port != 0
            then Ok(n.(authscheme := Some(m), password := Some(p), host := h, port := port, kind := Shadowsocks))
            else Err(InvalidUri)
  {
    hide Utf8, Coded, Decimal, Split, LastText, ParseInt, Base64.DecodeUrlSafe, Lacks;
    var code, d := Coded(Some(m + ":" + p)), Decimal(port);
    CodedAscii(Some(m + ":" + p));
    CodedBack(Some(m + ":" + p));
    DecimalAscii(port);
    ParseDecimal(port);
    QueryInHost(code, h, d);
    PlainParts(code, h, d);
    UserParts(m, p);
    UserParts(h, d);
  }

  /** The plain form is imported without validation, whatever host and port; and it is refused exactly
      when method, password or host holds a colon, a query follows the host, or the port is 0. */
  lemma SsPlainImport(m: string, p: string, h: string, port: Int64, name: string)
    requires Utf8(m + ":" + p) && '@' !in h && '#' !in h
    requires Separated(m + ":" + p) && Separated(PlainUri(m, p, h, port))
    ensures Import(PlainUri(m, p, h, port), Some(name)) ==
            if Lacks(h, "/?") && ':' !in m && ':' !in p && ':' !in h && port != 0
            then Ok(NEW_NODE.(name := name, authscheme := Some(m), password := Some(p), host := h, port := port,
                              kind := Shadowsocks))
            else Err(InvalidUri)
  {
    hide Utf8, Coded, Decimal, Split, ReadSsPlain, Lower, Lacks;
    var code, d := Coded(Some(m + ":" + p)), Decimal(port);
    CodedAscii(Some(m + ":" + p));
    DecimalPlain(port);
    PlainPrefix(code, h, d);
    ReadPlain(m, p, h, port, NEW_NODE.(name := name));
    assert (code + "@" + h + ":" + d)[|code|] == '@';
  }

  lemma DecimalPlain(n: int)
    ensures '#' !in Decimal(n)
  {
    hide DecimalNat;
  }

  // ---- ssr ----

  /** An optional text that is printed only when it is not empty. */
  function NonEmpty(o: Option<string>): Option<string> {
    if o.Some? && o.value != "" then o else None
  }

  /** What an import of the printed URI of n can restore at best: missing fields come back as the
      defaults that are printed for them, empty optional ones as missing. */
  function SsrRestored(n: Node, name: string): Node {
    NEW_NODE.(kind := ShadowsocksR, name := if n.name != "" then n.name else name, host := n.host, port := n.port,
              ssrProtocol := Some(Or(n.ssrProtocol, "origin")), authscheme := Some(Or(n.authscheme, "none")),
              ssrObfs := Some(Or(n.ssrObfs, "plain")), password := Some(Or(n.password, "")),
              ssrObfsParam := NonEmpty(n.ssrObfsParam), ssrProtocolParam := NonEmpty(n.ssrProtocolParam),
              ssrotEnable := n.ssrotEnable,
              ssrotDomain := if n.ssrotEnable then NonEmpty(n.ssrotDomain) else None,
              ssrotPath := if n.ssrotEnable then NonEmpty(n.ssrotPath) else None)
  }

  /** The main fields hold no colon, and if no query follows them, no slash and no question mark. */
  ghost predicate SsrClean(n: Node)
    requires IsText(n)
  {
    forall f :: f in SsrFields(n) ==> ':' !in f && (SsrParams(n) == [] ==> '/' !in f && '?' !in f)
  }

  lemma {:induction false} ApplyAppend(n: Node, a: seq<string>, b: seq<string>, given: string)
    ensures ApplyParams(n, a + b, given) == ApplyParams(ApplyParams(n, a, given), b, given)
    decreases |a|
  {
    hide ApplyParam;
    if a == [] {
      assert a + b == b;
    } else {
      ApplyAppend(ApplyParam(n, a[0], given), a[1..], b, given);
      assert (a + b)[1..] == a[1..] + b;
    }
  }

  /** A printed parameter splits into its key and its coded value. */
  lemma ParamSplits(key: string, value: Option<string>)
    requires OptionalText(value) && '=' !in key
    ensures Split(key + "=" + Coded(value), '=') == [key, Coded(value)]
    ensures Base64.DecodeUrlSafe(Coded(value)) == Some(Or(value, ""))
  {
    hide Coded, Split, Base64.DecodeUrlSafe;
    CodedAscii(value);
    CodedBack(value);
    var parts := [key, Coded(value)];
    assert parts[1..] == [Coded(value)];
    assert Join(parts, '=') == key + "=" + Coded(value);
    SplitJoin(parts, '=');
  }

  lemma ApplyOne(n: Node, comp: string, given: string)
    ensures ApplyParams(n, [comp], given) == ApplyParam(n, comp, given)
  {
    assert [comp][1..] == [];
  }

  lemma ApplyPrinted(n: Node, key: string, value: Option<string>, given: string)
    requires OptionalText(value) && '=' !in key
    ensures var r := ApplyParams(n, Param(key, value), given);
            if NonEmpty(value).None? then r == n
            else if key == "obfsparam" then r == n.(ssrObfsParam := value)
            else if key == "protoparam" then r == n.(ssrProtocolParam := value)
            else if key == "remarks" then r == n.(name := value.value)
            else if key == "ot_domain" then r == n.(ssrotDomain := value)
            else if key == "ot_path" then r == n.(ssrotPath := value)
            else true
  {
    hide Coded, Split, Base64.DecodeUrlSafe, ParseInt;
    if NonEmpty(value).Some? {
      ParamSplits(key, value);
      ApplyOne(n, key + "=" + Coded(value), given);
    }
  }

  lemma ApplyEnable(n: Node, given: string)
    ensures ApplyParams(n, ["ot_enable=1"], given) == n.(ssrotEnable := true)
  {
    hide Split, ParseInt;
    var parts := ["ot_enable", "1"];
    assert parts[1..] == ["1"];
    assert Join(parts, '=') == "ot_enable=1";
    SplitJoin(parts, '=');
    assert ParseInt("1") == Some(1) by { ParseOne(); }
    ApplyOne(n, "ot_enable=1", given);
  }

  lemma ParseOne()
    ensures ParseInt("1") == Some(1)
  {
    assert Decimal(1) == "1";
    ParseDecimal(1);
  }

  /** The query loop sets exactly the fields that were printed. */
  lemma ParamsBack(n: Node, n0: Node, given: string)
    requires IsText(n)
    requires n0.ssrObfsParam.None? && n0.ssrProtocolParam.None? && !n0.ssrotEnable && n0.ssrotDomain.None?
             && n0.ssrotPath.None?
    ensures ApplyParams(n0, SsrParams(n), given) ==
            n0.(ssrObfsParam := NonEmpty(n.ssrObfsParam), ssrProtocolParam := NonEmpty(n.ssrProtocolParam),
                name := if n.name != "" then n.name else n0.name, ssrotEnable := n.ssrotEnable,
                ssrotDomain := if n.ssrotEnable then NonEmpty(n.ssrotDomain) else None,
                ssrotPath := if n.ssrotEnable then NonEmpty(n.ssrotPath) else None)
  {
    hide Param, ApplyParams, IsText;
    TextFields(n);
    var p1, p2 := Param("obfsparam", n.ssrObfsParam), Param("protoparam", n.ssrProtocolParam);
    var p3 := Param("remarks", Some(n.name));
    ApplyPrinted(n0, "obfsparam", n.ssrObfsParam, given);
    var n1 := ApplyParams(n0, p1, given);
    ApplyPrinted(n1, "protoparam", n.ssrProtocolParam, given);
    var n2 := ApplyParams(n1, p2, given);
    ApplyPrinted(n2, "remarks", Some(n.name), given);
    var n3 := ApplyParams(n2, p3, given);
    ApplyAppend(n0, p1, p2, given);
    ApplyAppend(n0, p1 + p2, p3, given);
    if n.ssrotEnable {
      ObfsBack(n, n3, given);
      ApplyAppend(n0, p1 + p2 + p3, ObfsParams(n), given);
    } else {
      assert p1 + p2 + p3 + [] == p1 + p2 + p3;
    }
  }

  /** What is printed of a node whose obfuscation of traffic is on. */
  function ObfsParams(n: Node): seq<string>
    requires IsText(n)
  {
    ["ot_enable=1"] + Param("ot_domain", n.ssrotDomain) + Param("ot_path", n.ssrotPath)
  }

  lemma ObfsBack(n: Node, n0: Node, given: string)
    requires IsText(n) && n0.ssrotDomain.None? && n0.ssrotPath.None?
    ensures ApplyParams(n0, ObfsParams(n), given) ==
            n0.(ssrotEnable := true, ssrotDomain := NonEmpty(n.ssrotDomain), ssrotPath := NonEmpty(n.ssrotPath))
  {
    hide Param, ApplyParams, IsText;
    TextFields(n);
    var p4, p5 := Param("ot_domain", n.ssrotDomain), Param("ot_path", n.ssrotPath);
    ApplyEnable(n0, given);
    var n4 := ApplyParams(n0, ["ot_enable=1"], given);
    ApplyPrinted(n4, "ot_domain", n.ssrotDomain, given);
    var n5 := ApplyParams(n4, p4, given);
    ApplyPrinted(n5, "ot_path", n.ssrotPath, given);
    ApplyAppend(n0, ["ot_enable=1"], p4, given);
    ApplyAppend(n0, ["ot_enable=1"] + p4, p5, given);
  }

  lemma TextFields(n: Node)
    requires IsText(n)
    ensures OptionalText(n.ssrObfsParam) && OptionalText(n.ssrProtocolParam) && OptionalText(Some(n.name))
    ensures OptionalText(n.ssrotDomain) && OptionalText(n.ssrotPath) && OptionalText(n.password)
  {
  }

  lemma QueryIsPlain(n: Node)
    requires IsText(n)
    ensures '?' !in Join(SsrParams(n), '&') && (Join(SsrParams(n), '&') == "" <==> SsrParams(n) == [])
    ensures SsrParams(n) != [] ==> Split(Join(SsrParams(n), '&'), '&') == SsrParams(n)
  {
    hide SsrParams, Utf8, Split;
    ParamsPlain(n);
    var ps := SsrParams(n);
    JoinLacks(ps, '&', '?');
    if ps != [] {
      assert ps[0] in ps;
      SplitJoin(ps, '&');
    }
  }

  /** The query is cut off behind the main part, whatever the main part holds. */
  lemma CutQuery(main: string, query: string)
    requires '?' !in query
    ensures HostPart(main + "/?" + query) == main && QueryPart(main + "/?" + query) == query
  {
    hide Last;
    var text := main + "/?" + query;
    assert text == (main + "/") + ['?'] + query;
    LastIs(main + "/", '?', query);
    assert text[..|main| + 1] == main + ['/'] + "";
    LastIs(main, '/', "");
    assert (main + "/")[..|main|] == main;
    assert text[|main| + 2..] == query;
  }

  lemma NoQuery(main: string)
    requires '?' !in main
    ensures QueryPart(main) == "" && ('/' !in main ==> HostPart(main) == main)
  {
    hide Last;
  }

  lemma SplitEmpty(c: char)
    ensures Split("", c) == [""]
  {
    SplitJoin([""], c);
    assert Join([""], c) == "";
  }

  lemma ApplyNothing(n: Node, given: string)
    ensures ApplyParams(n, [""], given) == n
  {
    hide Split;
    SplitEmpty('=');
    ApplyOne(n, "", given);
  }

  lemma FieldsLack(n: Node)
    requires IsText(n)
    ensures SsrFields(n)[1] == Decimal(n.port) && SsrFields(n)[5] == Coded(n.password)
    ensures forall c :: c == ':' || c == '/' || c == '?' ==> c !in SsrFields(n)[1] && c !in SsrFields(n)[5]
  {
    hide Decimal, Coded;
    DecimalAscii(n.port);
    CodedAscii(n.password);
  }

  /** The main part and the query of a clean node are found again. */
  lemma SsrTextSplits(n: Node, n0: Node, given: string)
    requires IsText(n) && SsrClean(n)
    ensures Split(HostPart(SsrText(n)), ':') == SsrFields(n)
    ensures ApplyParams(n0, Split(QueryPart(SsrText(n)), '&'), given) == ApplyParams(n0, SsrParams(n), given)
  {
    hide IsText, SsrFields, SsrParams, ApplyParams, Split, HostPart, QueryPart;
    QueryIsPlain(n);
    var fs := SsrFields(n);
    var main := Join(fs, ':');
    SplitJoin(fs, ':');
    if SsrParams(n) != [] {
      CutQuery(main, Join(SsrParams(n), '&'));
      assert SsrText(n) == main + "/?" + Join(SsrParams(n), '&');
    } else {
      JoinLacks(fs, ':', '?');
      JoinLacks(fs, ':', '/');
      NoQuery(main);
      assert SsrText(n) == main;
      SplitEmpty('&');
      ApplyNothing(n0, given);
      assert ApplyParams(n0, [], given) == n0 by { ApplyNone(n0, given); }
    }
  }

  lemma ApplyNone(n: Node, given: string)
    ensures ApplyParams(n, [], given) == n
  {
  }

  lemma SsrTextBack(n: Node, name: string)
    requires IsText(n) && SsrClean(n)
    ensures ReadSsrText(SsrText(n), NEW_NODE.(name := name)) == Validated(SsrRestored(n, name))
  {
    hide IsText, Split, HostPart, QueryPart, ApplyParams, SsrParams, SsrText, Validated, ParseInt, Decimal,
         Base64.DecodeUrlSafe, Coded;
    TextFields(n);
    ParseDecimal(n.port);
    CodedBack(n.password);
    var fs := SsrFields(n);
    var n1 := NEW_NODE.(name := name, host := fs[0], port := n.port, ssrProtocol := Some(fs[2]),
                        authscheme := Some(fs[3]), ssrObfs := Some(fs[4]), password := Base64.DecodeUrlSafe(fs[5]));
    SsrTextSplits(n, n1, name);
    ParamsBack(n, n1, name);
  }

  lemma {:induction false} ApplyKeeps(n: Node, comps: seq<string>, given: string)
    ensures var r := ApplyParams(n, comps, given);
            && r.host == n.host && r.port == n.port && r.ssrProtocol == n.ssrProtocol
            && r.authscheme == n.authscheme && r.ssrObfs == n.ssrObfs
    decreases |comps|
  {
    hide Split, ParseInt, Base64.DecodeUrlSafe;
    if comps != [] { ApplyKeeps(ApplyParam(n, comps[0], given), comps[1..], given); }
  }

  lemma CutIs(s: string, c: char) returns (k: nat)
    ensures k <= |s| && CutAt(s, c) == s[..k]
    ensures if c in s then k < |s| && s[k] == c else k == |s|
  {
    hide Last;
    var r := Last(s, c);
    if r >= 0 {
      k := r;
    } else {
      k := |s|;
      assert s[..k] == s;
    }
  }

  /** A text with a slash or question mark is cut at one of them, if no query follows. */
  lemma HostPartCuts(text: string) returns (k: nat)
    requires '/' in text || '?' in text
    ensures k < |text| && (text[k] == '/' || text[k] == '?') && HostPart(text) == text[..k]
  {
    hide CutAt;
    var mark := CutIs(text, '?');
    k := CutIs(text[..mark], '/');
    if mark < |text| && k < mark {
      TakeTake(text, mark, k);
    } else if mark == |text| {
      assert text[..mark] == text;
    } else {
      assert text[..mark][..k] == text[..mark];
    }
  }

  lemma TakeTake(s: string, m: nat, n: nat)
    requires n < m <= |s|
    ensures s[..m][..n] == s[..n] && s[..m][n] == s[n]
  {
  }

  /** What is cut off takes a separator with it, so too few fields are left. */
  lemma CutLosesField(n: Node)
    requires IsText(n) && ('/' in Join(SsrFields(n), ':') || '?' in Join(SsrFields(n), ':'))
    requires forall f :: f in SsrFields(n) ==> ':' !in f
    ensures |Split(HostPart(Join(SsrFields(n), ':')), ':')| < 6
  {
    hide Split, HostPart, SsrFields, Join, Count, IsText;
    var fs := SsrFields(n);
    var main := Join(fs, ':');
    var k := HostPartCuts(main);
    FieldsLack(n);
    JoinLast(fs, ':');
    SplitJoin(fs, ':');
    SplitParts(main, ':');
    SplitParts(main[..k], ':');
    assert main == main[..k] + main[k..];
    CountAppend(main[..k], main[k..], ':');
    ColonBehind(Join(fs[..5], ':'), fs[5], k);
    CountSome(main[k..], ':');
  }

  lemma ColonBehind(a: string, b: string, k: nat)
    requires '/' !in b && '?' !in b && k < |a + [':'] + b|
    requires (a + [':'] + b)[k] == '/' || (a + [':'] + b)[k] == '?'
    ensures ':' in (a + [':'] + b)[k..]
  {
    var s := a + [':'] + b;
    forall i | |a| < i < |s| ensures s[i] in b {
      assert s[i] == b[i - |a| - 1];
    }
    assert s[k..][|a| - k] == ':';
  }

  /** If the fields come back they were clean. */
  lemma SsrTextClean(n: Node, name: string)
    requires IsText(n)
    requires ReadSsrText(SsrText(n), NEW_NODE.(name := name)) == Ok(SsrRestored(n, name))
    ensures SsrClean(n)
  {
    hide IsText, Split, HostPart, QueryPart, ApplyParams, SsrParams, SsrText, ParseInt, Decimal, Base64.DecodeUrlSafe,
         Coded, Join;
    var text := SsrText(n);
    var comps := Split(HostPart(text), ':');
    SplitParts(HostPart(text), ':');
    FieldsLack(n);
    var p := ParseInt(comps[1]).value;
    var n1 := NEW_NODE.(name := name, host := comps[0], port := p, ssrProtocol := Some(comps[2]),
                        authscheme := Some(comps[3]), ssrObfs := Some(comps[4]),
                        password := Base64.DecodeUrlSafe(comps[5]));
    ApplyKeeps(n1, Split(QueryPart(text), '&'), name);
    var fs := SsrFields(n);
    assert fs[0] == comps[0] && fs[2] == comps[2] && fs[3] == comps[3] && fs[4] == comps[4];
    assert forall f :: f in fs ==> ':' !in f;
    if SsrParams(n) == [] {
      TextIsMain(n);
      MainLacks(n);
    }
  }

  lemma TextIsMain(n: Node)
    requires IsText(n) && SsrParams(n) == []
    ensures SsrText(n) == Join(SsrFields(n), ':')
  {
    hide IsText, SsrFields, SsrParams;
  }

  lemma MainLacks(n: Node)
    requires IsText(n) && |Split(HostPart(Join(SsrFields(n), ':')), ':')| == 6
    requires forall f :: f in SsrFields(n) ==> ':' !in f
    ensures forall f :: f in SsrFields(n) ==> '/' !in f && '?' !in f
  {
    hide IsText, SsrFields, Split, HostPart, Join;
    var fs := SsrFields(n);
    var main := Join(fs, ':');
    if '/' in main || '?' in main { CutLosesField(n); }
    forall f | f in fs ensures '/' !in f && '?' !in f {
      var k :| 0 <= k < |fs| && fs[k] == f;
      JoinHas(fs, ':', k, '/');
      JoinHas(fs, ':', k, '?');
    }
  }

  lemma {:induction false} JoinHas(parts: seq<string>, sep: char, k: nat, c: char)
    requires k < |parts| && c !in Join(parts, sep)
    ensures c !in parts[k]
  {
    if |parts| > 1 {
      if k > 0 {
        JoinHas(parts[1..], sep, k - 1, c);
      } else {
        SubText(Join(parts, sep), parts[0], 0, c);
      }
    }
  }

  lemma SsrUriReads(n: Node, name: string)
    requires IsText(n)
    ensures Import(SsrUri(n), Some(name)) == ReadSsrText(SsrText(n), NEW_NODE.(name := name))
  {
    hide ReadSsrText, Base64.DecodeUrlSafe, Utf8, SsrText, Coded, IsText;
    SsrTextUtf8(n);
    var code := Coded(Some(SsrText(n)));
    CodedBack(Some(SsrText(n)));
    SsrPrefix(code);
    SsrColon(n);
    assert Drop(SSR_PREFIX + code, |SSR_PREFIX|) == code;
  }

  lemma SsrPrefix(code: string)
    ensures HasPrefix(Lower(SSR_PREFIX + code), SSR_PREFIX) && !HasPrefix(Lower(SSR_PREFIX + code), SS_PREFIX)
  {
    var s := Lower(SSR_PREFIX + code);
    LowerSlice(SSR_PREFIX + code, |SSR_PREFIX|);
    assert s[2] == 'r';
  }

  lemma SsrColon(n: Node)
    requires IsText(n)
    ensures ':' in SsrText(n)
  {
    hide IsText, SsrFields, SsrParams;
    var fs := SsrFields(n);
    assert Join(fs, ':')[|fs[0]|] == ':';
    assert SsrText(n)[|fs[0]|] == ':';
  }

  /** The round trip of an ssr node, for every node that leaves the delimiters alone, and every name: it
      holds if and only if the fields do not collide with the delimiters that are used and the node
      passes validation. */
  lemma SsrRoundTrip(n: Node, name: string)
    requires IsText(n) && Separated(SsrText(n))
    ensures Import(SsrUri(n), Some(name)) == Ok(SsrRestored(n, name)) <==> SsrClean(n) && CanValidate(n, name)
  {
    hide Import, SsrUri, ReadSsrText, SsrText, SsrClean, IsText;
    SsrUriReads(n, name);
    if SsrClean(n) {
      SsrTextBack(n, name);
    }
    if ReadSsrText(SsrText(n), NEW_NODE.(name := name)) == Ok(SsrRestored(n, name)) {
      SsrTextClean(n, name);
      SsrTextBack(n, name);
    }
  }
}
