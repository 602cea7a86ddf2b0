/** ProxyNode of Proxy.swift in place: the printer that collects its parameters in a list, and the
    initializer that assigns the fields one after another. */
module ProxyObject {
  import opened Basics
  import opened ProxyUri
  import opened Text
  import Base64
  import Percent

  class ProxyNode {
    var kind: Kind
    var name: string
    var host: string
    var port: Int64
    var authscheme: Option<string>
    var password: Option<string>
    var ota: bool
    var ssrProtocol: Option<string>
    var ssrProtocolParam: Option<string>
    var ssrObfs: Option<string>
    var ssrObfsParam: Option<string>
    var ssrotEnable: bool
    var ssrotDomain: Option<string>
    var ssrotPath: Option<string>

    ghost function View(): Node
      reads this
    {
      Node(kind, name, host, port, authscheme, password, ota, ssrProtocol, ssrProtocolParam, ssrObfs, ssrObfsParam,
           ssrotEnable, ssrotDomain, ssrotPath)
    }

    constructor ()
      ensures View() == NEW_NODE
    {
      kind, name, host, port, ota := ShadowsocksR, "", "", 0, false;
      authscheme, password := None, None;
      ssrProtocol, ssrProtocolParam, ssrObfs, ssrObfsParam := None, None, None, None;
      ssrotEnable, ssrotDomain, ssrotPath := false, None, None;
    }

    /** buildSsrUri; tmp collects the parameters that are printed. */
    method BuildSsrUri() returns (uri: string)
      requires IsText(View())
      ensures uri == SsrUri(View())
    {
      hide Coded, Utf8, Join, Param;
      SsrTextUtf8(View());
      var base := Join([host, Decimal(port), Or(ssrProtocol, "origin"), Or(authscheme, "none"), Or(ssrObfs, "plain"),
                        Coded(password)], ':');
      var tmp: seq<string> := [];
      tmp := tmp + Param("obfsparam", ssrObfsParam);
      tmp := tmp + Param("protoparam", ssrProtocolParam);
      tmp := tmp + Param("remarks", Some(name));
      if ssrotEnable {
        tmp := tmp + ["ot_enable=1"];
        tmp := tmp + Param("ot_domain", ssrotDomain);
        tmp := tmp + Param("ot_path", ssrotPath);
      }
      assert tmp == SsrParams(View());
      var param := Join(tmp, '&');
      if param != "" {
        base := base + "/?" + param;
      }
      assert base == SsrText(View());
      uri := SSR_PREFIX + Coded(Some(base));
    }

    /** One turn of the query loop. */
    method SetParam(comp: string, given: string)
      modifies this
      ensures View() == ApplyParam(old(View()), comp, given)
    {
      var comps := Split(comp, '=');
      if |comps| != 2 {
        return;
      }
      match comps[0] {
        case "protoparam" => ssrProtocolParam := Base64.DecodeUrlSafe(comps[1]);
        case "obfsparam" => ssrObfsParam := Base64.DecodeUrlSafe(comps[1]);
        case "remarks" => name := Or(Base64.DecodeUrlSafe(comps[1]), given);
        case "ot_enable" => ssrotEnable := ParseInt(comps[1]) != Some(0);
        case "ot_domain" => ssrotDomain := Some(Or(Base64.DecodeUrlSafe(comps[1]), ""));
        case "ot_path" => ssrotPath := Some(Or(Base64.DecodeUrlSafe(comps[1]), ""));
        case _ =>
      }
    }

    /** The query loop. */
    method SetParams(query: string, given: string)
      modifies this
      ensures View() == ApplyParams(old(View()), Split(query, '&'), given)
    {
      hide ApplyParam;
      var comps := Split(query, '&');
      var i := 0;
      while i < |comps|
        invariant 0 <= i <= |comps|
        invariant ApplyParams(View(), comps[i..], given) == ApplyParams(old(View()), comps, given)
      {
        assert comps[i..][0] == comps[i] && comps[i..][1..] == comps[i + 1..];
        SetParam(comps[i], given);
        i := i + 1;
      }
    }

    /** The six fields of the main part. */
    method SetMain(comps: seq<string>, p: Int64)
      requires |comps| == 6
      modifies this
      ensures View() == old(View()).(host := comps[0], port := p, ssrProtocol := Some(comps[2]),
                                     authscheme := Some(comps[3]), ssrObfs := Some(comps[4]),
                                     password := Base64.DecodeUrlSafe(comps[5]))
    {
      hide Base64.DecodeUrlSafe;
      host := comps[0];
      port := p;
      ssrProtocol := Some(comps[2]);
      authscheme := Some(comps[3]);
      ssrObfs := Some(comps[4]);
      password := Base64.DecodeUrlSafe(comps[5]);
    }

    /** The fields of an ssr URI, up to the validation. */
    method SetSsr(text: string) returns (error: Option<Error>)
      modifies this
      ensures ReadSsrText(text, old(View())) == match error
                                                case Some(e) => Err(e)
                                                case None => Validated(View())
    {
      hide ApplyParams, Split, ParseInt, Base64.DecodeUrlSafe, Validated, HostPart, QueryPart;
      var comps := Split(HostPart(text), ':');
      if |comps| != 6 {
        return Some(InvalidUri);
      }
      var p := ParseInt(comps[1]);
      if p.None? {
        return Some(InvalidPort);
      }
      var given := name;
      SetMain(comps, p.value);
      SetParams(QueryPart(text), given);
      kind := ShadowsocksR;
      error := None;
    }

    /** The method, without the suffix that asks for one-time authentication. */
    method SetScheme(full: string)
      modifies this
      ensures var auth := LastText(full, "-auth", |full|);
              View() == old(View()).(authscheme := Some(if auth >= 0 then full[..auth] else full),
                                     ota := old(View()).ota || auth >= 0)
    {
      hide LastText;
      var auth := LastText(full, "-auth", |full|);
      if auth >= 0 {
        authscheme := Some(full[..auth]);
        ota := true;
      } else {
        authscheme := Some(full);
      }
    }

    /** The fields of an ss URI, up to the validation. */
    method SetSs(text: string) returns (error: Option<Error>)
      modifies this
      ensures ReadSsText(text, old(View())) == match error
                                               case Some(e) => Err(e)
                                               case None => Validated(View())
    {
      hide First, Last, Lower, LastText, ParseInt, Validated;
      var pc1, pc2, pcm := First(text, ':'), Last(text, ':'), Last(text, '@');
      if pc2 < 0 || pcm < 0 || !(pc1 < pcm < pc2) {
        return Some(InvalidUri);
      }
      var p := ParseInt(text[pc2 + 1..]);
      if p.None? {
        return Some(InvalidPort);
      }
      SetScheme(Lower(text)[..pc1]);
      password := Some(text[pc1 + 1..pcm]);
      host := text[pcm + 1..pc2];
      port := p.value;
      kind := Shadowsocks;
      error := None;
    }

    /** The fields of an ss URI with plain address. */
    method SetSsPlain(body: string) returns (error: Option<Error>)
      modifies this
      ensures match error
              case Some(e) => ReadSsPlain(body, old(View())) == Err(e)
              case None => ReadSsPlain(body, old(View())) == Ok(View())
    {
      hide LastText, Split, ParseInt, Base64.DecodeUrlSafe;
      if LastText(body, "/?", |body|) >= 0 {
        return Some(InvalidUri);
      }
      var parts := Split(body, '@');
      var userinfo := Base64.DecodeUrlSafe(parts[0]);
      if userinfo.None? {
        return Some(InvalidUri);
      }
      var user := Split(userinfo.value, ':');
      if |user| != 2 || |parts| < 2 {
        return Some(InvalidUri);
      }
      var address := Split(parts[1], ':');
      if |address| != 2 {
        return Some(InvalidUri);
      }
      var p := ParseInt(address[1]);
      if p.None? || p.value == 0 {
        return Some(InvalidUri);
      }
      authscheme, password, host := Some(user[0]), Some(user[1]), address[0];
      port := p.value;
      kind := Shadowsocks;
      error := None;
    }

    /** validate(). */
    method Validate() returns (error: Option<Error>)
      ensures match error
              case Some(e) => Validated(View()) == Err(e)
              case None => Validated(View()) == Ok(View())
    {
      if name == "" {
        error := Some(InvalidName);
      } else if host == "" {
        error := Some(InvalidHost);
      } else if !(0 < port <= 65535) {
        error := Some(InvalidPort);
      } else if authscheme.None? {
        error := Some(InvalidAuthScheme);
      } else {
        error := None;
      }
    }

    /** The ss branch: the name from the fragment, then one of the two forms. */
    method SetSsUri(uri: string) returns (error: Option<Error>)
      modifies this
      ensures match error
              case Some(e) => ReadSs(uri, old(View())) == Err(e)
              case None => ReadSs(uri, old(View())) == Ok(View())
    {
      hide ReadSsText, ReadSsPlain, Split, Base64.DecodeUrlSafe, Percent.Decode, Validated;
      var parts := Split(uri, '#');
      if |parts| > 1 {
        var remarks := Percent.Decode(parts[1]);
        if remarks.None? {
          return Some(ForcedUnwrap);
        }
        name := remarks.value;
      }
      var body := Drop(parts[0], |SS_PREFIX|);
      if '@' in body {
        error := SetSsPlain(body);
        return;
      }
      var text := Base64.DecodeUrlSafe(body);
      if text.None? || ':' !in text.value {
        return Some(InvalidUri);
      }
      error := SetSs(text.value);
      if error.None? {
        error := Validate();
      }
    }

    method SetSsrUri(uri: string) returns (error: Option<Error>)
      modifies this
      ensures match error
              case Some(e) => ReadSsr(uri, old(View())) == Err(e)
              case None => ReadSsr(uri, old(View())) == Ok(View())
    {
      hide ReadSsrText, Base64.DecodeUrlSafe, Validated;
      var text := Base64.DecodeUrlSafe(Drop(uri, |SSR_PREFIX|));
      if text.None? || ':' !in text.value {
        return Some(InvalidUri);
      }
      error := SetSsr(text.value);
      if error.None? {
        error := Validate();
      }
    }

    /** init(dictionary:) with a uri. */
    method ImportUri(uri: string, given: Option<string>) returns (error: Option<Error>)
      requires View() == NEW_NODE
      modifies this
      ensures match error
              case Some(e) => Import(uri, given) == Err(e)
              case None => Import(uri, given) == Ok(View())
    {
      hide ReadSs, ReadSsr, Lower;
      if given.None? {
        return Some(InvalidName);
      }
      name := given.value;
      if HasPrefix(Lower(uri), SS_PREFIX) {
        error := SetSsUri(uri);
      } else if HasPrefix(Lower(uri), SSR_PREFIX) {
        error := SetSsrUri(uri);
      } else {
        error := Some(InvalidUri);
      }
    }
  }
}
