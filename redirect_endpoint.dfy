/**
 * The redirect endpoint (lib/redisse/redirect_endpoint.rb): a Rack app that hands
 * a request over to the event server through nginx's `X-Accel-Redirect`, naming
 * the channels, and the `polling` and `lastEventId` options, in the URL's query.
 *
 * `URI.encode_www_form_component` is the parameter `encode`, and the query string
 * reaches the endpoint already parsed into name and value pairs
 * (`URI.decode_www_form`).
 */
module RedirectEndpoint {
  import opened Wrappers
  import opened Text
  import opened Responses
  import opened ServerRequests

  /** An element of the array given to `URI.encode_www_form`: a bare name, or a pair. */
  datatype FormItem = Name(name: string) | Pair(name: string, value: string)

  /** `base_url=`: a slash is added unless the URL already ends with one. */
  function WithSlash(url: string): (r: string)
    ensures EndsWith(r, "/")
    ensures r == url <==> EndsWith(url, "/")
    ensures r == url || r == url + "/"
  {
    if EndsWith(url, "/") then url
    else
      assert (url + "/")[|url + "/"| - 1..] == "/";
      url + "/"
  }

  lemma WithSlashIdempotent(url: string)
    ensures WithSlash(WithSlash(url)) == WithSlash(url)
  {
  }

  /** `p` is the first pair of `params` named `key`. */
  ghost predicate FirstNamed(params: seq<(string, string)>, key: string, p: (string, string)) {
    p.0 == key && exists i :: 0 <= i < |params| && params[i] == p && forall j :: 0 <= j < i ==> params[j].0 != key
  }

  lemma FirstNamedAfter(params: seq<(string, string)>, key: string, p: (string, string))
    requires |params| > 0 && params[0].0 != key && FirstNamed(params[1..], key, p)
    ensures FirstNamed(params, key, p)
  {
    var i :| 0 <= i < |params[1..]| && params[1..][i] == p && forall j :: 0 <= j < i ==> params[1..][j].0 != key;
    assert params[i + 1] == p;
    forall j | 0 <= j < i + 1 ensures params[j].0 != key {
      if j > 0 { assert params[j] == params[1..][j - 1]; }
    }
  }

  /** `params.assoc(key)`: the first pair with that name. */
  function Assoc(params: seq<(string, string)>, key: string): (r: Option<(string, string)>)
    ensures r.None? <==> forall i :: 0 <= i < |params| ==> params[i].0 != key
    ensures r.Some? ==> FirstNamed(params, key, r.value)
  {
    if |params| == 0 then None
    else if params[0].0 == key then Some(params[0])
    else
      var r := Assoc(params[1..], key);
      if r.Some? then FirstNamedAfter(params, key, r.value); r else r
  }

  /** `redirect_options`: `polling` when the query has it, then the `lastEventId` pair. */
  function RedirectOptions(params: seq<(string, string)>): seq<FormItem> {
    (if Assoc(params, "polling").Some? then [Name("polling")] else [])
    + match Assoc(params, "lastEventId")
      case Some(p) => [Pair(p.0, p.1)]
      case None => []
  }

  /**
   * Only the two options the server reads are forwarded, each exactly when the
   * query has it, with the value of its first occurrence; `polling` comes first.
   */
  lemma RedirectOptionsForwarded(params: seq<(string, string)>)
    ensures var o := RedirectOptions(params);
      && |o| <= 2
      && (forall i :: 0 <= i < |o| ==> o[i] == Name("polling") || (o[i].Pair? && o[i].name == "lastEventId"))
      && (Name("polling") in o <==> exists i :: 0 <= i < |params| && params[i].0 == "polling")
      && (forall v :: Pair("lastEventId", v) in o <==> Assoc(params, "lastEventId") == Some(("lastEventId", v)))
      && (|o| == 2 ==> o[0] == Name("polling"))
  {
  }

  function Names(channels: seq<string>): (r: seq<FormItem>)
    ensures |r| == |channels| && forall i :: 0 <= i < |r| ==> r[i] == Name(channels[i])
  {
    if |channels| == 0 then [] else [Name(channels[0])] + Names(channels[1..])
  }

  function EncodeItem(item: FormItem, encode: string -> string): string {
    match item
    case Name(n) => encode(n)
    case Pair(n, v) => encode(n) + "=" + encode(v)
  }

  function EncodeItems(items: seq<FormItem>, encode: string -> string): (r: seq<string>)
    ensures |r| == |items| && forall i :: 0 <= i < |r| ==> r[i] == EncodeItem(items[i], encode)
  {
    if |items| == 0 then [] else [EncodeItem(items[0], encode)] + EncodeItems(items[1..], encode)
  }

  /** `URI.encode_www_form`: the encoded items joined with `&`. */
  function EncodeForm(items: seq<FormItem>, encode: string -> string): string {
    if |items| == 0 then "" else Join(EncodeItems(items, encode), '&')
  }

  /** The query of the redirect: the options first, then the channels in their order. */
  function RedirectQuery(channels: seq<string>, params: seq<(string, string)>, encode: string -> string): string {
    EncodeForm(RedirectOptions(params) + Names(channels), encode)
  }

  /** `redirect_url`: fails on a channel named like the server's options. */
  function RedirectUrl(base: string, channels: seq<string>, params: seq<(string, string)>,
                       encode: string -> string): (r: Result<string>)
    ensures r.Err? <==> "polling" in channels || "lastEventId" in channels
    ensures r.Err? ==> r.message ==
                       (if "polling" in channels then "Wrong channel \"polling\"" else "Reserved channel \"lastEventId\"")
    ensures r.Ok? ==> r.value == base + "?" + RedirectQuery(channels, params, encode)
  {
    if "polling" in channels then Err("Wrong channel \"polling\"")
    else if "lastEventId" in channels then Err("Reserved channel \"lastEventId\"")
    else Ok(base + "?" + RedirectQuery(channels, params, encode))
  }

  class Endpoint {
    var baseUrl: string

    /** `initialize`: the base URL is the server's internal URL (`nil` reads as empty). */
    constructor (nginxInternalUrl: Option<string>)
      ensures baseUrl == WithSlash(nginxInternalUrl.GetOr(""))
    {
      baseUrl := WithSlash(nginxInternalUrl.GetOr(""));
    }

    /** `base_url=`. */
    method SetBaseUrl(url: Option<string>)
      modifies this
      ensures baseUrl == WithSlash(url.GetOr("")) && EndsWith(baseUrl, "/")
    {
      baseUrl := WithSlash(url.GetOr(""));
    }

    /** `call`: a response whose `X-Accel-Redirect` header is the redirect URL. */
    method Call(channels: seq<string>, params: seq<(string, string)>, encode: string -> string)
      returns (r: Result<Response>)
      ensures match RedirectUrl(baseUrl, channels, params, encode)
        case Ok(url) => r == Ok(Response(200, [("X-Accel-Redirect", url)], ""))
        case Err(m) => r == Err(m)
    {
      var url := RedirectUrl(baseUrl, channels, params, encode);
      match url {
        case Ok(u) => r := Ok(Response(200, [("X-Accel-Redirect", u)], ""));
        case Err(m) => r := Err(m);
      }
    }
  }

  // ---------------------------------------------------------------------------
  // From the redirect to the standalone server

  /**
   * What the round trip needs of `URI.encode_www_form_component` and its decoder,
   * all true of the real pair: decoding undoes encoding; `&` and `=` are always
   * escaped; only the empty text encodes to nothing; the option names are left
   * as they are; and decoding a `name=value` item decodes either side of the `=`.
   */
  ghost predicate FormCodec(encode: string -> string, decode: string -> string) {
    && (forall s :: decode(encode(s)) == s)
    && (forall s :: '&' !in encode(s) && '=' !in encode(s))
    && (forall s :: s != "" ==> encode(s) != "")
    && encode("polling") == "polling" && encode("lastEventId") == "lastEventId"
    && (forall a, b :: decode(encode(a) + "=" + encode(b)) == a + "=" + b)
  }

  lemma NoAmpersand(item: FormItem, encode: string -> string, decode: string -> string)
    requires FormCodec(encode, decode)
    ensures '&' !in EncodeItem(item, encode)
    ensures item != Name("") ==> EncodeItem(item, encode) != ""
  {
    match item {
      case Name(n) =>
      case Pair(n, v) =>
        var x := encode(n) + "=" + encode(v);
        assert x[|encode(n)|] == '=';
        assert '&' !in encode(n) && '&' !in encode(v);
        assert forall i :: 0 <= i < |x| ==> x[i] != '&' by {
          forall i | 0 <= i < |x| ensures x[i] != '&' {
            if i < |encode(n)| { assert x[i] == encode(n)[i]; }
            else if i > |encode(n)| { assert x[i] == encode(v)[i - |encode(n)| - 1]; }
          }
        }
    }
  }

  /** The query splits back into the encoded items, in order. */
  lemma SplitEncoded(items: seq<FormItem>, encode: string -> string, decode: string -> string)
    requires FormCodec(encode, decode)
    requires |items| > 0 ==> items[|items| - 1] != Name("")
    ensures RubySplit(EncodeForm(items, encode), '&') == EncodeItems(items, encode)
  {
    var parts := EncodeItems(items, encode);
    if |items| > 0 {
      forall i | 0 <= i < |parts| ensures '&' !in parts[i] {
        NoAmpersand(items[i], encode, decode);
      }
      NoAmpersand(items[|items| - 1], encode, decode);
      SplitJoin(parts, '&');
      DropTrailingEmptyPad(parts, []);
      assert parts + [] == parts;
    }
  }

  /** The last item of a redirect query is never an empty name. */
  lemma LastItemNamed(params: seq<FormItem>, channels: seq<string>)
    requires "" !in channels
    requires forall i :: 0 <= i < |params| ==> params[i] != Name("")
    ensures var items := params + Names(channels); |items| > 0 ==> items[|items| - 1] != Name("")
  {
    if |channels| > 0 {
      assert channels[|channels| - 1] in channels;
    }
  }

  lemma EncodeItemsConcat(a: seq<FormItem>, b: seq<FormItem>, encode: string -> string)
    ensures EncodeItems(a + b, encode) == EncodeItems(a, encode) + EncodeItems(b, encode)
  {
  }

  lemma DecodeAllConcat(a: seq<string>, b: seq<string>, decode: string -> string)
    ensures DecodeAll(a + b, decode) == DecodeAll(a, decode) + DecodeAll(b, decode)
  {
  }

  /** The channels decode back from their encoded names. */
  lemma DecodeNames(channels: seq<string>, encode: string -> string, decode: string -> string)
    requires FormCodec(encode, decode)
    ensures DecodeAll(EncodeItems(Names(channels), encode), decode) == channels
  {
  }

  /** The forwarded options decode to `polling` and `lastEventId=<value>`. */
  lemma DecodedOptionsDropped(params: seq<(string, string)>, encode: string -> string, decode: string -> string)
    requires FormCodec(encode, decode)
    ensures KeepChannels(DecodeAll(EncodeItems(RedirectOptions(params), encode), decode)) == []
  {
    var o := RedirectOptions(params);
    var d := DecodeAll(EncodeItems(o, encode), decode);
    forall i | 0 <= i < |d| ensures !IsChannel(d[i]) {
      if o[i].Pair? {
        assert d[i] == decode(encode("lastEventId") + "=" + encode(o[i].value));
        StartsWithConcat("lastEventId=", o[i].value);
      }
    }
    KeepNoChannel(d);
  }

  /**
   * The standalone server reads back every channel the redirect names, provided
   * none starts with `lastEventId=` (and none is empty).
   */
  lemma RedirectRoundTripAsWritten(base: string, channels: seq<string>, params: seq<(string, string)>,
                                   encode: string -> string, decode: string -> string)
    requires FormCodec(encode, decode) && RedirectUrl(base, channels, params, encode).Ok?
    requires "" !in channels
    requires forall c :: c in channels ==> !StartsWith(c, "lastEventId=")
    ensures StandaloneChannels(Some(RedirectQuery(channels, params, encode)), decode) == channels
  {
    StandaloneDecodes(channels, params, encode, decode);
    assert forall i :: 0 <= i < |channels| ==> channels[i] in channels;
    KeepAllChannels(channels);
    assert [] + channels == channels;
  }

  /** A redirect query splits back into the encoded options followed by the encoded channels. */
  lemma QueryItems(channels: seq<string>, params: seq<(string, string)>,
                   encode: string -> string, decode: string -> string)
    requires FormCodec(encode, decode) && "" !in channels
    ensures RubySplit(RedirectQuery(channels, params, encode), '&')
         == EncodeItems(RedirectOptions(params), encode) + EncodeItems(Names(channels), encode)
  {
    var o := RedirectOptions(params);
    var n := Names(channels);
    LastItemNamed(o, channels);
    SplitEncoded(o + n, encode, decode);
    EncodeItemsConcat(o, n, encode);
  }

  /** What the standalone parser makes of a redirect query, before it keeps the channels. */
  lemma StandaloneDecodes(channels: seq<string>, params: seq<(string, string)>,
                          encode: string -> string, decode: string -> string)
    requires FormCodec(encode, decode) && "" !in channels
    ensures StandaloneChannels(Some(RedirectQuery(channels, params, encode)), decode) == KeepChannels(channels)
  {
    var eo := EncodeItems(RedirectOptions(params), encode);
    var en := EncodeItems(Names(channels), encode);
    var q := RedirectQuery(channels, params, encode);
    QueryItems(channels, params, encode, decode);
    DecodeAllConcat(eo, en, decode);
    DecodeNames(channels, encode, decode);
    var d := DecodeAll(eo, decode);
    assert DecodeAll(RubySplit(q, '&'), decode) == d + channels;
    DecodedOptionsDropped(params, encode, decode);
    KeepChannelsConcat(d, channels);
    assert [] + KeepChannels(channels) == KeepChannels(channels);
  }

  /**
   * A channel named `lastEventId=1` passes the redirect's check, yet the standalone
   * server drops it: a request for that one channel reaches it with none.
   */
  lemma RedirectDropsChannel(base: string, params: seq<(string, string)>,
                             encode: string -> string, decode: string -> string)
    requires FormCodec(encode, decode)
    ensures RedirectUrl(base, ["lastEventId=1"], params, encode).Ok?
    ensures StandaloneChannels(Some(RedirectQuery(["lastEventId=1"], params, encode)), decode) == []
  {
    StandaloneDecodes(["lastEventId=1"], params, encode, decode);
    StartsWithConcat("lastEventId=", "1");
    assert "lastEventId=" + "1" == "lastEventId=1";
    assert KeepChannels(["lastEventId=1"]) == KeepChannels([]);
  }

  /**
   * With the options recognised before decoding, every channel the redirect
   * accepts reaches the standalone server, in order.
   */
  lemma RedirectRoundTrip(base: string, channels: seq<string>, params: seq<(string, string)>,
                          encode: string -> string, decode: string -> string)
    requires FormCodec(encode, decode) && RedirectUrl(base, channels, params, encode).Ok?
    requires "" !in channels
    ensures StandaloneChannelsRaw(Some(RedirectQuery(channels, params, encode)), decode) == channels
  {
    var o := RedirectOptions(params);
    var n := Names(channels);
    var eo, en := EncodeItems(o, encode), EncodeItems(n, encode);
    LastItemNamed(o, channels);
    SplitEncoded(o + n, encode, decode);
    EncodeItemsConcat(o, n, encode);
    KeepChannelsConcat(eo, en);
    RawOptionsDropped(params, encode, decode);
    forall i | 0 <= i < |en| ensures IsChannel(en[i]) {
      RawChannelKept(channels[i], encode, decode);
    }
    KeepAllChannels(en);
    assert eo + en == EncodeItems(o + n, encode);
    assert [] + en == en;
    DecodeNames(channels, encode, decode);
  }

  lemma RawOptionsDropped(params: seq<(string, string)>, encode: string -> string, decode: string -> string)
    requires FormCodec(encode, decode)
    ensures KeepChannels(EncodeItems(RedirectOptions(params), encode)) == []
  {
    var o := RedirectOptions(params);
    var e := EncodeItems(o, encode);
    RedirectOptionsOnly(params);
    forall i | 0 <= i < |e| ensures !IsChannel(e[i]) {
      OptionNotChannel(o[i], encode, decode);
    }
    KeepNoChannel(e);
  }

  /** The forwarded options are `polling` and `lastEventId` pairs only. */
  lemma RedirectOptionsOnly(params: seq<(string, string)>)
    ensures var o := RedirectOptions(params);
      forall i :: 0 <= i < |o| ==> o[i] == Name("polling") || (o[i].Pair? && o[i].name == "lastEventId")
  {
    var a := Assoc(params, "lastEventId");
    if a.Some? {
      assert a.value.0 == "lastEventId";
    }
  }

  /** An encoded option is never taken for a channel by the standalone server. */
  lemma OptionNotChannel(item: FormItem, encode: string -> string, decode: string -> string)
    requires FormCodec(encode, decode)
    requires item == Name("polling") || (item.Pair? && item.name == "lastEventId")
    ensures !IsChannel(EncodeItem(item, encode))
  {
    if item.Pair? {
      var v := encode(item.value);
      assert EncodeItem(item, encode) == "lastEventId" + "=" + v;
      assert "lastEventId" + "=" + v == "lastEventId=" + v;
      StartsWithConcat("lastEventId=", v);
    } else {
      assert EncodeItem(item, encode) == encode("polling");
    }
  }

  /** An encoded channel other than `polling` never looks like an option. */
  lemma RawChannelKept(c: string, encode: string -> string, decode: string -> string)
    requires FormCodec(encode, decode) && c != "polling"
    ensures IsChannel(encode(c))
  {
    var e := encode(c);
    assert decode(e) == c && decode(encode("polling")) == "polling";
    if |e| >= 12 {
      assert e[11] in e;
      assert e[..12][11] == e[11];
    }
  }
}
