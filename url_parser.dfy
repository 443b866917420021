/** Domain extraction and media-stream URL construction (utils/url_parser.py). */
module UrlParser {
  import opened Strings
  import opened Wrappers

  /**
   * `extract_domain_from_url`: drop an `https://` or `http://` scheme, then
   * trailing slashes, then surrounding whitespace.
   */
  function ExtractDomainFromUrl(url: string): (r: string)
    ensures url == "" ==> r == ""
    ensures r == [] || (!IsSpace(r[0]) && !IsSpace(r[|r| - 1]))
    ensures Contains(url, r)
    ensures StartsWith(url, "https://") ==> r == Strip(RStripChar(url[8..], '/'))
    ensures !StartsWith(url, "https://") && StartsWith(url, "http://") ==> r == Strip(RStripChar(url[7..], '/'))
    ensures !StartsWith(url, "https://") && !StartsWith(url, "http://") ==> r == Strip(RStripChar(url, '/'))
  {
    assert url[0..] == url;
    if url == "" then assert InfixAt(url, "", 0); ""
    else if StartsWith(url, "https://") then StripInfix(url, 8)
    else if StartsWith(url, "http://") then StripInfix(url, 7)
    else StripInfix(url, 0)
  }

  /** `url[n:].rstrip('/').strip()`, shown to be an infix of `url`. */
  function StripInfix(url: string, n: nat): (r: string)
    requires n <= |url|
    ensures r == Strip(RStripChar(url[n..], '/'))
    ensures Contains(url, r)
  {
    var t := RStripChar(url[n..], '/');
    var r := Strip(t);
    StripIsInfix(t);
    var i :| InfixAt(t, r, i);
    assert InfixAt(url, r, n + i) by {
      assert url[n + i..n + i + |r|] == url[n..][i..i + |r|];
    }
    r
  }

  /** `get_websocket_protocol`: plain `ws` for local development hosts, `wss` otherwise. */
  function GetWebsocketProtocol(domain: string): (r: string)
    ensures r == "ws" || r == "wss"
    ensures r == "ws" <==> Contains(domain, "localhost") || Contains(domain, "127.0.0.1")
  {
    if Contains(domain, "localhost") || Contains(domain, "127.0.0.1") then "ws" else "wss"
  }

  /** `f"{protocol}://{host}/media-stream/{call_id}".strip().replace('\n', '').replace('\r', '')` */
  function MediaStreamUrl(protocol: string, host: string, callId: string): string {
    RemoveChar(RemoveChar(Strip(protocol + "://" + host + "/media-stream/" + callId), '\n'), '\r')
  }

  /** Line breaks removed, as the last two steps of `MediaStreamUrl` do. */
  function NoLineBreaks(s: string): string {
    RemoveChar(RemoveChar(s, '\n'), '\r')
  }

  datatype UrlError = ServiceUrlNotConfigured

  /**
   * `build_media_stream_url`: the argument domain ("" for None) falls back
   * to the configured service URL; with neither, a ValueError.
   */
  function BuildMediaStreamUrl(callId: string, domain: string, configured: string): (r: Result<string, UrlError>)
    ensures r.Failure? <==> domain == "" && configured == ""
    ensures r.Success? ==> '\n' !in r.value && '\r' !in r.value
    ensures r.Success? ==>
      var clean := ExtractDomainFromUrl(if domain != "" then domain else configured);
      var protocol := GetWebsocketProtocol(clean);
      && StartsWith(r.value, protocol + "://")
      && r.value == NoLineBreaks(protocol + "://" + clean + "/media-stream/") + NoLineBreaks(RStrip(callId))
  {
    var d := if domain != "" then domain else configured;
    if d == "" then Failure(ServiceUrlNotConfigured)
    else
      var clean := ExtractDomainFromUrl(d);
      var protocol := GetWebsocketProtocol(clean);
      var url := MediaStreamUrl(protocol, clean, callId);
      MediaStreamUrlShape(protocol, clean, callId);
      Success(url)
  }

  lemma NoLineBreaksAppend(a: string, b: string)
    ensures NoLineBreaks(a + b) == NoLineBreaks(a) + NoLineBreaks(b)
  {
    RemoveCharAppend(a, b, '\n');
    RemoveCharAppend(RemoveChar(a, '\n'), RemoveChar(b, '\n'), '\r');
  }

  lemma NoLineBreaksOfClean(s: string)
    requires '\n' !in s && '\r' !in s
    ensures NoLineBreaks(s) == s
  {
    RemoveAbsentChar(s, '\n');
    RemoveAbsentChar(s, '\r');
  }

  /**
   * Stripping a media-stream URL only trims the end of the call id, and
   * removing line breaks leaves the scheme in front.
   */
  lemma MediaStreamUrlShape(protocol: string, host: string, callId: string)
    requires protocol == "ws" || protocol == "wss"
    ensures MediaStreamUrl(protocol, host, callId)
      == NoLineBreaks(protocol + "://" + host + "/media-stream/") + NoLineBreaks(RStrip(callId))
    ensures StartsWith(MediaStreamUrl(protocol, host, callId), protocol + "://")
    ensures '\n' !in MediaStreamUrl(protocol, host, callId) && '\r' !in MediaStreamUrl(protocol, host, callId)
  {
    var head := protocol + "://" + host + "/media-stream/";
    MediaStreamUrlSplit(protocol, host, callId);
    HeadKeepsScheme(protocol, host);
    var url := NoLineBreaks(head) + NoLineBreaks(RStrip(callId));
    assert url[..|protocol + "://"|] == NoLineBreaks(head)[..|protocol + "://"|];
  }

  lemma MediaStreamUrlSplit(protocol: string, host: string, callId: string)
    requires protocol == "ws" || protocol == "wss"
    ensures MediaStreamUrl(protocol, host, callId)
      == NoLineBreaks(protocol + "://" + host + "/media-stream/") + NoLineBreaks(RStrip(callId))
  {
    var head := protocol + "://" + host + "/media-stream/";
    assert head + callId == protocol + "://" + host + "/media-stream/" + callId;
    assert !IsSpace(head[0]) && !IsSpace(head[|head| - 1]) by {
      assert head[0] == protocol[0] == 'w';
      assert head[|head| - 1] == '/';
    }
    StripAfterWord(head, callId);
    NoLineBreaksAppend(head, RStrip(callId));
  }

  lemma HeadKeepsScheme(protocol: string, host: string)
    requires protocol == "ws" || protocol == "wss"
    ensures StartsWith(NoLineBreaks(protocol + "://" + host + "/media-stream/"), protocol + "://")
  {
    var scheme := protocol + "://";
    var rest := host + "/media-stream/";
    assert protocol + "://" + host + "/media-stream/" == scheme + rest;
    NoLineBreaksOfClean(scheme);
    NoLineBreaksAppend(scheme, rest);
  }

  /** A `wss` media-stream URL starts with `wss://` and holds no line breaks, whatever the host. */
  lemma WssMediaStreamUrl(host: string, callId: string)
    ensures StartsWith(MediaStreamUrl("wss", host, callId), "wss://")
    ensures '\n' !in MediaStreamUrl("wss", host, callId) && '\r' !in MediaStreamUrl("wss", host, callId)
  {
    MediaStreamUrlShape("wss", host, callId);
    assert "wss" + "://" == "wss://";
  }

  /** A scheme-qualified clean domain extracts to itself. */
  lemma ExtractSchemeRoundTrip(scheme: string, domain: string)
    requires scheme == "https://" || scheme == "http://"
    requires domain != [] && !IsSpace(domain[0]) && !IsSpace(domain[|domain| - 1])
    requires domain[|domain| - 1] != '/'
    ensures ExtractDomainFromUrl(scheme + domain) == domain
  {
    var url := scheme + domain;
    assert StartsWith(url, scheme);
    if scheme == "http://" {
      assert !StartsWith(url, "https://") by { assert url[4] == ':'; }
    }
    assert url[|scheme|..] == domain;
    StripOfTrimmed(domain);
  }

  /** A clean domain without a scheme extracts to itself. */
  lemma ExtractBareDomain(domain: string)
    requires domain != [] && !IsSpace(domain[0]) && !IsSpace(domain[|domain| - 1])
    requires domain[|domain| - 1] != '/'
    requires !StartsWith(domain, "https://") && !StartsWith(domain, "http://")
    ensures ExtractDomainFromUrl(domain) == domain
  {
    assert domain[0..] == domain;
    StripOfTrimmed(domain);
  }

  lemma HeadHasNoLineBreaks(protocol: string, host: string)
    requires protocol == "ws" || protocol == "wss"
    requires '\n' !in host && '\r' !in host
    ensures var head := protocol + "://" + host + "/media-stream/"; '\n' !in head && '\r' !in head
  {
  }

  /**
   * With a clean domain and a call id free of whitespace and line breaks,
   * the URL is exactly `<protocol>://<domain>/media-stream/<call_id>`.
   */
  lemma BuildMediaStreamUrlExact(callId: string, domain: string)
    requires domain != [] && !IsSpace(domain[0]) && !IsSpace(domain[|domain| - 1])
    requires domain[|domain| - 1] != '/'
    requires !StartsWith(domain, "https://") && !StartsWith(domain, "http://")
    requires '\n' !in domain && '\r' !in domain
    requires forall i | 0 <= i < |callId| :: !IsSpace(callId[i])
    ensures BuildMediaStreamUrl(callId, domain, "")
      == Success(GetWebsocketProtocol(domain) + "://" + domain + "/media-stream/" + callId)
  {
    ExtractBareDomain(domain);
    var protocol := GetWebsocketProtocol(domain);
    var head := protocol + "://" + domain + "/media-stream/";
    var r := BuildMediaStreamUrl(callId, domain, "");
    assert r.Success? && r.value == NoLineBreaks(head) + NoLineBreaks(RStrip(callId));
    assert RStrip(callId) == callId by {
      if callId != [] { assert !IsSpace(callId[|callId| - 1]); }
    }
    assert '\n' !in callId && '\r' !in callId by {
      assert IsSpace('\n') && IsSpace('\r');
    }
    HeadHasNoLineBreaks(protocol, domain);
    NoLineBreaksOfClean(head);
    NoLineBreaksOfClean(callId);
  }
}
