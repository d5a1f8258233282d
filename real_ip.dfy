/** pkg/web/realip/real_ip.go: the client address of a request, taken from the first of
    Cf-Connecting-Ip, X-Real-IP, X-Forwarded-For (its first hop) and RemoteAddr that is set. */
module RealIp {
  import opened Base
  import opened Text
  import opened Http

  const HdrXRealIP: string := "X-Real-IP"
  const HdrCfConnectingIp: string := "Cf-Connecting-Ip"
  const HdrXForwardedFor: string := "X-Forwarded-For"

  /** strings.Split(s, ",")[0]: everything before the first comma, or all of s. */
  function FirstItem(s: string): (r: string)
    ensures r <= s && ',' !in r
    ensures r == s || s[|r|] == ','
  {
    if s == [] || s[0] == ',' then [] else [s[0]] + FirstItem(s[1..])
  }

  /** ClientIP, given net.SplitHostPort's host part (None when it fails) as `hostOf`; a nil
      request is None. */
  function ClientIP(r: Option<Request>, hostOf: string -> Option<string>): (ip: string)
    ensures r.None? ==> ip == ""
    ensures r.Some? && HeaderGet(r.value, HdrCfConnectingIp) != "" ==>
      ip == HeaderGet(r.value, HdrCfConnectingIp)
    ensures r.Some? && HeaderGet(r.value, HdrCfConnectingIp) == "" && HeaderGet(r.value, HdrXRealIP) != "" ==>
      ip == HeaderGet(r.value, HdrXRealIP)
  {
    if r.None? then ""
    else
      var req := r.value;
      var cf := HeaderGet(req, HdrCfConnectingIp);
      if cf != "" then cf
      else
        var xReal := HeaderGet(req, HdrXRealIP);
        if xReal != "" then xReal
        else
          var xff := HeaderGet(req, HdrXForwardedFor);
          if xff == "" then
            var host := hostOf(req.remoteAddr);
            if host.None? then req.remoteAddr else host.value
          else TrimSpace(FirstItem(xff))
  }

  /** The lower two sources: with neither Cloudflare's nor nginx's header set, a forwarded-for
      list gives its first hop without surrounding spaces, and without it the host part of
      RemoteAddr is used, or RemoteAddr itself when it does not split. */
  lemma LowerSources(r: Request, hostOf: string -> Option<string>)
    requires HeaderGet(r, HdrCfConnectingIp) == "" && HeaderGet(r, HdrXRealIP) == ""
    ensures var ip := ClientIP(Some(r), hostOf);
      var xff := HeaderGet(r, HdrXForwardedFor);
      && (xff != "" ==> ip == TrimSpace(FirstItem(xff)) && ',' !in ip)
      && (xff == "" && hostOf(r.remoteAddr).Some? ==> ip == hostOf(r.remoteAddr).value)
      && (xff == "" && hostOf(r.remoteAddr).None? ==> ip == r.remoteAddr)
  {
    var xff := HeaderGet(r, HdrXForwardedFor);
    if xff != "" {
      assert ClientIP(Some(r), hostOf) == TrimSpace(FirstItem(xff));
      FirstHopHasNoComma(xff);
    }
  }

  /** The first hop of a forwarded-for list, trimmed, holds no comma. */
  lemma FirstHopHasNoComma(xff: string)
    ensures ',' !in TrimSpace(FirstItem(xff))
  {
    var hop := FirstItem(xff);
    var t := TrimSpace(hop);
    var k :| TrimmedAt(hop, k, t);
    forall i | 0 <= i < |t|
      ensures t[i] != ','
    {
      assert t[i] == hop[k + i] && hop[k + i] in hop;
    }
  }

  /** Once a source is set, the later ones are never consulted: changing them leaves the
      result alone. */
  lemma EarlierSourceWins(r: Request, r': Request, hostOf: string -> Option<string>)
    requires HeaderGet(r, HdrCfConnectingIp) == HeaderGet(r', HdrCfConnectingIp)
    requires HeaderGet(r, HdrCfConnectingIp) != ""
      || (HeaderGet(r, HdrXRealIP) != "" && HeaderGet(r, HdrXRealIP) == HeaderGet(r', HdrXRealIP))
    ensures ClientIP(Some(r), hostOf) == ClientIP(Some(r'), hostOf)
  {
  }

  /** The header keys are looked up in canonical form: X-Real-IP is read as X-Real-Ip. */
  lemma XRealIpLookup()
    ensures CanonicalKey(HdrXRealIP) == "X-Real-Ip"
  {
    var k := CanonicalKey(HdrXRealIP);
    assert k[8] == 'p';
    assert forall i | 0 <= i < |k| :: k[i] == "X-Real-Ip"[i];
  }

  /** Cf-Connecting-Ip and X-Forwarded-For are canonical already. */
  lemma OtherLookups()
    ensures CanonicalKey(HdrCfConnectingIp) == HdrCfConnectingIp
    ensures CanonicalKey(HdrXForwardedFor) == HdrXForwardedFor
  {
    var k := CanonicalKey(HdrCfConnectingIp);
    assert forall i | 0 <= i < |k| :: k[i] == HdrCfConnectingIp[i];
    var k' := CanonicalKey(HdrXForwardedFor);
    assert forall i | 0 <= i < |k'| :: k'[i] == HdrXForwardedFor[i];
  }
}
