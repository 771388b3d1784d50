/**
 * The request gate under `src/` (`src/middleware.ts`). It makes the same
 * decision as the root gate with different edges: the allowlist is trimmed
 * but not filtered, an unset list (a single empty entry) means no
 * restriction, a missing caller IP defaults to `127.0.0.1`, and what passes
 * goes straight on (`Next`) rather than to the session-refresh step.
 *
 * The second half relates the two gates: where they agree and three inputs
 * on which they do not.
 */
module AdminGateSrc {
  import opened Wrappers
  import opened JsString
  import opened AdminGate

  /** `(process.env.ADMIN_ALLOWED_IP || '').split(',').map(ip => ip.trim())`. */
  function UnfilteredAllowlist(config: Option<string>): (r: seq<string>)
    ensures |r| == |SplitOn(ConfigText(config), ',')|
    ensures forall k :: 0 <= k < |r| ==> r[k] == Trim(SplitOn(ConfigText(config), ',')[k])
  {
    TrimAll(SplitOn(ConfigText(config), ','))
  }

  /** `allowedIps.length === 0 || (allowedIps.length === 1 && allowedIps[0] === '')`. */
  predicate Unconfigured(allowed: seq<string>) {
    |allowed| == 0 || (|allowed| == 1 && allowed[0] == "")
  }

  /** The caller IP: `127.0.0.1` when neither source is present, then cleaned up like the root gate's. */
  function ClientIpOrLoopback(req: Request): (ip: string)
    ensures IpSource(req).None? ==> ip == Loopback4
    ensures IpSource(req).Some? ==> ip == CleanIp(IpSource(req).value)
    ensures ip != Loopback6
  {
    LoopbackIsClean();
    CleanIp(IpSource(req).GetOr(Loopback4))
  }

  /** `src/middleware.ts`. */
  function SrcMiddleware(req: Request, config: Option<string>): (r: Outcome)
    ensures r == Next || r == Rewrite(DeniedPath)
    ensures !IsAdminPath(req.pathname) ==> r == Next
    ensures IsAdminPath(req.pathname) && Unconfigured(UnfilteredAllowlist(config)) ==> r == Next
    ensures IsAdminPath(req.pathname) && !Unconfigured(UnfilteredAllowlist(config)) ==>
              (r == Next <==> ClientIpOrLoopback(req) in UnfilteredAllowlist(config))
  {
    if IsAdminPath(req.pathname) then
      var allowed := UnfilteredAllowlist(config);
      if Unconfigured(allowed) then Next
      else
        var ip := ClientIpOrLoopback(req);
        if ip !in allowed then Rewrite(DeniedPath) else Next
    else Next
  }

  // ---------------------------------------------------------------------
  // Properties of this gate
  // ---------------------------------------------------------------------

  /** An unset configuration, or one that is only whitespace, restricts nothing. */
  lemma BlankConfigAllows(req: Request, config: Option<string>)
    requires AllWhitespace(ConfigText(config))
    ensures SrcMiddleware(req, config) == Next
  {
    var text := ConfigText(config);
    assert ',' !in text by {
      forall k | 0 <= k < |text| ensures text[k] != ',' { assert IsJsWhitespace(text[k]); }
    }
    assert SplitOn(text, ',') == [text];
  }

  /** Both gates read the caller's address the same way whenever there is one. */
  lemma ClientIpsAgree(req: Request)
    requires IpSource(req).Some?
    ensures ClientIp(req) == Some(ClientIpOrLoopback(req))
  {
    assert FirstListEntry("") == "";
    TrimOfTrimmed("");
  }

  /**
   * An admin request whose address is `::1` passes both gates when the setting
   * lists `127.0.0.1`: each compares IPv6 loopback as IPv4 loopback.
   */
  lemma LoopbackSixAllowedByBoth(req: Request, config: Option<string>)
    requires IsAdminPath(req.pathname) && IpSource(req) == Some(Loopback6)
    requires Loopback4 in Allowlist(config)
    ensures Middleware(req, config) == Session
    ensures SrcMiddleware(req, config) == Next
  {
    LoopbackSixAllowed(req, config);
    LoopbackSixIsCleaned();
    var loose := UnfilteredAllowlist(config);
    assert Loopback4 in loose;
    assert !Unconfigured(loose) by {
      if |loose| == 1 { assert loose[0] == Loopback4; }
    }
  }

  // ---------------------------------------------------------------------
  // The two gates side by side
  // ---------------------------------------------------------------------

  /** The root gate's answer translated into this gate's terms. */
  function AsSrcOutcome(o: Outcome): Outcome {
    if o == Session then Next else o
  }

  /**
   * With a caller address present and no blank allowlist entry, the two
   * gates decide alike: the root gate hands to the session step exactly when
   * this one passes the request on, and otherwise both rewrite to the
   * access-denied page.
   */
  lemma GatesAgree(req: Request, config: Option<string>)
    requires IpSource(req).Some?
    requires forall k :: 0 <= k < |UnfilteredAllowlist(config)| ==> UnfilteredAllowlist(config)[k] != ""
    ensures SrcMiddleware(req, config) == AsSrcOutcome(Middleware(req, config))
  {
    var loose := UnfilteredAllowlist(config);
    DropEmptyKeepsNonEmpty(loose);
    assert Allowlist(config) == loose;
    ClientIpsAgree(req);
    assert loose[0] in loose;
  }

  lemma {:induction false} DropEmptyKeepsNonEmpty(entries: seq<string>)
    requires forall k :: 0 <= k < |entries| ==> entries[k] != ""
    ensures DropEmpty(entries) == entries
  {
    if entries != [] {
      assert forall k :: 0 <= k < |entries[1..]| ==> entries[1..][k] == entries[k + 1];
      DropEmptyKeepsNonEmpty(entries[1..]);
      assert entries == [entries[0]] + entries[1..];
    }
  }

  /**
   * A request without any address, to a list that names `127.0.0.1`: the
   * root gate denies it, this gate lets it through as loopback.
   */
  lemma MissingIpDiverges(req: Request, config: Option<string>)
    requires IsAdminPath(req.pathname) && IpSource(req).None?
    requires Loopback4 in Allowlist(config)
    ensures Middleware(req, config) == Rewrite(DeniedPath)
    ensures SrcMiddleware(req, config) == Next
  {
    var loose := UnfilteredAllowlist(config);
    assert Loopback4 in loose;
    assert !Unconfigured(loose) by {
      if |loose| == 1 { assert loose[0] == Loopback4; }
    }
  }

  /**
   * A list with a blank entry (a trailing comma, say) and an empty address:
   * the root gate treats the empty address as missing and denies, this gate
   * finds `""` in its list and lets the request through.
   */
  lemma BlankEntryDiverges(req: Request, config: Option<string>)
    requires IsAdminPath(req.pathname) && IpSource(req) == Some("")
    requires Allowlist(config) != [] && "" in UnfilteredAllowlist(config)
    ensures Middleware(req, config) == Rewrite(DeniedPath)
    ensures SrcMiddleware(req, config) == Next
  {
    ClientIpsAgree(req);
    var loose := UnfilteredAllowlist(config);
    var e := Allowlist(config)[0];
    assert e in Allowlist(config);
    assert e in loose && e != "";
    var i :| 0 <= i < |loose| && loose[i] == "";
    var j :| 0 <= j < |loose| && loose[j] == e;
    assert i != j;
  }

  /**
   * A list of commas and whitespace only: the root gate drops every entry and
   * restricts nothing, this gate keeps the blank entries and denies every
   * caller with a non-empty address.
   */
  lemma SeparatorOnlyConfigDiverges(req: Request, config: Option<string>)
    requires IsAdminPath(req.pathname)
    requires forall k :: 0 <= k < |ConfigText(config)| ==>
               ConfigText(config)[k] == ',' || IsJsWhitespace(ConfigText(config)[k])
    requires ',' in ConfigText(config)
    requires ClientIpOrLoopback(req) != ""
    ensures Middleware(req, config) == Session
    ensures SrcMiddleware(req, config) == Rewrite(DeniedPath)
  {
    BlankConfigRestrictsNothing(req, config);
    var text := ConfigText(config);
    var pieces := SplitOn(text, ',');
    assert |pieces| > 1;
    forall k | 0 <= k < |pieces| ensures Trim(pieces[k]) == "" {
      AllBlankPieces(text, k);
    }
  }
}
