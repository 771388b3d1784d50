/**
 * The request gate at the repository root (`middleware.ts`): for an admin
 * path it parses the configured IP allowlist, works out the caller's IP and
 * either rewrites the request to the access-denied page or hands it to the
 * session-refresh step; every other path goes straight to the session-refresh
 * step.
 *
 * The types and the IP clean-up shared with the variant under `src/` live
 * here too.
 */
module AdminGate {
  import opened Wrappers
  import opened JsString

  /** What the gate reads from a request. */
  datatype Request = Request(
    pathname: string,
    /** The connection-level address (`request.ip`), when the platform provides one. */
    connectionIp: Option<string>,
    /** The `x-forwarded-for` header, when present. */
    forwardedFor: Option<string>)

  /**
   * What a gate answers. `Session` is whatever the session-refresh step
   * (`updateSession(request)`) answers; `Next` passes the request on;
   * `Rewrite` serves another page under the URL the caller asked for.
   */
  datatype Outcome = Next | Session | Rewrite(pathname: string)

  const AdminPrefix: string := "/admin"
  const DeniedPath: string := "/access-denied"
  const Loopback4: string := "127.0.0.1"
  const Loopback6: string := "::1"

  /** Gated paths: a plain string prefix test, so `/administrator` is gated too. */
  predicate IsAdminPath(pathname: string) {
    StartsWith(pathname, AdminPrefix)
  }

  /** `process.env.ADMIN_ALLOWED_IP || ''`. */
  function ConfigText(config: Option<string>): string {
    config.GetOr("")
  }

  /** `.map(ip => ip.trim())`. */
  function TrimAll(entries: seq<string>): (r: seq<string>)
    ensures |r| == |entries|
    ensures forall k :: 0 <= k < |entries| ==> r[k] == Trim(entries[k])
  {
    if entries == [] then [] else [Trim(entries[0])] + TrimAll(entries[1..])
  }

  /** `.filter(Boolean)` on strings: drops the empty ones and keeps the order of the rest (`DropEmptyAppend`). */
  function DropEmpty(entries: seq<string>): (r: seq<string>)
    ensures |r| <= |entries|
    ensures forall e :: e in r <==> e in entries && e != ""
    ensures r == [] <==> forall k :: 0 <= k < |entries| ==> entries[k] == ""
  {
    if entries == [] then []
    else if entries[0] == "" then DropEmpty(entries[1..])
    else [entries[0]] + DropEmpty(entries[1..])
  }

  /** The filter works piece by piece: the kept entries of `a + b` are those of `a` followed by those of `b`. */
  lemma {:induction false} DropEmptyAppend(a: seq<string>, b: seq<string>)
    ensures DropEmpty(a + b) == DropEmpty(a) + DropEmpty(b)
    ensures DropEmpty([]) == [] && forall e :: DropEmpty([e]) == (if e == "" then [] else [e])
  {
    if a == [] {
      assert a + b == b;
    } else {
      assert (a + b)[0] == a[0] && (a + b)[1..] == a[1..] + b;
      DropEmptyAppend(a[1..], b);
    }
    forall e ensures DropEmpty([e]) == (if e == "" then [] else [e]) {
      assert [e][1..] == [];
    }
  }

  /** The allowlist of the root gate: split on `,`, each entry trimmed, empty entries dropped. */
  function Allowlist(config: Option<string>): (r: seq<string>)
    ensures forall e :: e in r <==> e != "" && e in TrimAll(SplitOn(ConfigText(config), ','))
    ensures forall e :: e in r ==> ',' !in e && Trim(e) == e
  {
    var pieces := SplitOn(ConfigText(config), ',');
    var r := DropEmpty(TrimAll(pieces));
    assert forall e :: e in r ==> ',' !in e && Trim(e) == e by {
      forall e | e in r ensures ',' !in e && Trim(e) == e {
        var k :| 0 <= k < |pieces| && e == Trim(pieces[k]);
        TrimIdempotent(pieces[k]);
        TrimSub(pieces[k], ',');
      }
    }
    r
  }

  /** A character a string does not hold is not in its trim. */
  lemma TrimSub(s: string, c: char)
    requires c !in s
    ensures c !in Trim(s)
  {
    var r := Trim(s);
    var i :| 0 <= i <= |s| - |r| && s[i..i + |r|] == r && AllWhitespace(s[..i]) && AllWhitespace(s[i + |r|..]);
    forall k | 0 <= k < |r| ensures r[k] != c { assert r[k] == s[i + k]; }
  }

  /** The address each gate looks at first: `request.ip ?? request.headers.get('x-forwarded-for')`. */
  function IpSource(req: Request): Option<string> {
    if req.connectionIp.Some? then req.connectionIp else req.forwardedFor
  }

  /**
   * The first entry of a list-valued address: cut at the first `' , '` when
   * the text holds one, otherwise at the first `','`, otherwise the text as
   * it is.
   */
  function FirstListEntry(raw: string): string {
    if Includes(raw, " , ") then SplitFirst(raw, " , ")
    else if Includes(raw, ",") then SplitFirst(raw, ",")
    else raw
  }

  /** IPv6 loopback is compared as IPv4 loopback. */
  function NormaliseLoopback(ip: string): (r: string)
    ensures ip == Loopback6 ==> r == Loopback4
    ensures ip != Loopback6 ==> r == ip
  {
    if ip == Loopback6 then Loopback4 else ip
  }

  /** First entry, trimmed, loopback normalised. */
  function CleanIp(raw: string): string {
    NormaliseLoopback(Trim(FirstListEntry(raw)))
  }

  /** JavaScript truthiness of a `string | null`. */
  predicate Truthy(ip: Option<string>) {
    ip.Some? && ip.value != ""
  }

  /**
   * The root gate's caller IP: no default when neither source is present,
   * and an empty text is left as it is (it stays falsy).
   */
  function ClientIp(req: Request): (ip: Option<string>)
    ensures IpSource(req).None? ==> ip.None?
    ensures Truthy(IpSource(req)) ==> ip == Some(CleanIp(IpSource(req).value))
    ensures !Truthy(IpSource(req)) ==> ip == IpSource(req)
  {
    var raw := IpSource(req);
    if Truthy(raw) then Some(CleanIp(raw.value)) else raw
  }

  /** `middleware.ts`. */
  function Middleware(req: Request, config: Option<string>): (r: Outcome)
    ensures r == Session || r == Rewrite(DeniedPath)
    ensures !IsAdminPath(req.pathname) ==> r == Session
    ensures IsAdminPath(req.pathname) && Allowlist(config) == [] ==> r == Session
    ensures IsAdminPath(req.pathname) && Allowlist(config) != [] ==>
              (r == Session <==> Truthy(ClientIp(req)) && ClientIp(req).value in Allowlist(config))
  {
    if IsAdminPath(req.pathname) then
      var allowed := Allowlist(config);
      if |allowed| > 0 then
        var ip := ClientIp(req);
        if !Truthy(ip) || ip.value !in allowed then Rewrite(DeniedPath) else Session
      else Session
    else Session
  }

  // ---------------------------------------------------------------------
  // Properties
  // ---------------------------------------------------------------------

  /** `/administrator` falls under the admin prefix. */
  lemma AdministratorIsGated()
    ensures IsAdminPath("/administrator")
    ensures !IsAdminPath("/menu")
  {
    assert "/administrator"[..6] == AdminPrefix;
  }

  /**
   * An entry of the configured list is allowed exactly when it is not blank:
   * `config` is read back as the pieces it was joined from, each trimmed.
   */
  lemma {:induction false} AllowlistOfJoined(entries: seq<string>, e: string)
    requires |entries| > 0
    requires forall k :: 0 <= k < |entries| ==> ',' !in entries[k]
    ensures e in Allowlist(Some(Join(entries, ','))) <==>
              e != "" && exists k :: 0 <= k < |entries| && e == Trim(entries[k])
  {
    SplitJoin(entries, ',');
  }

  /** An unset configuration, or one holding only separators and blanks, restricts nothing. */
  lemma BlankConfigRestrictsNothing(req: Request, config: Option<string>)
    requires forall k :: 0 <= k < |ConfigText(config)| ==>
               ConfigText(config)[k] == ',' || IsJsWhitespace(ConfigText(config)[k])
    ensures Allowlist(config) == []
    ensures Middleware(req, config) == Session
  {
    var text := ConfigText(config);
    var pieces := SplitOn(text, ',');
    forall k | 0 <= k < |pieces| ensures Trim(pieces[k]) == "" {
      AllBlankPieces(text, k);
    }
  }

  /** Every piece of a text made of commas and whitespace is whitespace only. */
  lemma AllBlankPieces(text: string, k: nat)
    requires forall i :: 0 <= i < |text| ==> text[i] == ',' || IsJsWhitespace(text[i])
    requires k < |SplitOn(text, ',')|
    ensures AllWhitespace(SplitOn(text, ',')[k])
  {
    var pieces := SplitOn(text, ',');
    PieceCharsInJoin(pieces, ',', k);
    var p := pieces[k];
    forall j | 0 <= j < |p| ensures IsJsWhitespace(p[j]) {
      assert p[j] in text;
      assert p[j] != ',';
    }
  }

  /** Every character of a piece of a joined list is a character of the joined text. */
  lemma {:induction false} PieceCharsInJoin(pieces: seq<string>, c: char, k: nat)
    requires k < |pieces|
    ensures forall ch :: ch in pieces[k] ==> ch in Join(pieces, c)
    decreases |pieces|
  {
    if |pieces| > 1 {
      var rest := Join(pieces[1..], c);
      assert Join(pieces, c) == pieces[0] + [c] + rest;
      if k > 0 {
        PieceCharsInJoin(pieces[1..], c, k - 1);
        assert pieces[1..][k - 1] == pieces[k];
      }
    }
  }

  /** The connection address wins over the header whenever it is present. */
  lemma ConnectionIpFirst(req: Request, header: Option<string>)
    requires req.connectionIp.Some?
    ensures ClientIp(req) == ClientIp(req.(forwardedFor := header))
  {
  }

  /** Without a connection address or header there is no IP, and a restricted admin path is denied. */
  lemma MissingIpDenied(req: Request, config: Option<string>)
    requires IsAdminPath(req.pathname) && Allowlist(config) != []
    requires req.connectionIp.None? && req.forwardedFor.None?
    ensures ClientIp(req).None?
    ensures Middleware(req, config) == Rewrite(DeniedPath)
  {
  }

  /**
   * An address cut at `' , '`: the first entry is everything before it,
   * whatever follows, as long as no comma in it has a space just before it.
   */
  lemma SpacedListFirstEntry(first: string, rest: string)
    requires forall j :: 0 < j < |first| && first[j] == ',' ==> first[j - 1] != ' '
    ensures FirstListEntry(first + " , " + rest) == first
  {
    var raw := first + " , " + rest;
    assert raw[|first|..|first| + 3] == " , ";
    forall j | 0 <= j < |first| ensures !OccursAt(raw, " , ", j) {
      if j + 1 < |first| {
        assert raw[j] == first[j] && raw[j + 1] == first[j + 1];
      } else {
        assert raw[j + 1] == ' ';
      }
      assert j + 3 <= |raw| ==> raw[j..j + 3][0] == raw[j] && raw[j..j + 3][1] == raw[j + 1];
    }
    assert OccursAt(raw, " , ", |first|);
    var r := SplitFirst(raw, " , ");
    assert |r| == |first|;
    assert raw[..|first|] == first;
  }

  /**
   * An address cut at `','` with no `' , '` anywhere in it: the first entry
   * is everything before the first comma.
   */
  lemma CommaListFirstEntry(first: string, rest: string)
    requires ',' !in first && !Includes(first + "," + rest, " , ")
    ensures FirstListEntry(first + "," + rest) == first
  {
    var raw := first + "," + rest;
    assert raw[|first|..|first| + 1] == ",";
    forall j | 0 <= j < |first| ensures !OccursAt(raw, ",", j) {
      assert raw[j] == first[j];
      assert j + 1 <= |raw| ==> raw[j..j + 1][0] == raw[j];
    }
    assert OccursAt(raw, ",", |first|);
    var r := SplitFirst(raw, ",");
    assert |r| == |first|;
    assert raw[..|first|] == first;
  }

  /** Text without commas holds no `' , '`. */
  lemma NoCommaNoSpacedComma(s: string)
    requires ',' !in s
    ensures !Includes(s, " , ")
  {
    forall j | 0 <= j <= |s| ensures !OccursAt(s, " , ", j) {
      if j + 3 <= |s| { assert s[j..j + 3][1] == s[j + 1]; }
    }
  }

  /** Text without commas is its own first list entry. */
  lemma NoCommaFirstEntry(s: string)
    requires ',' !in s
    ensures FirstListEntry(s) == s
  {
    NoCommaNoSpacedComma(s);
    forall j | 0 <= j <= |s| ensures !OccursAt(s, ",", j) {
      if j + 1 <= |s| { assert s[j..j + 1][0] == s[j]; }
    }
  }

  /** IPv4 loopback comes out of the clean-up unchanged. */
  lemma LoopbackIsClean()
    ensures CleanIp(Loopback4) == Loopback4
  {
    NoCommaFirstEntry(Loopback4);
    TrimOfTrimmed(Loopback4);
  }

  /** `::1` is cleaned up to `127.0.0.1`. */
  lemma LoopbackSixIsCleaned()
    ensures CleanIp(Loopback6) == Loopback4
  {
    NoCommaFirstEntry(Loopback6);
    TrimOfTrimmed(Loopback6);
  }

  /** An admin request whose address is `::1` passes a root gate that lists `127.0.0.1`. */
  lemma LoopbackSixAllowed(req: Request, config: Option<string>)
    requires IsAdminPath(req.pathname) && IpSource(req) == Some(Loopback6)
    requires Loopback4 in Allowlist(config)
    ensures Middleware(req, config) == Session
  {
    LoopbackSixIsCleaned();
  }

  /** An admin request whose address is present but empty is denied by a restricted root gate. */
  lemma EmptyAddressDenied(req: Request, config: Option<string>)
    requires IsAdminPath(req.pathname) && IpSource(req) == Some("")
    requires Allowlist(config) != []
    ensures Middleware(req, config) == Rewrite(DeniedPath)
  {
  }

  /**
   * Joining an entry that neither holds a comma nor ends in a space to a
   * remainder free of `' , '` with `','` creates no `' , '`.
   */
  lemma CommaJoinNoSpacedComma(first: string, rest: string)
    requires ',' !in first && (first == "" || first[|first| - 1] != ' ')
    requires !Includes(rest, " , ")
    ensures !Includes(first + "," + rest, " , ")
  {
    var raw := first + "," + rest;
    forall j | 0 <= j <= |raw| ensures !OccursAt(raw, " , ", j) {
      if j + 3 <= |raw| {
        var w := raw[j..j + 3];
        assert w[0] == raw[j] && w[1] == raw[j + 1];
        if j + 1 < |first| {
          assert raw[j + 1] == first[j + 1];
        } else if j + 1 == |first| {
          assert raw[j] == first[|first| - 1];
        } else if j == |first| {
          assert raw[j] == ',';
        } else {
          var k := j - |first| - 1;
          assert w == rest[k..k + 3];
          assert !OccursAt(rest, " , ", k);
        }
      }
    }
  }

  /** `"198.51.100.9, 10.0.0.1"` is read as `"198.51.100.9"`. */
  lemma ForwardedListExample()
    ensures CleanIp("198.51.100.9, 10.0.0.1") == "198.51.100.9"
  {
    var first, rest := "198.51.100.9", " 10.0.0.1";
    assert "198.51.100.9, 10.0.0.1" == first + "," + rest;
    NoCommaNoSpacedComma(rest);
    CommaJoinNoSpacedComma(first, rest);
    CommaListFirstEntry(first, rest);
    TrimOfTrimmed(first);
  }

  /**
   * With the allowlist `"203.0.113.5"`, an admin request is handed to the
   * session step when its IP is that address and denied otherwise.
   */
  lemma SingleAddressAllowlist(req: Request)
    requires IsAdminPath(req.pathname)
    ensures Middleware(req, Some("203.0.113.5")) ==
              if ClientIp(req) == Some("203.0.113.5") then Session else Rewrite(DeniedPath)
  {
    var entry := "203.0.113.5";
    assert Join([entry], ',') == entry;
    SplitJoin([entry], ',');
    TrimOfTrimmed(entry);
    assert TrimAll([entry]) == [entry];
    assert Allowlist(Some(entry)) == [entry];
  }

  /**
   * A list that mixes `', '` and `' , '` is cut at the first `' , '` only,
   * so the address read from it still holds a comma.
   */
  lemma MixedSeparatorsKeepComma()
    ensures CleanIp("198.51.100.9, 10.0.0.1 , 10.0.0.2") == "198.51.100.9, 10.0.0.1"
  {
    var first := "198.51.100.9, 10.0.0.1";
    assert "198.51.100.9, 10.0.0.1 , 10.0.0.2" == first + " , " + "10.0.0.2";
    assert forall j :: 0 < j < |first| && first[j] == ',' ==> j == 12;
    SpacedListFirstEntry(first, "10.0.0.2");
    TrimOfTrimmed(first);
  }

  /** An address holding a comma matches no allowlist entry, so a restricted gate refuses it. */
  lemma CommaAddressDenied(req: Request, config: Option<string>)
    requires IsAdminPath(req.pathname) && Allowlist(config) != []
    requires ClientIp(req).Some? && ',' in ClientIp(req).value
    ensures Middleware(req, config) == Rewrite(DeniedPath)
  {
  }

  /**
   * A list whose part before the first `' , '` holds a comma (an ordinary
   * `', '`-separated list followed by a spaced one) is refused by every
   * restricted gate, whatever addresses it names.
   */
  lemma MixedSeparatorsDenied(req: Request, config: Option<string>, first: string, rest: string)
    requires IsAdminPath(req.pathname) && Allowlist(config) != []
    requires forall j :: 0 < j < |first| && first[j] == ',' ==> first[j - 1] != ' '
    requires ',' in first
    requires IpSource(req) == Some(first + " , " + rest)
    ensures Middleware(req, config) == Rewrite(DeniedPath)
  {
    var raw := first + " , " + rest;
    assert raw[|first|] == ' ';
    SpacedListFirstEntry(first, rest);
    TrimKeepsNonWhitespace(first, ',');
    assert ClientIp(req) == Some(CleanIp(raw));
    CommaAddressDenied(req, config);
  }
}
