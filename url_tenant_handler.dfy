/**
 * Tenant hostname resolution: turning a URL into the tenant-qualified
 * `protocol//host/` a connection should use. Both operations are pure; the
 * WHATWG URL parser and the browser's `location` are inputs.
 */
module UrlTenantHandler {
  import opened JsValues
  import Strings

  /** The separator between the labels of a host name. */
  const UrlPartsSeparator: char := '.'

  /**
   * The two parts of a parsed URL the handler reads: `protocol` (with its
   * trailing colon, as in "https:") and `host` (with its port, if any).
   */
  datatype ParsedUrl = ParsedUrl(protocol: string, host: string)

  /** `new URL(s)`: the parsed URL, or None where the constructor throws. */
  type UrlParser = string -> Option<ParsedUrl>

  /** The browser's current location, as far as the handler reads it. */
  datatype Location = Location(origin: string, hostname: string)

  /** The `protocol//host/` form every non-degraded result takes. */
  function Serialize(url: ParsedUrl): string {
    url.protocol + "//" + url.host + "/"
  }

  /** The host with the tenant label in front, unless it is already the first label. */
  function QualifiedHost(host: string, tenant: string): string {
    if Strings.FirstLabel(host, UrlPartsSeparator) != tenant then tenant + "." + host else host
  }

  /**
   * No tenant when the Blip domain URL contains the current origin as a
   * substring; otherwise the first label of the current hostname.
   */
  function GetTenantPrefixFromUrl(blipDomainUrl: string, location: Location): (tenant: Option<string>)
    ensures tenant.None? <==> Strings.Includes(blipDomainUrl, location.origin)
    ensures tenant.Some? ==>
      && tenant.value <= location.hostname
      && UrlPartsSeparator !in tenant.value
      && (|tenant.value| < |location.hostname| ==> location.hostname[|tenant.value|] == UrlPartsSeparator)
  {
    if Strings.Includes(blipDomainUrl, location.origin) then None
    else Some(Strings.FirstLabel(location.hostname, UrlPartsSeparator))
  }

  /** The tenant actually used: an explicit one (even "") wins over the derived one. */
  function EffectiveTenant(tenantId: Option<string>, blipDomainUrl: string, location: Location): Option<string> {
    Coalesce(tenantId, GetTenantPrefixFromUrl(blipDomainUrl, location))
  }

  /**
   * Resolve the URL a connection should use. With a (truthy) tenant, `url` is
   * parsed and its host qualified by the tenant; without one, `defaultUrl`
   * (which defaults to `url`) is parsed and normalised. A URL that does not
   * parse degrades to a plain string instead of throwing.
   */
  function AddTenantPrefixToUrl(
    url: string, tenantId: Option<string>, defaultUrl: Option<string>,
    blipDomainUrl: string, location: Location, parse: UrlParser): (r: string)
    ensures var tenant := EffectiveTenant(tenantId, blipDomainUrl, location);
      Truthy(tenant) && parse(url).Some? ==>
        r == Serialize(ParsedUrl(parse(url).value.protocol, QualifiedHost(parse(url).value.host, tenant.value)))
    ensures var tenant := EffectiveTenant(tenantId, blipDomainUrl, location);
      Truthy(tenant) && parse(url).None? ==> r == tenant.value + "." + url
    ensures var tenant := EffectiveTenant(tenantId, blipDomainUrl, location);
      !Truthy(tenant) ==> var fallback := defaultUrl.GetOr(url);
        r == if parse(fallback).Some? then Serialize(parse(fallback).value) else fallback
    ensures var tenant := EffectiveTenant(tenantId, blipDomainUrl, location);
      (if Truthy(tenant) then parse(url).Some? else parse(defaultUrl.GetOr(url)).Some?) ==>
        |r| > 0 && r[|r| - 1] == '/'
  {
    var tenant := EffectiveTenant(tenantId, blipDomainUrl, location);
    var fallback := defaultUrl.GetOr(url);
    if Truthy(tenant) then
      match parse(url)
      case Some(treatedUrl) =>
        if Strings.FirstLabel(treatedUrl.host, UrlPartsSeparator) != tenant.value then
          treatedUrl.protocol + "//" + tenant.value + "." + treatedUrl.host + "/"
        else
          treatedUrl.protocol + "//" + treatedUrl.host + "/"
      case None => tenant.value + "." + url
    else
      match parse(fallback)
      case Some(treatedDefaultUrl) => treatedDefaultUrl.protocol + "//" + treatedDefaultUrl.host + "/"
      case None => fallback
  }

  /**
   * A qualified host starts with the tenant as its first label, ends with the
   * original host, and equals it exactly when that already started with the tenant.
   */
  lemma QualifiedHostIsTenantQualified(host: string, tenant: string)
    requires UrlPartsSeparator !in tenant
    ensures Strings.FirstLabel(QualifiedHost(host, tenant), UrlPartsSeparator) == tenant
    ensures (QualifiedHost(host, tenant) == host) <==> (Strings.FirstLabel(host, UrlPartsSeparator) == tenant)
    ensures var q := QualifiedHost(host, tenant); |host| <= |q| && q[|q| - |host|..] == host
  {
    if Strings.FirstLabel(host, UrlPartsSeparator) != tenant {
      Strings.FirstLabelOfPrefixed(tenant, UrlPartsSeparator, host);
      assert tenant + "." + host == tenant + [UrlPartsSeparator] + host;
    }
  }

  /**
   * Resolving the output again with the same tenant changes nothing, provided
   * the tenant has no dot and the parser reads back the protocol and host it
   * was given in `protocol//host/` form.
   */
  lemma AddTenantPrefixIdempotent(
    url: string, tenant: string, defaultUrl: Option<string>,
    blipDomainUrl: string, location: Location, parse: UrlParser)
    requires tenant != "" && UrlPartsSeparator !in tenant
    requires parse(url).Some?
    requires var u := ParsedUrl(parse(url).value.protocol, QualifiedHost(parse(url).value.host, tenant));
      parse(Serialize(u)) == Some(u)
    ensures var r := AddTenantPrefixToUrl(url, Some(tenant), defaultUrl, blipDomainUrl, location, parse);
      AddTenantPrefixToUrl(r, Some(tenant), defaultUrl, blipDomainUrl, location, parse) == r
  {
    var u := parse(url).value;
    QualifiedHostIsTenantQualified(u.host, tenant);
    QualifiedHostIsTenantQualified(QualifiedHost(u.host, tenant), tenant);
  }

  /**
   * The idempotence above needs a dot-free tenant: a first label never
   * contains a dot, so a dotted tenant never matches it and is put in front
   * of every host, on every application.
   */
  lemma DottedTenantAlwaysPrefixes(host: string, tenant: string)
    requires UrlPartsSeparator in tenant
    ensures QualifiedHost(host, tenant) == tenant + "." + host
  {
  }

  /** For example, an explicit tenant "a.b" qualifies `https://c` twice over. */
  lemma DottedTenantIsPrefixedAgain(parse: UrlParser, location: Location)
    requires parse("https://c") == Some(ParsedUrl("https:", "c"))
    requires parse("https://a.b.c/") == Some(ParsedUrl("https:", "a.b.c"))
    ensures var r := AddTenantPrefixToUrl("https://c", Some("a.b"), None, "", location, parse);
      r == "https://a.b.c/" &&
      AddTenantPrefixToUrl(r, Some("a.b"), None, "", location, parse) == "https://a.b.a.b.c/"
  {
    DottedTenantFirstPass(parse, location);
    DottedTenantSecondPass(parse, location);
  }

  lemma DottedTenantFirstPass(parse: UrlParser, location: Location)
    requires parse("https://c") == Some(ParsedUrl("https:", "c"))
    ensures AddTenantPrefixToUrl("https://c", Some("a.b"), None, "", location, parse) == "https://a.b.c/"
  {
    DottedHosts();
    DottedSerialized();
  }

  lemma DottedTenantSecondPass(parse: UrlParser, location: Location)
    requires parse("https://a.b.c/") == Some(ParsedUrl("https:", "a.b.c"))
    ensures AddTenantPrefixToUrl("https://a.b.c/", Some("a.b"), None, "", location, parse) == "https://a.b.a.b.c/"
  {
    DottedHosts();
    DottedSerialized();
  }

  /** The hosts the dotted tenant produces: "c" is qualified once, and so is "a.b.c". */
  lemma DottedHosts()
    ensures QualifiedHost("c", "a.b") == "a.b.c"
    ensures QualifiedHost("a.b.c", "a.b") == "a.b.a.b.c"
  {
    Strings.FirstLabelUnique("c", UrlPartsSeparator, "c");
    assert "a.b" + "." + "c" == "a.b.c";
    assert "a.b.c" == "a" + [UrlPartsSeparator] + "b.c";
    Strings.FirstLabelOfPrefixed("a", UrlPartsSeparator, "b.c");
    assert "a.b" + "." + "a.b.c" == "a.b.a.b.c";
  }

  lemma DottedSerialized()
    ensures Serialize(ParsedUrl("https:", "a.b.c")) == "https://a.b.c/"
    ensures Serialize(ParsedUrl("https:", "a.b.a.b.c")) == "https://a.b.a.b.c/"
  {
    assert "https:" + "//" == "https://";
    assert "https://" + "a.b.c" == "https://a.b.c";
    assert "https://a.b.c" + "/" == "https://a.b.c/";
    assert "https://" + "a.b.a.b.c" == "https://a.b.a.b.c";
    assert "https://a.b.a.b.c" + "/" == "https://a.b.a.b.c/";
  }

  /**
   * An explicit tenant, even the empty string, stops the tenant from being
   * derived from the location, so the location no longer matters; an empty
   * one is falsy and takes the no-tenant branch.
   */
  lemma ExplicitTenantIgnoresLocation(
    url: string, tenant: string, defaultUrl: Option<string>,
    blipDomainUrl: string, location: Location, other: Location, parse: UrlParser)
    ensures AddTenantPrefixToUrl(url, Some(tenant), defaultUrl, blipDomainUrl, location, parse)
         == AddTenantPrefixToUrl(url, Some(tenant), defaultUrl, blipDomainUrl, other, parse)
    ensures tenant == "" ==>
      var fallback := defaultUrl.GetOr(url);
      AddTenantPrefixToUrl(url, Some(tenant), defaultUrl, blipDomainUrl, location, parse)
        == if parse(fallback).Some? then Serialize(parse(fallback).value) else fallback
  {
  }

  // The behaviours the repository's own tests exercise, with the parser
  // results a WHATWG parser gives for their inputs.

  /** How the tenant portal's URL is written out. */
  lemma SerializeTenantPortal()
    ensures Serialize(ParsedUrl("https:", "my-tenant.portal.blip.ai")) == "https://my-tenant.portal.blip.ai/"
  {
    assert "https:" + "//" == "https://";
    assert "https://" + "my-tenant.portal.blip.ai" == "https://my-tenant.portal.blip.ai";
    assert "https://my-tenant.portal.blip.ai" + "/" == "https://my-tenant.portal.blip.ai/";
  }

  /** The portal host gains the tenant label. */
  lemma PortalHostQualified()
    ensures QualifiedHost("portal.blip.ai", "my-tenant") == "my-tenant.portal.blip.ai"
  {
    assert "portal.blip.ai" == "portal" + [UrlPartsSeparator] + "blip.ai";
    Strings.FirstLabelOfPrefixed("portal", UrlPartsSeparator, "blip.ai");
    assert "my-tenant" + "." + "portal.blip.ai" == "my-tenant.portal.blip.ai";
  }

  /** How the portal's own URL is written out. */
  lemma SerializePortal()
    ensures Serialize(ParsedUrl("https:", "portal.blip.ai")) == "https://portal.blip.ai/"
  {
    assert "https:" + "//" == "https://";
    assert "https://" + "portal.blip.ai" == "https://portal.blip.ai";
    assert "https://portal.blip.ai" + "/" == "https://portal.blip.ai/";
  }

  /** A location on a tenant subdomain yields that tenant. */
  lemma TenantPrefixFromTenantLocation()
    ensures GetTenantPrefixFromUrl("https://portal.blip.ai",
      Location("https://my-tenant.portal.blip.ai", "my-tenant.portal.blip.ai")) == Some("my-tenant")
  {
    Strings.NotIncludesLonger("https://portal.blip.ai", "https://my-tenant.portal.blip.ai");
    Strings.FirstLabelUnique("my-tenant.portal.blip.ai", UrlPartsSeparator, "my-tenant");
  }

  /** An explicit tenant is put in front of the host, and a slash is added. */
  lemma TenantPrefixAdded(location: Location, parse: UrlParser)
    requires parse("https://portal.blip.ai") == Some(ParsedUrl("https:", "portal.blip.ai"))
    ensures AddTenantPrefixToUrl("https://portal.blip.ai", Some("my-tenant"), None,
      "https://portal.blip.ai", location, parse) == "https://my-tenant.portal.blip.ai/"
  {
    PortalHostQualified();
    var r := AddTenantPrefixToUrl("https://portal.blip.ai", Some("my-tenant"), None,
      "https://portal.blip.ai", location, parse);
    assert r == Serialize(ParsedUrl("https:", "my-tenant.portal.blip.ai"));
    SerializeTenantPortal();
  }

  /** A URL already on the tenant's host (derived from the location) is only normalised. */
  lemma TenantPrefixNotRepeated(parse: UrlParser)
    requires parse("https://my-tenant.portal.blip.ai") == Some(ParsedUrl("https:", "my-tenant.portal.blip.ai"))
    ensures AddTenantPrefixToUrl("https://my-tenant.portal.blip.ai", None, None, "https://portal.blip.ai",
      Location("https://my-tenant.portal.blip.ai", "my-tenant.portal.blip.ai"), parse)
      == "https://my-tenant.portal.blip.ai/"
  {
    TenantPrefixFromTenantLocation();
    Strings.FirstLabelUnique("my-tenant.portal.blip.ai", UrlPartsSeparator, "my-tenant");
    assert QualifiedHost("my-tenant.portal.blip.ai", "my-tenant") == "my-tenant.portal.blip.ai";
    SerializeTenantPortal();
  }

  /** A URL that does not parse degrades to `tenant.url`, without scheme or slash. */
  lemma UnparseableUrlWithTenant(location: Location, parse: UrlParser)
    requires parse("portal.blip.ai").None?
    ensures AddTenantPrefixToUrl("portal.blip.ai", Some("my-tenant"), None,
      "https://portal.blip.ai", location, parse) == "my-tenant.portal.blip.ai"
  {
  }

  /**
   * With the page on the Blip domain no tenant is derived: without an
   * explicit tenant the default URL is only normalised, or returned verbatim.
   */
  lemma BlipDomainHasNoTenant(url: string, defaultUrl: Option<string>,
    blipDomainUrl: string, location: Location, parse: UrlParser)
    requires Strings.Includes(blipDomainUrl, location.origin)
    ensures var fallback := defaultUrl.GetOr(url);
      AddTenantPrefixToUrl(url, None, defaultUrl, blipDomainUrl, location, parse)
        == if parse(fallback).Some? then Serialize(parse(fallback).value) else fallback
  {
  }

  /** With the location on the Blip domain there is no tenant and the URL is only normalised. */
  lemma NoTenantOnBlipDomain(parse: UrlParser)
    requires parse("https://portal.blip.ai") == Some(ParsedUrl("https:", "portal.blip.ai"))
    ensures AddTenantPrefixToUrl("https://portal.blip.ai", None, None, "https://portal.blip.ai",
      Location("https://portal.blip.ai", "portal.blip.ai"), parse) == "https://portal.blip.ai/"
  {
    Strings.IncludesItself("https://portal.blip.ai");
    BlipDomainHasNoTenant("https://portal.blip.ai", None, "https://portal.blip.ai",
      Location("https://portal.blip.ai", "portal.blip.ai"), parse);
    SerializePortal();
  }

  /** Without a tenant, an unparseable default URL is returned verbatim. */
  lemma UnparseableDefaultUrl(parse: UrlParser)
    requires parse("defaultUrl.blip.ai").None?
    ensures AddTenantPrefixToUrl("invalid.blip.ai", None, Some("defaultUrl.blip.ai"), "https://portal.blip.ai",
      Location("https://portal.blip.ai", "portal.blip.ai"), parse) == "defaultUrl.blip.ai"
  {
    Strings.IncludesItself("https://portal.blip.ai");
    BlipDomainHasNoTenant("invalid.blip.ai", Some("defaultUrl.blip.ai"), "https://portal.blip.ai",
      Location("https://portal.blip.ai", "portal.blip.ai"), parse);
  }
}
