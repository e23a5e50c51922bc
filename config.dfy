/**
 * The widget's configuration, read from the page's query string: the three
 * required identifiers, optional settings with their defaults, custom theme
 * colours, and the company helpers (logo URL and the table of known brands).
 */
module Config {
  import opened Wrappers
  import opened Text
  import opened HexColor

  /** A decoded query string: its name/value pairs in order. */
  type Query = seq<(string, string)>

  /** `params.get(name)`: the value of the first pair called `name`, or null. */
  function QueryGet(q: Query, name: string): (r: Option<string>)
    ensures r.None? <==> forall i :: 0 <= i < |q| ==> q[i].0 != name
    ensures r.Some? ==> exists i :: 0 <= i < |q| && q[i] == (name, r.value)
                                   && forall j :: 0 <= j < i ==> q[j].0 != name
  {
    if q == [] then None
    else if q[0].0 == name then
      assert q[0] == (name, q[0].1);
      Some(q[0].1)
    else
      var r := QueryGet(q[1..], name);
      if r.Some? then
        var i :| 0 <= i < |q[1..]| && q[1..][i] == (name, r.value)
                 && forall j :: 0 <= j < i ==> q[1..][j].0 != name;
        assert q[i + 1] == (name, r.value);
        r
      else r
  }

  /** `value || fallback` for a value that may be null: null and `""` are falsy. */
  function OrDefault(value: Option<string>, fallback: string): (r: string)
    ensures value.Some? && value.value != [] ==> r == value.value
    ensures value.None? || value.value == [] ==> r == fallback
  {
    if value.Some? && value.value != [] then value.value else fallback
  }

  predicate Present(value: Option<string>) {
    value.Some? && value.value != []
  }

  // ---- normalizeHex ----

  /** Six hexadecimal digits. */
  predicate SixHex(s: string) {
    |s| == 6 && AllHex(s)
  }

  /**
   * The capture group of `/^#?([0-9a-fA-F]{6})$/`: the optional `#` is tried
   * first, then the match without it.
   */
  function MatchHexDigits(s: string): Option<string> {
    if |s| >= 1 && s[0] == '#' && SixHex(s[1..]) then Some(s[1..])
    else if SixHex(s) then Some(s)
    else None
  }

  /**
   * `normalizeHex`: `#` and the six digits (case kept) when the trimmed value is six
   * hexadecimal digits after an optional `#`, else null.
   */
  function NormalizeHex(value: Option<string>): (r: Option<string>)
    ensures r.Some? <==> value.Some? && var t := Trim(value.value);
                           SixHex(t) || (|t| == 7 && t[0] == '#' && SixHex(t[1..]))
    ensures r.Some? ==> IsHexColor(r.value) && r.value[1..] == Trim(value.value)[|Trim(value.value)| - 6..]
  {
    if value.None? || value.value == [] then None
    else
      var hex := Trim(value.value);
      match MatchHexDigits(hex)
      case Some(digits) => Some("#" + digits)
      case None => None
  }

  /** A normalised colour is left as it is by a second normalisation. */
  lemma NormalizeHexIdempotent(value: Option<string>)
    ensures NormalizeHex(NormalizeHex(value)) == NormalizeHex(value)
  {
    var r := NormalizeHex(value);
    if r.Some? {
      var s := r.value;
      HexColorNoWhitespace(s);
      TrimNoWhitespace(s);
      assert MatchHexDigits(s) == Some(s[1..]);
      assert s == "#" + s[1..];
    }
  }

  lemma HexColorNoWhitespace(s: string)
    requires IsHexColor(s)
    ensures NoWhitespace(s)
  {
    forall i | 0 <= i < |s| ensures !IsWhitespace(s[i]) {
      if i > 0 {
        assert s[i] == s[1..][i - 1];
        assert IsHexDigit(s[i]);
      }
    }
  }

  // ---- the theme colours ----

  /** `Math.round(2.55 * 40)`, the amount `lightenHex(primary, 40)` adds to every channel. */
  const LightAmount: int := 102
  /** `Math.round(2.55 * 20)`, the amount `darkenHex(primary, 20)` takes from every channel. */
  const DarkAmount: int := 51

  /**
   * `customColors`: null without a valid primary colour; otherwise each missing colour
   * is derived from the primary one.
   */
  function CustomColors(primary: Option<string>, secondary: Option<string>,
                        light: Option<string>, dark: Option<string>): (p: Option<Palette>)
    requires primary.Some? ==> IsHexColor(primary.value)
    ensures p.Some? <==> primary.Some?
    ensures p.Some? ==> p.value.primary == primary.value
    ensures p.Some? && secondary.Some? ==> p.value.secondary == secondary.value
    ensures p.Some? && secondary.None? ==> p.value.secondary == primary.value
    ensures p.Some? && light.Some? ==> p.value.light == light.value
    ensures p.Some? && light.None? ==>
              IsLowerHexColor(p.value.light)
              && var c := Split24(ColorValue(primary.value));
                 Split24(ColorValue(p.value.light))
                   == Rgb(Clamp(c.r + LightAmount), Clamp(c.g + LightAmount), Clamp(c.b + LightAmount))
    ensures p.Some? && dark.Some? ==> p.value.dark == dark.value
    ensures p.Some? && dark.None? ==>
              IsLowerHexColor(p.value.dark)
              && var c := Split24(ColorValue(primary.value));
                 Split24(ColorValue(p.value.dark))
                   == Rgb(Clamp(c.r - DarkAmount), Clamp(c.g - DarkAmount), Clamp(c.b - DarkAmount))
  {
    match primary
    case None => None
    case Some(pc) =>
      Some(Palette(pc, secondary.GetOr(pc), light.GetOr(Lighten(pc, LightAmount)),
                   dark.GetOr(Darken(pc, DarkAmount))))
  }

  // ---- getOmnichannelConfig ----

  datatype OmnichannelConfig = OmnichannelConfig(
    orgId: Option<string>,
    orgUrl: Option<string>,
    widgetId: Option<string>,
    channelId: string,
    company: Option<string>,
    headerIcon: Option<string>,
    pauUrl: string,
    agentsUrl: Option<string>,
    customColors: Option<Palette>,
    isValid: bool)

  /** `getOmnichannelConfig` for the page's query string. */
  function GetOmnichannelConfig(q: Query): (c: OmnichannelConfig)
    ensures c.isValid <==> Present(QueryGet(q, "orgId")) && Present(QueryGet(q, "orgUrl"))
                            && Present(QueryGet(q, "widgetId"))
    ensures c.orgId == QueryGet(q, "orgId") && c.orgUrl == QueryGet(q, "orgUrl")
    ensures c.widgetId == QueryGet(q, "widgetId") && c.company == QueryGet(q, "company")
    ensures c.headerIcon == QueryGet(q, "headerIcon") && c.agentsUrl == QueryGet(q, "agentsUrl")
    ensures !Present(QueryGet(q, "channelId")) ==> c.channelId == "lcw"
    ensures Present(QueryGet(q, "channelId")) ==> c.channelId == QueryGet(q, "channelId").value
    ensures !Present(QueryGet(q, "pauUrl")) ==> c.pauUrl == ""
    ensures Present(QueryGet(q, "pauUrl")) ==> c.pauUrl == QueryGet(q, "pauUrl").value
    ensures c.customColors.Some? <==> NormalizeHex(QueryGet(q, "primaryColor")).Some?
    ensures c.customColors.Some? ==> IsHexColor(c.customColors.value.primary)
    ensures c.customColors == CustomColors(NormalizeHex(QueryGet(q, "primaryColor")),
                                           NormalizeHex(QueryGet(q, "secondaryColor")),
                                           NormalizeHex(QueryGet(q, "lightColor")),
                                           NormalizeHex(QueryGet(q, "darkColor")))
  {
    var primary := NormalizeHex(QueryGet(q, "primaryColor"));
    OmnichannelConfig(
      QueryGet(q, "orgId"),
      QueryGet(q, "orgUrl"),
      QueryGet(q, "widgetId"),
      OrDefault(QueryGet(q, "channelId"), "lcw"),
      QueryGet(q, "company"),
      QueryGet(q, "headerIcon"),
      OrDefault(QueryGet(q, "pauUrl"), ""),
      QueryGet(q, "agentsUrl"),
      CustomColors(primary, NormalizeHex(QueryGet(q, "secondaryColor")),
                   NormalizeHex(QueryGet(q, "lightColor")), NormalizeHex(QueryGet(q, "darkColor"))),
      Present(QueryGet(q, "orgId")) && Present(QueryGet(q, "orgUrl")) && Present(QueryGet(q, "widgetId")))
  }

  // ---- the company helpers ----

  /** `replace(/^https?:\/\//, '')` */
  function StripScheme(s: string): (r: string)
    ensures StartsWith(s, "https://") ==> s == "https://" + r
    ensures !StartsWith(s, "https://") && StartsWith(s, "http://") ==> s == "http://" + r
    ensures !StartsWith(s, "https://") && !StartsWith(s, "http://") ==> r == s
  {
    if StartsWith(s, "https://") then s[8..]
    else if StartsWith(s, "http://") then s[7..]
    else s
  }

  /**
   * The domain both company helpers compute: scheme and `www.` dropped, then
   * everything from the first `/` and then from the first `?` cut off.
   */
  function CleanDomain(company: string): (d: string)
    ensures '/' !in d && '?' !in d
  {
    var noScheme := StripScheme(company);
    var noWww := StripPrefix(noScheme, "www.");
    var host := Split(noWww, '/')[0];
    var noQuery := Split(host, '?')[0];
    assert forall i :: 0 <= i < |noQuery| ==> noQuery[i] in host by {
      SplitFirst(host, '?');
    }
    StripSuffix(noQuery, "/")
  }

  /** Splitting after a piece free of `c` keeps that piece at the front of the first part. */
  lemma {:induction false} SplitPrefixFree(d: string, c: char, rest: string)
    requires c !in d
    ensures Split(d + rest, c)[0] == d + Split(rest, c)[0]
  {
    if d != [] {
      assert (d + rest)[1..] == d[1..] + rest;
      SplitPrefixFree(d[1..], c, rest);
      assert d == [d[0]] + d[1..];
    } else {
      assert d + rest == rest;
    }
  }

  /** The first part of a split of a string that starts with `c`, or is empty, is empty. */
  lemma SplitAtSeparator(rest: string, c: char)
    requires rest == [] || rest[0] == c
    ensures Split(rest, c)[0] == []
  {
  }

  /** A string that does not start with `c` keeps its first character in the first part. */
  lemma SplitKeepsHead(rest: string, c: char)
    requires rest != [] && rest[0] != c
    ensures Split(rest, c)[0] != [] && Split(rest, c)[0][0] == rest[0]
  {
  }

  /** A string whose first part (before any `/`) contains a `.` has no `http://` or `https://` scheme. */
  lemma NoSchemeBeforeDot(domain: string, rest: string)
    requires '/' !in domain && '.' in domain
    ensures StripScheme(domain + rest) == domain + rest
  {
    var t := domain + rest;
    var i :| 0 <= i < |domain| && domain[i] == '.';
    if |t| >= 7 {
      var j := if i < 5 then i else 5;
      assert t[j] == domain[j];
      assert t[j] != "http://"[j];
      assert t[..7] != "http://";
    }
    if |t| >= 8 {
      var j := if i < 6 then i else 6;
      assert t[j] == domain[j];
      assert t[j] != "https://"[j];
      assert t[..8] != "https://";
    }
  }

  /** A string whose first part contains a `.` does not start with `www.` unless that part does. */
  lemma NoWwwBeforeDot(domain: string, rest: string)
    requires '.' in domain && !StartsWith(domain, "www.")
    ensures StripPrefix(domain + rest, "www.") == domain + rest
  {
    var t := domain + rest;
    if |t| >= 4 {
      if |domain| >= 4 {
        assert t[..4] == domain[..4];
      } else {
        var i :| 0 <= i < |domain| && domain[i] == '.';
        assert t[i] == '.' && "www."[i] == 'w';
        assert t[..4] != "www.";
      }
    }
  }

  /** Dropping a scheme that is followed by a string without one. */
  lemma StripSchemeOf(scheme: string, t: string)
    requires scheme == "" || scheme == "http://" || scheme == "https://"
    requires StripScheme(t) == t
    ensures StripScheme(scheme + t) == t
  {
    if scheme == "http://" {
      assert (scheme + t)[4] == ':';
      assert (scheme + t)[..7] == "http://";
    } else if scheme == "https://" {
      assert (scheme + t)[..8] == "https://";
    } else {
      assert scheme + t == t;
    }
  }

  /** The host part after the scheme carries no scheme of its own. */
  lemma NoSchemeInHost(www: bool, domain: string, rest: string)
    requires '/' !in domain && '.' in domain
    ensures var t := (if www then "www." else "") + domain + rest; StripScheme(t) == t
  {
    if www {
      assert "www." + domain + rest == ("www." + domain) + rest;
      assert '.' in "www." + domain by { assert ("www." + domain)[3] == '.'; }
      NoSchemeBeforeDot("www." + domain, rest);
    } else {
      assert "" + domain + rest == domain + rest;
      NoSchemeBeforeDot(domain, rest);
    }
  }

  /** Dropping `www.` once. */
  lemma StripWwwOf(www: bool, domain: string, rest: string)
    requires '.' in domain
    requires !www ==> !StartsWith(domain, "www.")
    ensures StripPrefix((if www then "www." else "") + domain + rest, "www.") == domain + rest
  {
    if www {
      assert "www." + domain + rest == "www." + (domain + rest);
    } else {
      assert "" + domain + rest == domain + rest;
      NoWwwBeforeDot(domain, rest);
    }
  }

  /**
   * A URL `scheme [www.] domain rest`, where the domain has a `.` and `rest` is empty
   * or starts a path or a query, cleans to `domain`.
   */
  lemma CleanDomainOfUrl(scheme: string, www: bool, domain: string, rest: string)
    requires scheme == "" || scheme == "http://" || scheme == "https://"
    requires '/' !in domain && '?' !in domain && '.' in domain
    requires !www ==> !StartsWith(domain, "www.")
    requires rest == [] || rest[0] == '/' || rest[0] == '?'
    ensures CleanDomain(scheme + (if www then "www." else "") + domain + rest) == domain
  {
    var t := (if www then "www." else "") + domain + rest;
    assert scheme + (if www then "www." else "") + domain + rest == scheme + t;
    NoSchemeInHost(www, domain, rest);
    StripSchemeOf(scheme, t);
    StripWwwOf(www, domain, rest);
    SplitHost(domain, rest);
  }

  /** Cutting `domain rest` at the first `/`, then at the first `?`, and dropping a final `/` gives `domain`. */
  lemma SplitHost(domain: string, rest: string)
    requires '/' !in domain && '?' !in domain
    requires rest == [] || rest[0] == '/' || rest[0] == '?'
    ensures StripSuffix(Split(Split(domain + rest, '/')[0], '?')[0], "/") == domain
  {
    SplitPrefixFree(domain, '/', rest);
    var r0 := Split(rest, '/')[0];
    if rest == [] || rest[0] == '/' {
      SplitAtSeparator(rest, '/');
      assert domain + r0 == domain + [];
    } else {
      SplitKeepsHead(rest, '/');
    }
    SplitPrefixFree(domain, '?', r0);
    SplitAtSeparator(r0, '?');
    assert domain + [] == domain;
    if |domain| >= 1 {
      assert domain[|domain| - 1..] != "/" by {
        assert domain[|domain| - 1..][0] == domain[|domain| - 1];
      }
    }
  }

  /** A bare host name without scheme, `www.`, path or query cleans to itself. */
  lemma CleanDomainOfHost(host: string)
    requires '/' !in host && '?' !in host && !StartsWith(host, "www.")
    ensures CleanDomain(host) == host
  {
    assert StripScheme(host) == host by {
      if |host| >= 7 {
        assert host[5] != "http://"[5];
        assert host[..7] != "http://";
      }
      if |host| >= 8 {
        assert host[6] != "https://"[6];
        assert host[..8] != "https://";
      }
    }
    SplitHost(host, []);
    assert host + [] == host;
  }

  const BundledLogo: string := "/src/assets/ai.png"

  /** `getCompanyLogoUrl`: the logo service URL for a plausible domain, else the bundled image. */
  function GetCompanyLogoUrl(company: Option<string>): (url: string)
    ensures company.None? || company.value == [] ==> url == BundledLogo
    ensures company.Some? && company.value != [] ==>
              var d := CleanDomain(company.value);
              if '.' !in d || JsLength(d) < 4 then url == BundledLogo
              else url == "https://img.logo.dev/" + d + "?token=YOUR_LOGO_DEV_TOKEN&fallback_url=placeholder"
  {
    if company.None? || company.value == [] then BundledLogo
    else
      var d := CleanDomain(company.value);
      IncludesChar(d, '.');
      if !Includes(d, ".") || JsLength(d) < 4 then BundledLogo
      else "https://img.logo.dev/" + d + "?token=YOUR_LOGO_DEV_TOKEN&fallback_url=placeholder"
  }

  lemma IncludesChar(s: string, c: char)
    ensures Includes(s, [c]) <==> c in s
  {
    IncludesMeans(s, [c]);
    if Includes(s, [c]) {
      var i :| OccursAt(s, [c], i);
      assert s[i] == s[i..i + 1][0];
    }
    if c in s {
      var i :| 0 <= i < |s| && s[i] == c;
      assert OccursAt(s, [c], i);
    }
  }

  /** The table of known brands, keyed by cleaned domain. */
  const NabPalette: Palette := Palette("#E10A0A", "#C00808", "#FFE5E5", "#A00606")
  const CbaPalette: Palette := Palette("#FFCC00", "#000000", "#FFF9E0", "#CCA300")
  const AnzPalette: Palette := Palette("#007DBB", "#005A87", "#E0F2FA", "#004A6D")
  const WestpacPalette: Palette := Palette("#DA1710", "#A51108", "#FFE8E6", "#7D0D06")

  const BrandTable: map<string, Palette> := map[
    "nab.com.au" := NabPalette,
    "cba.com.au" := CbaPalette,
    "anz.com" := AnzPalette,
    "westpac.com.au" := WestpacPalette
  ]

  predicate PaletteIsHex(p: Palette) {
    IsHexColor(p.primary) && IsHexColor(p.secondary) && IsHexColor(p.light) && IsHexColor(p.dark)
  }

  /** Every brand colour is a `#rrggbb` string. */
  lemma BrandTableWellFormed()
    ensures forall k :: k in BrandTable ==>
              IsHexColor(BrandTable[k].primary) && IsHexColor(BrandTable[k].secondary)
              && IsHexColor(BrandTable[k].light) && IsHexColor(BrandTable[k].dark)
  {
    forall k | k in BrandTable
      ensures IsHexColor(BrandTable[k].primary) && IsHexColor(BrandTable[k].secondary)
              && IsHexColor(BrandTable[k].light) && IsHexColor(BrandTable[k].dark)
    {
      HexColorsOf(BrandTable[k]);
    }
  }

  lemma HexColorsOf(p: Palette)
    requires p in BrandTable.Values
    ensures IsHexColor(p.primary) && IsHexColor(p.secondary) && IsHexColor(p.light) && IsHexColor(p.dark)
  {
    var k :| k in BrandTable && BrandTable[k] == p;
    if k == "nab.com.au" {
      NabIsHex();
    } else if k == "cba.com.au" {
      CbaIsHex();
    } else if k == "anz.com" {
      AnzIsHex();
    } else {
      WestpacIsHex();
    }
  }

  lemma NabIsHex()
    ensures PaletteIsHex(NabPalette)
  {
    HexColorOfDigits(NabPalette.primary);
    HexColorOfDigits(NabPalette.secondary);
    HexColorOfDigits(NabPalette.light);
    HexColorOfDigits(NabPalette.dark);
  }

  lemma CbaIsHex()
    ensures PaletteIsHex(CbaPalette)
  {
    HexColorOfDigits(CbaPalette.primary);
    HexColorOfDigits(CbaPalette.secondary);
    HexColorOfDigits(CbaPalette.light);
    HexColorOfDigits(CbaPalette.dark);
  }

  lemma AnzIsHex()
    ensures PaletteIsHex(AnzPalette)
  {
    HexColorOfDigits(AnzPalette.primary);
    HexColorOfDigits(AnzPalette.secondary);
    HexColorOfDigits(AnzPalette.light);
    HexColorOfDigits(AnzPalette.dark);
  }

  lemma WestpacIsHex()
    ensures PaletteIsHex(WestpacPalette)
  {
    HexColorOfDigits(WestpacPalette.primary);
    HexColorOfDigits(WestpacPalette.secondary);
    HexColorOfDigits(WestpacPalette.light);
    HexColorOfDigits(WestpacPalette.dark);
  }

  /** Every key of the brand table is a host name with a `.` and no scheme, `www.`, path or query. */
  lemma BrandKeysAreHosts()
    ensures forall k :: k in BrandTable ==>
              '/' !in k && '?' !in k && '.' in k && !StartsWith(k, "www.")
  {
    forall k | k in BrandTable
      ensures '/' !in k && '?' !in k && '.' in k && !StartsWith(k, "www.")
    {
      assert k[3] == '.' || k[7] == '.';
      assert k[..4] != "www." by { assert k[1] != 'w'; }
    }
  }

  /**
   * The names every plain object inherits from `Object.prototype`; indexing the
   * brand table with one of them yields that member, which is truthy.
   */
  const PrototypeMembers: set<string> := {
    "constructor", "__proto__", "hasOwnProperty", "isPrototypeOf", "propertyIsEnumerable",
    "toLocaleString", "toString", "valueOf", "__defineGetter__", "__defineSetter__",
    "__lookupGetter__", "__lookupSetter__"
  }

  /** What `brandColors[baseUrl]` can evaluate to. */
  datatype BrandValue = Entry(palette: Palette) | InheritedMember(name: string)

  /** `getBrandColors` as written: a bracket lookup on a plain object literal. */
  function GetBrandColorsAsWritten(company: Option<string>): (r: Option<BrandValue>)
    ensures r.Some? <==> company.Some? && company.value != []
                         && (CleanDomain(company.value) in BrandTable || CleanDomain(company.value) in PrototypeMembers)
  {
    if company.None? || company.value == [] then None
    else
      var d := CleanDomain(company.value);
      if d in BrandTable then Some(Entry(BrandTable[d]))
      else if d in PrototypeMembers then Some(InheritedMember(d))
      else None
  }

  /**
   * A company named after an inherited member, and shaped like a bare host without a `.`,
   * gets that member instead of null.
   */
  lemma InheritedMemberLookup(name: string)
    requires name in PrototypeMembers && name != []
    requires '.' !in name && '/' !in name && '?' !in name && !StartsWith(name, "www.")
    ensures GetBrandColorsAsWritten(Some(name)) == Some(InheritedMember(name))
  {
    CleanDomainOfHost(name);
    BrandKeysAreHosts();
  }

  /** A company called `constructor` gets the inherited constructor function, not null. */
  lemma BrandLookupReturnsInheritedMember()
    ensures GetBrandColorsAsWritten(Some("constructor")) == Some(InheritedMember("constructor"))
  {
    var s := "constructor";
    assert s[0] == 'c';
    assert !StartsWith(s, "www.");
    assert '.' !in s && '/' !in s && '?' !in s;
    InheritedMemberLookup(s);
  }

  /** `getBrandColors` as intended: the brand table's own entry for the cleaned domain, else null. */
  function GetBrandColors(company: Option<string>): (r: Option<Palette>)
    ensures r.Some? <==> company.Some? && company.value != [] && CleanDomain(company.value) in BrandTable
    ensures r.Some? ==> r.value == BrandTable[CleanDomain(company.value)]
  {
    if company.None? || company.value == [] then None
    else
      var d := CleanDomain(company.value);
      if d in BrandTable then Some(BrandTable[d]) else None
  }

  /** The two lookups agree on every company that is not named after an inherited member. */
  lemma BrandLookupsAgree(company: Option<string>)
    requires company.Some? && company.value != [] ==> CleanDomain(company.value) !in PrototypeMembers
    ensures GetBrandColorsAsWritten(company) == (match GetBrandColors(company)
                                                  case None => None
                                                  case Some(p) => Some(Entry(p)))
  {
  }

  /** A brand's site, with or without scheme, `www.` and path, finds its colours. */
  lemma BrandOfUrl(scheme: string, www: bool, domain: string, rest: string)
    requires scheme == "" || scheme == "http://" || scheme == "https://"
    requires domain in BrandTable
    requires rest == [] || rest[0] == '/' || rest[0] == '?'
    ensures GetBrandColors(Some(scheme + (if www then "www." else "") + domain + rest)) == Some(BrandTable[domain])
  {
    BrandKeysAreHosts();
    CleanDomainOfUrl(scheme, www, domain, rest);
  }
}
