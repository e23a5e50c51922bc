/**
 * The widget's pure helpers: the title-cased display name derived from the company,
 * the summary of a submitted adaptive card, the e-mail address check, the queue
 * information read from message text, the agent-name rules and the file checks
 * made before an upload.
 */
module AppText {
  import opened Wrappers
  import opened Text
  import opened Js
  import opened ChatSdk
  import Config

  predicate IsAsciiAlnum(c: char) {
    'a' <= c <= 'z' || 'A' <= c <= 'Z' || '0' <= c <= '9'
  }

  /** Nothing but ASCII letters, digits and spaces. */
  predicate Tidy(s: string) {
    forall i :: 0 <= i < |s| ==> IsAsciiAlnum(s[i]) || s[i] == ' '
  }

  // ---- toTitleCase ----

  /** What `[\s-_]` matches: white space, `-` and `_`. */
  predicate IsWordSeparator(c: char) {
    IsWhitespace(c) || c == '-' || c == '_'
  }

  predicate IsWord(w: string) {
    w != [] && forall i :: 0 <= i < |w| ==> !IsWordSeparator(w[i])
  }

  /** The length of the separator-free run at the start of `s`. */
  function WordLen(s: string): (k: nat)
    ensures k <= |s| && forall i :: 0 <= i < k ==> !IsWordSeparator(s[i])
    ensures k == |s| || IsWordSeparator(s[k])
  {
    if s == [] || IsWordSeparator(s[0]) then 0 else 1 + WordLen(s[1..])
  }

  /**
   * `s.split(/[\s-_]+/).filter(Boolean)`: cutting at every run of separators and
   * dropping the empty pieces leaves the maximal separator-free runs, in order.
   */
  function Words(s: string): (ws: seq<string>)
    ensures forall k :: 0 <= k < |ws| ==> IsWord(ws[k])
    decreases |s|
  {
    if s == [] then []
    else if IsWordSeparator(s[0]) then Words(s[1..])
    else
      var k := WordLen(s);
      [s[..k]] + Words(s[k..])
  }

  /** Every character of every word comes from the string. */
  lemma {:induction false} WordsChars(s: string)
    ensures forall k, i :: 0 <= k < |Words(s)| && 0 <= i < |Words(s)[k]| ==> Words(s)[k][i] in s
    decreases |s|
  {
    if s == [] {
    } else if IsWordSeparator(s[0]) {
      WordsChars(s[1..]);
      assert forall c :: c in s[1..] ==> c in s;
    } else {
      var k := WordLen(s);
      WordsChars(s[k..]);
      assert forall c :: c in s[k..] ==> c in s;
      assert forall c :: c in s[..k] ==> c in s;
      assert Words(s) == [s[..k]] + Words(s[k..]);
    }
  }

  /** A word followed by a separator or by nothing is the first word. */
  lemma WordsCons(w: string, t: string)
    requires IsWord(w)
    requires t == [] || IsWordSeparator(t[0])
    ensures Words(w + t) == [w] + Words(t)
  {
    WordLenOf(w, t);
    var s := w + t;
    assert s[0] == w[0];
    assert s[..|w|] == w;
    assert s[|w|..] == t;
  }

  /** `w.charAt(0).toUpperCase() + w.slice(1).toLowerCase()` */
  function Capitalize(w: string): (r: string)
    ensures |r| == |w|
  {
    if w == [] then [] else [UpperChar(w[0])] + Lower(w[1..])
  }

  function CapitalizeAll(ws: seq<string>): (r: seq<string>)
    ensures |r| == |ws| && forall k :: 0 <= k < |ws| ==> r[k] == Capitalize(ws[k])
  {
    if ws == [] then [] else [Capitalize(ws[0])] + CapitalizeAll(ws[1..])
  }

  /** `toTitleCase`: the capitalised words joined with single spaces; empty exactly when there is no word. */
  function ToTitleCase(s: string): (r: string)
    ensures r == [] <==> Words(s) == []
  {
    var cs := CapitalizeAll(Words(s));
    if cs != [] then
      assert |JoinWith(cs, " ")| >= |cs[0]|;
      JoinWith(cs, " ")
    else JoinWith(cs, " ")
  }

  lemma CapitalizeIsWord(w: string)
    requires IsWord(w)
    ensures IsWord(Capitalize(w))
  {
    var r := Capitalize(w);
    forall i | 0 <= i < |r| ensures !IsWordSeparator(r[i]) {
      if i > 0 {
        assert r[i] == LowerChar(w[i]);
      }
    }
  }

  lemma CapitalizeIdempotent(w: string)
    ensures Capitalize(Capitalize(w)) == Capitalize(w)
  {
    if w != [] {
      var r := Capitalize(w);
      assert r[0] == UpperChar(w[0]) && r[1..] == Lower(w[1..]);
      assert Lower(r[1..]) == r[1..];
    }
  }

  /** A word followed by a separator, or by nothing, is a run of exactly its own length. */
  lemma {:induction false} WordLenOf(w: string, t: string)
    requires forall i :: 0 <= i < |w| ==> !IsWordSeparator(w[i])
    requires t == [] || IsWordSeparator(t[0])
    ensures WordLen(w + t) == |w|
  {
    if w == [] {
      assert w + t == t;
    } else {
      assert (w + t)[1..] == w[1..] + t;
      WordLenOf(w[1..], t);
    }
  }

  /** Splitting words that were joined with single spaces gives back the words. */
  lemma {:induction false} WordsOfJoin(ws: seq<string>)
    requires forall k :: 0 <= k < |ws| ==> IsWord(ws[k])
    ensures Words(JoinWith(ws, " ")) == ws
  {
    if |ws| == 1 {
      WordsCons(ws[0], []);
      assert ws[0] + [] == ws[0];
    } else if |ws| > 1 {
      var t := JoinWith(ws[1..], " ");
      assert JoinWith(ws, " ") == ws[0] + (" " + t);
      WordsCons(ws[0], " " + t);
      assert (" " + t)[1..] == t;
      assert Words(" " + t) == Words(t);
      WordsOfJoin(ws[1..]);
      assert ws == [ws[0]] + ws[1..];
    }
  }

  /** The words of a title-cased string are the capitalised words of the original. */
  lemma TitleCaseWords(s: string)
    ensures Words(ToTitleCase(s)) == CapitalizeAll(Words(s))
  {
    var ws := Words(s);
    var cs := CapitalizeAll(ws);
    forall k | 0 <= k < |cs| ensures IsWord(cs[k]) {
      CapitalizeIsWord(ws[k]);
    }
    WordsOfJoin(cs);
  }

  /** Title-casing a title-cased string changes nothing. */
  lemma TitleCaseIdempotent(s: string)
    ensures ToTitleCase(ToTitleCase(s)) == ToTitleCase(s)
  {
    TitleCaseWords(s);
    var ws := Words(s);
    var cs := CapitalizeAll(ws);
    assert CapitalizeAll(cs) == cs by {
      forall k | 0 <= k < |cs| ensures Capitalize(cs[k]) == cs[k] {
        CapitalizeIdempotent(ws[k]);
      }
    }
  }

  predicate IsNameChar(c: char) {
    IsAsciiAlnum(c) || c == '-' || c == '_' || c == ' '
  }

  lemma {:induction false} JoinWithSpaceTidy(parts: seq<string>)
    requires forall k, i :: 0 <= k < |parts| && 0 <= i < |parts[k]| ==> IsAsciiAlnum(parts[k][i])
    ensures Tidy(JoinWith(parts, " "))
  {
    if |parts| > 1 {
      JoinWithSpaceTidy(parts[1..]);
      var t := JoinWith(parts[1..], " ");
      assert JoinWith(parts, " ") == parts[0] + " " + t;
      assert forall k, i :: 0 <= k < |parts[1..]| && 0 <= i < |parts[1..][k]| ==> parts[1..][k][i] == parts[k + 1][i];
    } else if |parts| == 1 {
      assert forall i :: 0 <= i < |parts[0]| ==> IsAsciiAlnum(parts[0][i]);
    }
  }

  /** No space at either end and never two spaces in a row. */
  predicate SingleSpaced(t: string) {
    (t != [] ==> t[0] != ' ' && t[|t| - 1] != ' ')
    && forall i :: 0 <= i < |t| - 1 ==> !(t[i] == ' ' && t[i + 1] == ' ')
  }

  /** Words joined with single spaces are single-spaced, and not empty when there is a word. */
  lemma {:induction false} JoinWordsSingleSpaced(ws: seq<string>)
    requires forall k :: 0 <= k < |ws| ==> IsWord(ws[k])
    ensures ws != [] ==> JoinWith(ws, " ") != []
    ensures SingleSpaced(JoinWith(ws, " "))
  {
    if |ws| == 1 {
      assert forall i :: 0 <= i < |ws[0]| ==> ws[0][i] != ' ';
    } else if |ws| > 1 {
      var w := ws[0];
      var r := JoinWith(ws[1..], " ");
      JoinWordsSingleSpaced(ws[1..]);
      var t := JoinWith(ws, " ");
      assert t == w + " " + r;
      assert forall i :: 0 <= i < |w| ==> t[i] == w[i] && w[i] != ' ';
      assert t[|w|] == ' ';
      assert forall i :: 0 <= i < |r| ==> t[|w| + 1 + i] == r[i];
      forall i | 0 <= i < |t| - 1 ensures !(t[i] == ' ' && t[i + 1] == ' ') {
        if i > |w| {
          assert t[i] == r[i - |w| - 1] && t[i + 1] == r[i - |w|];
        }
      }
    }
  }

  /**
   * Title-casing a string of name characters leaves only ASCII letters, digits and
   * spaces, with single spaces between the words and none at the ends.
   */
  lemma TitleCaseTidy(s: string)
    requires forall i :: 0 <= i < |s| ==> IsNameChar(s[i])
    ensures Tidy(ToTitleCase(s))
    ensures SingleSpaced(ToTitleCase(s))
  {
    var ws := Words(s);
    var cs := CapitalizeAll(ws);
    WordsChars(s);
    forall k, i | 0 <= k < |cs| && 0 <= i < |cs[k]| ensures IsAsciiAlnum(cs[k][i]) {
      assert ws[k][0] in s;
      if i == 0 {
        assert cs[k][0] == UpperChar(ws[k][0]);
      } else {
        assert cs[k][i] == LowerChar(ws[k][i]);
        assert ws[k][i] in s;
      }
    }
    JoinWithSpaceTidy(cs);
    forall k | 0 <= k < |cs| ensures IsWord(cs[k]) {
      CapitalizeIsWord(ws[k]);
    }
    JoinWordsSingleSpaced(cs);
  }

  // ---- deriveDisplayName ----

  const Fallback: string := "Copilot"

  lemma FallbackTidy()
    ensures Fallback != [] && Tidy(Fallback)
  {
    assert Fallback == ['C', 'o', 'p', 'i', 'l', 'o', 't'];
  }
  const KnownGeneric: seq<string> := ["com", "co", "net", "org", "gov", "edu", "ac"]

  /** `companyParam || window.location.hostname || ""` */
  function RawName(company: Option<string>, hostname: string): (r: string)
    ensures company.Some? && company.value != [] ==> r == company.value
    ensures company.None? || company.value == [] ==> r == hostname
  {
    if company.Some? && company.value != [] then company.value else hostname
  }

  /** The scheme and `www.` dropped, then the path and the query cut off. */
  function HostName(raw: string): (h: string)
    ensures '/' !in h && '?' !in h
  {
    var host := Split(StripPrefix(Config.StripScheme(raw), "www."), '/')[0];
    var r := Split(host, '?')[0];
    assert forall i :: 0 <= i < |r| ==> r[i] in host by {
      SplitFirst(host, '?');
    }
    r
  }

  /** `xs.filter(Boolean)` on strings */
  function NonEmpty(xs: seq<string>): (ys: seq<string>)
    ensures forall k :: 0 <= k < |ys| ==> ys[k] != [] && ys[k] in xs
    ensures (forall k :: 0 <= k < |xs| ==> xs[k] != []) ==> ys == xs
  {
    if xs == [] then []
    else if xs[0] == [] then NonEmpty(xs[1..])
    else
      var rest := NonEmpty(xs[1..]);
      assert forall x :: x in xs[1..] ==> x in xs;
      [xs[0]] + rest
  }

  /** `cleaned.split(".").filter(Boolean)` */
  function Labels(host: string): (parts: seq<string>)
    ensures forall k :: 0 <= k < |parts| ==> parts[k] != [] && '.' !in parts[k]
  {
    NonEmpty(Split(host, '.'))
  }

  /**
   * The label the name comes from: the one before a generic second level under a
   * two-letter country code, else the second-from-last, else the only one. None
   * where there is no label, so that `parts[0]` is `undefined`.
   */
  function BaseLabel(parts: seq<string>): (b: Option<string>)
    ensures b.None? <==> parts == []
    ensures b.Some? ==> b.value in parts
  {
    var n := |parts|;
    var hasCountryTld := n >= 2 && JsLength(parts[n - 1]) == 2;
    if n >= 3 && hasCountryTld && parts[n - 2] in KnownGeneric then Some(parts[n - 3])
    else if n >= 2 then Some(parts[n - 2])
    else if n == 1 then Some(parts[0])
    else None
  }

  /**
   * `base.replace(/[^a-zA-Z0-9-_ ]/g, " ")`. (A character outside the BMP is two code
   * units and becomes two spaces in the source; both are separators, so the title
   * case that follows is the same.)
   */
  function Sanitize(base: string): (r: string)
    ensures |r| == |base|
    ensures forall i :: 0 <= i < |r| ==> IsNameChar(r[i])
    ensures forall i :: 0 <= i < |r| && IsNameChar(base[i]) ==> r[i] == base[i]
  {
    if base == [] then []
    else [if IsNameChar(base[0]) then base[0] else ' '] + Sanitize(base[1..])
  }

  /**
   * `deriveDisplayName`: a non-empty name of ASCII letters, digits and spaces, with
   * "Copilot" for an empty host. None where the source throws a TypeError: the host
   * has nothing but dots, and `parts[0].replace` is called on `undefined`.
   */
  function DeriveDisplayName(company: Option<string>, hostname: string): (r: Option<string>)
    ensures var host := HostName(RawName(company, hostname));
            (host == [] ==> r == Some(Fallback))
            && (r.None? <==> host != [] && Labels(host) == [])
    ensures r.Some? ==> r.value != [] && Tidy(r.value)
  {
    var host := HostName(RawName(company, hostname));
    FallbackTidy();
    if host == [] then Some(Fallback)
    else
      match BaseLabel(Labels(host))
      case None => None
      case Some(base) =>
        var human := ToTitleCase(Sanitize(base));
        TitleCaseTidy(Sanitize(base));
        if human == [] then Some(Fallback) else Some(human)
  }

  predicate IsAlnumLabel(s: string) {
    s != [] && forall i :: 0 <= i < |s| ==> IsAsciiAlnum(s[i])
  }

  /** `scheme [www.] domain rest`, with a dotted domain and `rest` empty or a path or query, has host `domain`. */
  lemma HostNameOfUrl(scheme: string, www: bool, domain: string, rest: string)
    requires scheme == "" || scheme == "http://" || scheme == "https://"
    requires '/' !in domain && '?' !in domain && '.' in domain
    requires !www ==> !StartsWith(domain, "www.")
    requires rest == [] || rest[0] == '/' || rest[0] == '?'
    ensures HostName(scheme + (if www then "www." else "") + domain + rest) == domain
  {
    var t := (if www then "www." else "") + domain + rest;
    assert scheme + (if www then "www." else "") + domain + rest == scheme + t;
    Config.NoSchemeInHost(www, domain, rest);
    Config.StripSchemeOf(scheme, t);
    Config.StripWwwOf(www, domain, rest);
    Config.SplitPrefixFree(domain, '/', rest);
    var r0 := Split(rest, '/')[0];
    if rest == [] || rest[0] == '/' {
      Config.SplitAtSeparator(rest, '/');
      assert domain + r0 == domain + [];
    } else {
      Config.SplitKeepsHead(rest, '/');
    }
    Config.SplitPrefixFree(domain, '?', r0);
    Config.SplitAtSeparator(r0, '?');
    assert domain + [] == domain;
  }

  /** A host whose first label is an alphanumeric label other than `www` does not start with `www.`. */
  lemma NotWww(name: string, d: string)
    requires IsAlnumLabel(name) && name != "www"
    requires |name| < |d| && d[..|name|] == name && d[|name|] == '.'
    ensures !StartsWith(d, "www.")
  {
    if |d| < 4 {
    } else if |name| >= 4 {
      assert d[3] == name[3] && name[3] != '.';
      assert d[..4][3] != "www."[3];
    } else if |name| == 3 {
      assert d[..3] == name;
      assert d[..4][..3] == d[..3];
    } else {
      assert d[..4][|name|] != "www."[|name|];
    }
  }

  lemma LabelsOfThree(a: string, b: string, c: string)
    requires a != [] && b != [] && c != [] && '.' !in a && '.' !in b && '.' !in c
    ensures Labels(a + "." + b + "." + c) == [a, b, c]
  {
    SplitFree(c, '.');
    SplitCons(b, '.', c);
    assert a + "." + b + "." + c == a + ['.'] + (b + ['.'] + c);
    SplitCons(a, '.', b + ['.'] + c);
  }

  lemma LabelsOfTwo(a: string, b: string)
    requires a != [] && b != [] && '.' !in a && '.' !in b
    ensures Labels(a + "." + b) == [a, b]
  {
    SplitFree(b, '.');
    SplitCons(a, '.', b);
  }

  lemma AlnumHasNoPunctuation(s: string)
    requires IsAlnumLabel(s)
    ensures '.' !in s && '/' !in s && '?' !in s
    ensures JsLength(s) == |s|
  {
    assert forall i :: 0 <= i < |s| ==> s[i] as int < 0x1_0000;
  }

  /** A single alphanumeric label title-cases to itself, capitalised. */
  lemma TitleCaseOfLabel(name: string)
    requires IsAlnumLabel(name)
    ensures ToTitleCase(Sanitize(name)) == Capitalize(name)
  {
    SanitizeAlnum(name);
    AlnumIsWord(name);
    TitleCaseOfWord(name);
  }

  lemma AlnumIsWord(name: string)
    requires IsAlnumLabel(name)
    ensures IsWord(name)
  {
    forall i | 0 <= i < |name| ensures !IsWordSeparator(name[i]) {
      assert IsAsciiAlnum(name[i]);
    }
  }

  lemma SanitizeAlnum(name: string)
    requires IsAlnumLabel(name)
    ensures Sanitize(name) == name
  {
    var r := Sanitize(name);
    forall i | 0 <= i < |name| ensures r[i] == name[i] {
      assert IsNameChar(name[i]);
    }
  }

  /** One word title-cases to itself, capitalised. */
  lemma TitleCaseOfWord(w: string)
    requires IsWord(w)
    ensures ToTitleCase(w) == Capitalize(w)
  {
    WordsCons(w, []);
    assert w + [] == w;
    assert Words(w) == [w];
    assert CapitalizeAll([w]) == [Capitalize(w)];
  }

  /** A URL whose host has an alphanumeric base label is named after that label. */
  lemma DisplayNameOfHost(url: string, host: string, base: string)
    requires url != [] && HostName(url) == host && host != []
    requires BaseLabel(Labels(host)) == Some(base) && IsAlnumLabel(base)
    ensures DeriveDisplayName(Some(url), "") == Some(Capitalize(base))
  {
    TitleCaseOfLabel(base);
  }

  /** `scheme [www.] domain rest` is named after the base label of `domain`. */
  lemma DisplayNameOfUrl(scheme: string, www: bool, domain: string, rest: string, base: string)
    requires scheme == "" || scheme == "http://" || scheme == "https://"
    requires '/' !in domain && '?' !in domain && '.' in domain
    requires !www ==> !StartsWith(domain, "www.")
    requires rest == [] || rest[0] == '/' || rest[0] == '?'
    requires BaseLabel(Labels(domain)) == Some(base) && IsAlnumLabel(base)
    ensures DeriveDisplayName(Some(scheme + (if www then "www." else "") + domain + rest), "") == Some(Capitalize(base))
    ensures !www ==> DeriveDisplayName(Some(scheme + domain + rest), "") == Some(Capitalize(base))
  {
    HostNameOfUrl(scheme, www, domain, rest);
    DisplayNameOfHost(scheme + (if www then "www." else "") + domain + rest, domain, base);
    assert scheme + "" == scheme;
  }

  /** The labels of `name.generic.country` and what they make of the name. */
  lemma CountryDomainFacts(name: string, generic: string, country: string)
    requires IsAlnumLabel(name) && generic in KnownGeneric && IsAlnumLabel(country) && |country| == 2
    ensures var domain := name + "." + generic + "." + country;
            '/' !in domain && '?' !in domain && '.' in domain
            && |name| < |domain| && domain[..|name|] == name && domain[|name|] == '.'
            && BaseLabel(Labels(domain)) == Some(name)
  {
    var domain := name + "." + generic + "." + country;
    AlnumHasNoPunctuation(name);
    AlnumHasNoPunctuation(country);
    assert domain[|name|] == '.';
    assert '.' !in generic && '/' !in generic && '?' !in generic;
    LabelsOfThree(name, generic, country);
  }

  /** `name.<com|co|net|org|gov|edu|ac>.<two letters>`: the name is the label before the generic level. */
  lemma DisplayNameOfCountryDomain(scheme: string, www: bool, name: string, generic: string,
                                   country: string, rest: string)
    requires scheme == "" || scheme == "http://" || scheme == "https://"
    requires IsAlnumLabel(name) && (!www ==> name != "www")
    requires generic in KnownGeneric
    requires IsAlnumLabel(country) && |country| == 2
    requires rest == [] || rest[0] == '/' || rest[0] == '?'
    ensures DeriveDisplayName(Some(scheme + (if www then "www." else "") + (name + "." + generic + "." + country)
                                   + rest), "") == Some(Capitalize(name))
  {
    var domain := name + "." + generic + "." + country;
    CountryDomainFacts(name, generic, country);
    if !www {
      NotWww(name, domain);
    }
    DisplayNameOfUrl(scheme, www, domain, rest, name);
  }

  /** The labels of `name.tld` and what they make of the name. */
  lemma DomainFacts(name: string, tld: string)
    requires IsAlnumLabel(name) && IsAlnumLabel(tld)
    ensures var domain := name + "." + tld;
            '/' !in domain && '?' !in domain && '.' in domain
            && |name| < |domain| && domain[..|name|] == name && domain[|name|] == '.'
            && BaseLabel(Labels(domain)) == Some(name)
  {
    var domain := name + "." + tld;
    AlnumHasNoPunctuation(name);
    AlnumHasNoPunctuation(tld);
    assert domain[|name|] == '.';
    LabelsOfTwo(name, tld);
  }

  /** `name.<tld>`: the name is the second-from-last label. */
  lemma DisplayNameOfDomain(scheme: string, www: bool, name: string, tld: string, rest: string)
    requires scheme == "" || scheme == "http://" || scheme == "https://"
    requires IsAlnumLabel(name) && (!www ==> name != "www")
    requires IsAlnumLabel(tld)
    requires rest == [] || rest[0] == '/' || rest[0] == '?'
    ensures DeriveDisplayName(Some(scheme + (if www then "www." else "") + (name + "." + tld) + rest), "")
            == Some(Capitalize(name))
  {
    var domain := name + "." + tld;
    DomainFacts(name, tld);
    if !www {
      NotWww(name, domain);
    }
    DisplayNameOfUrl(scheme, www, domain, rest, name);
  }

  /** The labels of `sub.name.tld`, with a top level not two letters long, and what they make of the name. */
  lemma SubdomainFacts(sub: string, name: string, tld: string)
    requires IsAlnumLabel(sub) && IsAlnumLabel(name) && IsAlnumLabel(tld) && |tld| != 2
    ensures var domain := sub + "." + name + "." + tld;
            '/' !in domain && '?' !in domain && '.' in domain
            && |sub| < |domain| && domain[..|sub|] == sub && domain[|sub|] == '.'
            && BaseLabel(Labels(domain)) == Some(name)
  {
    var domain := sub + "." + name + "." + tld;
    AlnumHasNoPunctuation(sub);
    AlnumHasNoPunctuation(name);
    AlnumHasNoPunctuation(tld);
    assert domain[|sub|] == '.';
    LabelsOfThree(sub, name, tld);
  }

  /** `sub.name.<tld>` with a top level that is not two letters long: the second-from-last label again. */
  lemma DisplayNameOfSubdomain(scheme: string, sub: string, name: string, tld: string, rest: string)
    requires scheme == "" || scheme == "http://" || scheme == "https://"
    requires IsAlnumLabel(sub) && sub != "www" && IsAlnumLabel(name)
    requires IsAlnumLabel(tld) && |tld| != 2
    requires rest == [] || rest[0] == '/' || rest[0] == '?'
    ensures DeriveDisplayName(Some(scheme + (sub + "." + name + "." + tld) + rest), "") == Some(Capitalize(name))
  {
    var domain := sub + "." + name + "." + tld;
    SubdomainFacts(sub, name, tld);
    NotWww(sub, domain);
    DisplayNameOfUrl(scheme, false, domain, rest, name);
  }

  // ---- formatAdaptiveSubmission ----

  function KeysOf(props: seq<Prop>): (ks: seq<string>)
    ensures |ks| == |props| && forall i :: 0 <= i < |props| ==> ks[i] == props[i].key
  {
    if props == [] then [] else [props[0].key] + KeysOf(props[1..])
  }

  /** The first occurrence of every key, in order. */
  function Dedup(xs: seq<string>): (ys: seq<string>)
    ensures forall i, j :: 0 <= i < j < |ys| ==> ys[i] != ys[j]
    ensures forall x :: x in ys <==> x in xs
  {
    if xs == [] then []
    else
      var init := Dedup(xs[..|xs| - 1]);
      var last := xs[|xs| - 1];
      assert forall x :: x in xs <==> x in xs[..|xs| - 1] || x == last by {
        assert xs == xs[..|xs| - 1] + [last];
      }
      if last in init then init else init + [last]
  }

  predicate Distinct(xs: seq<string>) {
    forall i, j :: 0 <= i < j < |xs| ==> xs[i] != xs[j]
  }

  /** Keys that are already distinct are kept as they are. */
  lemma {:induction false} DedupDistinct(xs: seq<string>)
    requires Distinct(xs)
    ensures Dedup(xs) == xs
  {
    if xs != [] {
      var init := xs[..|xs| - 1];
      DedupDistinct(init);
      assert xs[|xs| - 1] !in init;
      assert init + [xs[|xs| - 1]] == xs;
    }
  }

  /** `Object.entries(v).map(([key, value]) => `${key}: ${value}`)` */
  function EntryLines(v: JsValue): seq<string> {
    match v
    case Obj(props) =>
      var keys := Dedup(KeysOf(props));
      seq(|keys|, i requires 0 <= i < |keys| => keys[i] + ": " + ToJsString(Lookup(props, keys[i])))
    case Arr(items) =>
      seq(|items|, i requires 0 <= i < |items| => NatToDecimal(i) + ": " + ToJsString(items[i]))
    case Str(s) =>
      seq(|s|, i requires 0 <= i < |s| => NatToDecimal(i) + ": " + [s[i]])
    case _ => []
  }

  /** `fallback || "Submitted response"` */
  function FallbackText(fallback: Option<string>): (s: string)
    ensures s != []
  {
    if fallback.Some? && fallback.value != [] then fallback.value else "Submitted response"
  }

  /**
   * `formatAdaptiveSubmission`: the text of the user message that records a card
   * submission. It is never empty: a falsy value gives the fallback, a string is kept,
   * a truthy `text` is taken, and otherwise the entries are listed.
   */
  function FormatAdaptiveSubmission(data: JsValue, fallback: Option<string>): (r: JsValue)
    ensures Truthy(r)
    ensures !Truthy(data) ==> r == Str(FallbackText(fallback))
    ensures Truthy(data) && data.Str? ==> r == data
    ensures Truthy(data) && !data.Str? && Truthy(Get(data, "text")) ==> r == Get(data, "text")
    ensures Truthy(data) && !data.Str? && !Truthy(Get(data, "text")) && EntryLines(data) != [] ==>
              r == Str(JoinWith(EntryLines(data), ", "))
    ensures Truthy(data) && !data.Str? && !Truthy(Get(data, "text")) && EntryLines(data) == [] ==>
              r == Str(FallbackText(fallback))
  {
    if !Truthy(data) then Str(FallbackText(fallback))
    else if data.Str? then data
    else if Truthy(Get(data, "text")) then Get(data, "text")
    else
      var lines := EntryLines(data);
      var entries := JoinWith(lines, ", ");
      EntryLinesNonEmpty(data);
      if entries != [] then Str(entries) else Str(FallbackText(fallback))
  }

  /** Every `k: v` line holds the `: `, so the joined entries are empty exactly when there are none. */
  lemma EntryLinesNonEmpty(data: JsValue)
    ensures JoinWith(EntryLines(data), ", ") == [] <==> EntryLines(data) == []
  {
    var lines := EntryLines(data);
    if lines != [] {
      assert |lines[0]| >= 2;
      assert JoinWith(lines, ", ")[..|lines[0]|] == lines[0];
    }
  }

  /** With distinct keys, every property's own value is the one looked up. */
  lemma {:induction false} LookupDistinct(props: seq<Prop>, i: nat)
    requires Distinct(KeysOf(props)) && i < |props|
    ensures Lookup(props, props[i].key) == props[i].val
  {
    var n := |props| - 1;
    if i < n {
      var init := props[..n];
      assert KeysOf(init) == KeysOf(props)[..n];
      assert props[n].key != props[i].key;
      LookupDistinct(init, i);
    }
  }

  /** The `key: value` line of one property. */
  function PropLine(p: Prop): string {
    p.key + ": " + ToJsString(p.val)
  }

  /** The `key: value` line of every property, in order. */
  function PropLines(props: seq<Prop>): (lines: seq<string>)
    ensures |lines| == |props| && forall i :: 0 <= i < |props| ==> lines[i] == PropLine(props[i])
  {
    if props == [] then [] else [PropLine(props[0])] + PropLines(props[1..])
  }

  /** With distinct keys the entries are the properties themselves, in order. */
  lemma EntryLinesOfRecord(props: seq<Prop>)
    requires Distinct(KeysOf(props))
    ensures EntryLines(Obj(props)) == PropLines(props)
  {
    DedupDistinct(KeysOf(props));
    var lines := EntryLines(Obj(props));
    forall i | 0 <= i < |props| ensures lines[i] == PropLine(props[i]) {
      LookupDistinct(props, i);
    }
  }

  /**
   * A submitted record with distinct keys and no truthy `text` is summarised as
   * its `key: value` pairs in order, joined with ", ".
   */
  lemma SubmissionOfRecord(props: seq<Prop>, fallback: Option<string>)
    requires props != [] && Distinct(KeysOf(props))
    requires !Truthy(Lookup(props, "text"))
    ensures FormatAdaptiveSubmission(Obj(props), fallback) == Str(JoinWith(PropLines(props), ", "))
  {
    EntryLinesOfRecord(props);
    var lines := PropLines(props);
    assert |JoinWith(lines, ", ")| >= |lines[0]|;
  }

  // ---- validateEmail ----

  /** `[^\s@]` */
  predicate IsAddressChar(c: char) {
    !IsWhitespace(c) && c != '@'
  }

  predicate IsAddressPart(s: string) {
    s != [] && forall i :: 0 <= i < |s| ==> IsAddressChar(s[i])
  }

  /** The strings `^[^\s@]+@[^\s@]+\.[^\s@]+$` accepts, cut at its three runs. */
  predicate EmailShape(t: string, local: string, host: string, tld: string) {
    t == local + "@" + host + "." + tld && IsAddressPart(local) && IsAddressPart(host) && IsAddressPart(tld)
  }

  /** A dot with at least one character on each side. */
  predicate HasInnerDot(d: string) {
    exists k :: 0 < k < |d| - 1 && d[k] == '.'
  }

  /** The test on the trimmed value: one `@`, no white space, a local part and a domain with an inner dot. */
  predicate EmailAccepts(t: string) {
    var parts := Split(t, '@');
    |parts| == 2 && parts[0] != [] && NoWhitespace(parts[0]) && NoWhitespace(parts[1]) && HasInnerDot(parts[1])
  }

  /**
   * `validateEmail`: the test on the trimmed value, which accepts exactly the strings
   * `^[^\s@]+@[^\s@]+\.[^\s@]+$` matches.
   */
  function ValidateEmail(value: string): (b: bool)
    ensures b <==> exists l, h, d :: EmailShape(Trim(value), l, h, d)
  {
    var t := Trim(value);
    assert (exists l, h, d :: EmailShape(t, l, h, d)) ==> EmailAccepts(t) by {
      if exists l, h, d :: EmailShape(t, l, h, d) {
        var l, h, d :| EmailShape(t, l, h, d);
        EmailAcceptsComplete(t, l, h, d);
      }
    }
    if EmailAccepts(t) then
      EmailAcceptsSound(t);
      true
    else false
  }

  /** A non-empty string without white space and `@` is one run of `[^\s@]+`. */
  lemma AddressPartOf(s: string)
    requires s != [] && NoWhitespace(s) && '@' !in s
    ensures IsAddressPart(s)
  {
  }

  /** Cutting an address domain at an inner dot leaves two runs of `[^\s@]+`. */
  lemma CutAtDot(p: string, k: nat)
    requires 0 < k < |p| - 1 && p[k] == '.' && NoWhitespace(p) && '@' !in p
    ensures p == p[..k] + "." + p[k + 1..]
    ensures IsAddressPart(p[..k]) && IsAddressPart(p[k + 1..])
  {
    var h, d := p[..k], p[k + 1..];
    assert forall i :: 0 <= i < |h| ==> h[i] == p[i];
    assert forall i :: 0 <= i < |d| ==> d[i] == p[k + 1 + i];
  }

  /** What the test accepts has the shape of the regular expression. */
  lemma EmailAcceptsSound(t: string)
    requires EmailAccepts(t)
    ensures exists l, h, d :: EmailShape(t, l, h, d)
  {
    var parts := Split(t, '@');
    assert parts[0] + ['@'] + parts[1] == t by {
      assert Join(parts, '@') == parts[0] + ['@'] + Join(parts[1..], '@');
      assert parts[1..] == [parts[1]];
    }
    var p := parts[1];
    var k :| 0 < k < |p| - 1 && p[k] == '.';
    CutAtDot(p, k);
    AddressPartOf(parts[0]);
    assert EmailShape(t, parts[0], p[..k], p[k + 1..]);
  }

  /** The shape of the regular expression passes the test. */
  lemma EmailAcceptsComplete(t: string, l: string, h: string, d: string)
    requires EmailShape(t, l, h, d)
    ensures EmailAccepts(t)
  {
    var dom := h + "." + d;
    assert forall i :: 0 <= i < |dom| ==> dom[i] != '@' && !IsWhitespace(dom[i]) by {
      assert forall i :: 0 <= i < |h| ==> dom[i] == h[i];
      assert dom[|h|] == '.';
      assert forall i :: |h| < i < |dom| ==> dom[i] == d[i - |h| - 1];
    }
    SplitFree(dom, '@');
    assert t == l + ['@'] + dom;
    SplitCons(l, '@', dom);
    assert Split(t, '@') == [l, dom];
    assert dom[|h|] == '.' && 0 < |h| < |dom| - 1;
  }

  // ---- the queue information in message text ----

  /** `parseInt` of the text from `j` on, where a digit stands at `j`: the value of the whole run of digits. */
  function RunValue(s: string, j: nat): nat
    requires j <= |s|
  {
    DecimalValue(s[j..j + DigitRun(s, j)])
  }

  /** `m` is the first digit from `j` on, with no line terminator before it: where `.*?` stops for `\d`. */
  predicate FirstDigitAt(s: string, j: nat, m: nat) {
    j <= m < |s| && IsDigit(s[m]) && forall t :: j <= t < m ==> !IsDigit(s[t]) && !IsLineTerminator(s[t])
  }

  function DigitAfter(s: string, j: nat): (r: Option<nat>)
    requires j <= |s|
    decreases |s| - j
    ensures r.Some? ==> FirstDigitAt(s, j, r.value)
    ensures r.None? ==> forall m :: !FirstDigitAt(s, j, m)
  {
    if j == |s| then None
    else if IsDigit(s[j]) then Some(j)
    else if IsLineTerminator(s[j]) then None
    else
      var r := DigitAfter(s, j + 1);
      assert forall m :: FirstDigitAt(s, j, m) ==> FirstDigitAt(s, j + 1, m);
      r
  }

  /** `position.*?(\d+)` matches from index `i`, its digits starting at `j`. */
  predicate PositionMatch(s: string, i: nat, j: nat) {
    OccursAt(s, "position", i) && FirstDigitAt(s, i + 8, j)
  }

  /** For a given start the lazy `.*?` leaves one place where the digits can start. */
  lemma PositionDigitsUnique(s: string, i: nat, j1: nat, j2: nat)
    ensures PositionMatch(s, i, j1) && PositionMatch(s, i, j2) ==> j1 == j2
  {
  }

  /** The leftmost match of `position.*?(\d+)` at or after `from`: its start and where its digits start. */
  function PositionSearch(s: string, from: nat): (r: Option<(nat, nat)>)
    decreases |s| - from
    ensures r.Some? ==> from <= r.value.0 && PositionMatch(s, r.value.0, r.value.1)
    ensures r.Some? ==> forall i, j :: from <= i < r.value.0 ==> !PositionMatch(s, i, j)
    ensures r.None? ==> forall i, j :: from <= i ==> !PositionMatch(s, i, j)
  {
    if from + 8 > |s| then None
    else if OccursAt(s, "position", from) then
      match DigitAfter(s, from + 8)
      case Some(j) => Some((from, j))
      case None => PositionSearch(s, from + 1)
    else PositionSearch(s, from + 1)
  }

  /** The leftmost match of `position.*?(\d+)` starts at `i`, its digits at `j`. */
  ghost predicate FirstPositionMatch(s: string, i: nat, j: nat) {
    PositionMatch(s, i, j) && forall i': nat, j': nat :: i' < i ==> !PositionMatch(s, i', j')
  }

  /** `parseInt(text.match(/position.*?(\d+)/i)[1])`: the whole run of digits of the first match. */
  function PositionIn(text: string): (r: Option<nat>)
    ensures r.Some? <==> exists i, j :: PositionMatch(text, i, j)
    ensures r.Some? ==> exists i, j :: FirstPositionMatch(text, i, j) && r.value == RunValue(text, j)
  {
    match PositionSearch(text, 0)
    case None => None
    case Some((i, j)) =>
      assert FirstPositionMatch(text, i, j);
      Some(RunValue(text, j))
  }

  /** The letters `min` at index `j`: what `(min|minute)` needs, as `min` is tried first. */
  predicate MinAt(s: string, j: nat) {
    j + 3 <= |s| && s[j] == 'm' && s[j + 1] == 'i' && s[j + 2] == 'n'
  }

  /** `(\d+)\s*(min|minute)` matches from `i` with `k` digits and `w` white-space characters before `min`. */
  predicate WaitMatch(s: string, i: nat, k: nat, w: nat) {
    k >= 1 && i + k + w <= |s|
    && (forall t :: i <= t < i + k ==> IsDigit(s[t]))
    && (forall t :: i + k <= t < i + k + w ==> IsWhitespace(s[t]))
    && MinAt(s, i + k + w)
  }

  lemma {:induction false} DigitRunIs(s: string, i: nat, k: nat)
    requires i + k <= |s|
    requires forall t :: i <= t < i + k ==> IsDigit(s[t])
    requires i + k == |s| || !IsDigit(s[i + k])
    ensures DigitRun(s, i) == k
    decreases k
  {
    if k > 0 {
      DigitRunIs(s, i + 1, k - 1);
    }
  }

  lemma {:induction false} WhitespaceRunIs(s: string, i: nat, k: nat)
    requires i + k <= |s|
    requires forall t :: i <= t < i + k ==> IsWhitespace(s[t])
    requires i + k == |s| || !IsWhitespace(s[i + k])
    ensures WhitespaceRun(s, i) == k
    decreases k
  {
    if k > 0 {
      WhitespaceRunIs(s, i + 1, k - 1);
    }
  }

  /** At a given start the pattern matches in one way only: all the digits, then all the white space. */
  lemma WaitMatchGreedy(s: string, i: nat, k: nat, w: nat)
    ensures WaitMatch(s, i, k, w) ==> i < |s| && IsDigit(s[i]) && k == DigitRun(s, i)
                                      && w == WhitespaceRun(s, i + k)
  {
    if WaitMatch(s, i, k, w) {
      assert IsDigit(s[i]);
      assert s[i + k] == 'm' || IsWhitespace(s[i + k]);
      DigitRunIs(s, i, k);
      WhitespaceRunIs(s, i + k, w);
    }
  }

  /** The greedy reading matches at `i`: a digit, all the digits, all the white space, then `min`. */
  predicate WaitAt(s: string, i: nat) {
    i < |s| && IsDigit(s[i]) && MinAt(s, i + DigitRun(s, i) + WhitespaceRun(s, i + DigitRun(s, i)))
  }

  /** Where the greedy reading succeeds, it is a match. */
  lemma GreedyWaitMatch(s: string, i: nat)
    requires WaitAt(s, i)
    ensures WaitMatch(s, i, DigitRun(s, i), WhitespaceRun(s, i + DigitRun(s, i)))
  {
    var k := DigitRun(s, i);
    assert k >= 1;
    forall t | i <= t < i + k ensures IsDigit(s[t]) {
      assert s[i..i + k][t - i] == s[t];
    }
  }

  /** The pattern matches at `i` exactly when the greedy reading does. */
  lemma WaitAtMeans(s: string, i: nat)
    ensures WaitAt(s, i) <==> exists k, w :: WaitMatch(s, i, k, w)
  {
    if WaitAt(s, i) {
      GreedyWaitMatch(s, i);
    }
    if exists k, w :: WaitMatch(s, i, k, w) {
      var k, w :| WaitMatch(s, i, k, w);
      WaitMatchGreedy(s, i, k, w);
    }
  }

  /** The leftmost match of `(\d+)\s*(min|minute)` at or after `from`. */
  function WaitSearch(s: string, from: nat): (r: Option<nat>)
    decreases |s| - from
  {
    if from >= |s| then None
    else if WaitAt(s, from) then Some(from)
    else WaitSearch(s, from + 1)
  }

  /** A position the search returns holds a match, and none comes before it. */
  lemma {:induction false} WaitSearchFound(s: string, from: nat)
    requires WaitSearch(s, from).Some?
    decreases |s| - from
    ensures from <= WaitSearch(s, from).value && WaitAt(s, WaitSearch(s, from).value)
    ensures forall i :: from <= i < WaitSearch(s, from).value ==> !WaitAt(s, i)
  {
    if !WaitAt(s, from) {
      WaitSearchFound(s, from + 1);
    }
  }

  /** When the search gives up, no match exists. */
  lemma {:induction false} WaitSearchNone(s: string, from: nat)
    requires WaitSearch(s, from).None?
    decreases |s| - from
    ensures forall i :: from <= i ==> !WaitAt(s, i)
  {
    if from < |s| {
      WaitSearchNone(s, from + 1);
    }
  }

  /** The leftmost match of `(\d+)\s*(min|minute)` starts at `i`. */
  ghost predicate FirstWaitAt(s: string, i: nat) {
    WaitAt(s, i) && forall j: nat :: j < i ==> !WaitAt(s, j)
  }

  /** `parseInt(text.match(/(\d+)\s*(min|minute)/i)[1])`: the digits of the first match. */
  function WaitMinutesIn(text: string): (r: Option<nat>)
    ensures r.None? <==> forall i :: !WaitAt(text, i)
    ensures r.Some? ==> exists i :: FirstWaitAt(text, i) && r.value == RunValue(text, i)
  {
    match WaitSearch(text, 0)
    case None =>
      WaitSearchNone(text, 0);
      None
    case Some(i) =>
      WaitSearchFound(text, 0);
      Some(RunValue(text, i))
  }

  /**
   * `message.text?.toLowerCase() || ''`: None where the text is neither nullish nor a
   * string, so that `toLowerCase` does not exist and the handler throws.
   */
  function LoweredText(text: JsValue): (r: Option<string>)
    ensures r.None? <==> !Nullish(text) && !text.Str?
    ensures text.Str? ==> r == Some(Lower(text.s))
    ensures Nullish(text) ==> r == Some("")
  {
    match CallLower(text)
    case None => None
    case Some(v) => if v.Str? then Some(v.s) else Some("")
  }

  /** What one message's lower-cased text sets: the queue position and the wait in seconds. */
  datatype QueueUpdate = QueueUpdate(position: Option<nat>, waitSeconds: Option<nat>)

  /** The text speaks of the queue: it contains both `position` and `queue`. */
  predicate MentionsQueue(lower: string) {
    Includes(lower, "position") && Includes(lower, "queue")
  }

  /** The text speaks of waiting: it contains `average` or `wait`. */
  predicate MentionsWait(lower: string) {
    Includes(lower, "average") || Includes(lower, "wait")
  }

  /**
   * The two checks on the lower-cased text of every incoming message: a position when the
   * text speaks of the queue and has a match, a wait in seconds (the minutes times 60) when
   * it speaks of waiting and has a match.
   */
  function QueueUpdateOf(lower: string): (u: QueueUpdate)
    ensures u.position.Some? <==> MentionsQueue(lower) && exists i, j :: PositionMatch(lower, i, j)
    ensures u.position.Some? ==> exists i, j :: FirstPositionMatch(lower, i, j) && u.position.value == RunValue(lower, j)
    ensures u.waitSeconds.Some? <==> MentionsWait(lower) && exists i :: WaitAt(lower, i)
    ensures u.waitSeconds.Some? ==> exists i :: FirstWaitAt(lower, i) && u.waitSeconds.value == 60 * RunValue(lower, i)
  {
    var position := if MentionsQueue(lower) then PositionIn(lower) else None;
    var minutes := if MentionsWait(lower) then WaitMinutesIn(lower) else None;
    QueueUpdate(position, if minutes.Some? then Some(minutes.value * 60) else None)
  }

  /** The wait the text sets is a whole number of minutes, in seconds. */
  lemma WaitIsWholeMinutes(lower: string)
    ensures QueueUpdateOf(lower).waitSeconds.Some? ==> QueueUpdateOf(lower).waitSeconds.value % 60 == 0
  {
    var u := QueueUpdateOf(lower);
    if u.waitSeconds.Some? {
      var i :| FirstWaitAt(lower, i) && u.waitSeconds.value == 60 * RunValue(lower, i);
      SixtyTimes(RunValue(lower, i));
    }
  }

  lemma SixtyTimes(n: nat)
    ensures (60 * n) % 60 == 0
  {
  }

  // ---- the agent name ----

  /**
   * `name && !name.includes("_") && name.length < 50`. For a string the length is in
   * UTF-16 code units; an array is searched for an element `"_"`. None where the value
   * has no `includes` (a number, `true` or a plain object) and the source throws.
   */
  function NameFilter(name: JsValue): (r: Option<bool>)
    ensures !Truthy(name) ==> r == Some(false)
    ensures name.Str? && name.s != [] ==> r == Some('_' !in name.s && JsLength(name.s) < 50)
    ensures r.None? <==> (name.Num? && name.n != 0) || (name.Bool? && name.b) || name.Obj?
  {
    if !Truthy(name) then Some(false)
    else
      match name
      case Str(s) =>
        Config.IncludesChar(s, '_');
        Some(!Includes(s, "_") && JsLength(s) < 50)
      case Arr(items) => Some(Str("_") !in items && |items| < 50)
      case _ => None
  }

  /**
   * The `showAgentName` rule for `msgs[index]`: from an agent, human, with a name that
   * passes the filter and differs from the previous message's. None where the filter throws.
   */
  function ShowAgentName(msgs: seq<Message>, index: nat): (r: Option<bool>)
    requires index < |msgs|
    ensures r == Some(true) <==>
              msgs[index].from == Agent && msgs[index].agentType == Some(Human)
              && NameFilter(msgs[index].agentName) == Some(true)
              && (index == 0 || msgs[index - 1].agentName != msgs[index].agentName)
    ensures r.None? <==>
              msgs[index].from == Agent && msgs[index].agentType == Some(Human)
              && NameFilter(msgs[index].agentName).None?
  {
    var m := msgs[index];
    if m.from != Agent || !Truthy(m.agentName) || m.agentType != Some(Human) then Some(false)
    else
      match NameFilter(m.agentName)
      case None => None
      case Some(ok) => Some(ok && (index == 0 || msgs[index - 1].agentName != m.agentName))
  }

  /** A name repeated from the previous message is not labelled again. */
  lemma RepeatedNameHidden(msgs: seq<Message>, index: nat)
    requires 0 < index < |msgs| && msgs[index - 1].agentName == msgs[index].agentName
    ensures ShowAgentName(msgs, index) != Some(true)
  {
  }

  // ---- the checks before an upload ----

  const MaxUploadSize: nat := 5 * 1024 * 1024
  const ImageTypes: seq<string> := ["image/jpeg", "image/jpg", "image/png"]
  const DocumentTypes: seq<string> := ["application/pdf", "image/jpeg", "image/jpg", "image/png"]

  datatype FileInfo = FileInfo(name: string, fileType: string, size: nat)

  datatype Verdict = Accepted | Rejected(reason: string)

  /** The camera input's checks: size first, then type. */
  function CheckImage(f: FileInfo): (v: Verdict)
    ensures v.Accepted? <==> f.size <= MaxUploadSize && f.fileType in ImageTypes
  {
    if f.size > MaxUploadSize then Rejected("Image must be less than 5MB")
    else if f.fileType !in ImageTypes then Rejected("Only JPG, JPEG, and PNG images are allowed")
    else Accepted
  }

  /** The file input's checks: size first, then type. */
  function CheckDocument(f: FileInfo): (v: Verdict)
    ensures v.Accepted? <==> f.size <= MaxUploadSize && f.fileType in DocumentTypes
  {
    if f.size > MaxUploadSize then Rejected("File must be less than 5MB")
    else if f.fileType !in DocumentTypes then Rejected("Only PDF, JPG, JPEG, and PNG files are allowed")
    else Accepted
  }

  /** Every image the camera input accepts the file input accepts too, and a PDF only the file input. */
  lemma ImageChecksAreStricter(f: FileInfo)
    ensures CheckImage(f).Accepted? ==> CheckDocument(f).Accepted?
    ensures f.fileType == "application/pdf" ==> !CheckImage(f).Accepted?
    ensures f.fileType == "application/pdf" && f.size <= MaxUploadSize ==> CheckDocument(f).Accepted?
  {
  }
}
