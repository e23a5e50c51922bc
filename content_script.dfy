/**
 * The browser extension's content script: the floating chat button, the backdrop and
 * the container holding the widget's iframe, and the handlers that create, show, hide
 * and remove them. Each element is modelled by its inline `style.display`; the page
 * keeps count of the elements attached to it.
 */
module ContentScript {
  import opened Wrappers
  import opened Text
  import opened Js

  /** An element's inline `style.display`: unset, `block`, `flex` or `none` (`Hidden`). */
  datatype Display = Unset | Block | Flex | Hidden

  /** The parts of `window.location` the script reads. */
  datatype Location = Location(protocol: string, host: string, hostname: string, href: string)

  /** One name/value pair of the widget URL's query, in the order `URLSearchParams` keeps. */
  datatype Param = Param(name: string, value: string)

  const EndChatAction: string := "endChat"
  const MinimizeAction: string := "minimizeChat"
  const CopyLinkAction: string := "copyLink"
  const SettingsUpdatedAction: string := "settingsUpdated"

  // ---- encodeURIComponent ----

  /** The characters `encodeURIComponent` leaves as they are. */
  predicate Unreserved(c: char) {
    ('A' <= c <= 'Z') || ('a' <= c <= 'z') || ('0' <= c <= '9')
    || c == '-' || c == '_' || c == '.' || c == '!' || c == '~' || c == '*' || c == '\'' || c == '(' || c == ')'
  }

  /** The UTF-8 bytes of one character. */
  function Utf8(c: char): (bytes: seq<nat>)
    ensures 1 <= |bytes| <= 4
    ensures forall i :: 0 <= i < |bytes| ==> bytes[i] < 256
    ensures (c as int < 0x80) <==> |bytes| == 1
    ensures c as int < 0x80 ==> bytes == [c as int]
  {
    var n := c as int;
    if n < 0x80 then [n]
    else if n < 0x800 then [0xC0 + n / 0x40, 0x80 + n % 0x40]
    else if n < 0x1_0000 then [0xE0 + n / 0x1000, 0x80 + (n / 0x40) % 0x40, 0x80 + n % 0x40]
    else [0xF0 + n / 0x4_0000, 0x80 + (n / 0x1000) % 0x40, 0x80 + (n / 0x40) % 0x40, 0x80 + n % 0x40]
  }

  function UpperHexDigit(d: nat): (c: char)
    requires d < 16
    ensures ('0' <= c <= '9') || ('A' <= c <= 'F')
  {
    if d < 10 then '0' + d as char else 'A' + (d - 10) as char
  }

  /** `%XX` for each byte, with upper-case hexadecimal digits. */
  function PercentBytes(bytes: seq<nat>): (r: string)
    requires forall i :: 0 <= i < |bytes| ==> bytes[i] < 256
    ensures |r| == 3 * |bytes|
    ensures forall i :: 0 <= i < |r| ==> r[i] == '%' || Unreserved(r[i])
  {
    if bytes == [] then []
    else ['%', UpperHexDigit(bytes[0] / 16), UpperHexDigit(bytes[0] % 16)] + PercentBytes(bytes[1..])
  }

  /** `encodeURIComponent(s)`: unreserved characters kept, every other one percent-encoded as UTF-8. */
  function EncodeUriComponent(s: string): (r: string)
    ensures forall i :: 0 <= i < |r| ==> r[i] == '%' || Unreserved(r[i])
  {
    if s == [] then []
    else (if Unreserved(s[0]) then [s[0]] else PercentBytes(Utf8(s[0]))) + EncodeUriComponent(s[1..])
  }

  /** A string of unreserved characters only is encoded as itself. */
  lemma {:induction false} EncodeUnreservedIsIdentity(s: string)
    requires forall i :: 0 <= i < |s| ==> Unreserved(s[i])
    ensures EncodeUriComponent(s) == s
  {
    if s != [] {
      EncodeUnreservedIsIdentity(s[1..]);
      assert [s[0]] + s[1..] == s;
    }
  }

  /** Every character the encoding does not keep becomes `%` and two hex digits per UTF-8 byte. */
  lemma EncodeLength(s: string)
    ensures |EncodeUriComponent(s)| >= |s|
    ensures |EncodeUriComponent(s)| == |s| <==> forall i :: 0 <= i < |s| ==> Unreserved(s[i])
  {
    if s != [] {
      EncodeLength(s[1..]);
      if !Unreserved(s[0]) {
        assert |PercentBytes(Utf8(s[0]))| == 3 * |Utf8(s[0])| >= 3;
      }
      if forall i :: 0 <= i < |s| ==> Unreserved(s[i]) {
        assert forall i :: 0 <= i < |s[1..]| ==> Unreserved(s[1..][i]) by {
          forall i | 0 <= i < |s[1..]| ensures Unreserved(s[1..][i]) {
            assert s[1..][i] == s[i + 1];
          }
        }
      }
      if forall i :: 0 <= i < |s[1..]| ==> Unreserved(s[1..][i]) {
        if Unreserved(s[0]) {
          forall i | 0 <= i < |s| ensures Unreserved(s[i]) {
            if i > 0 { assert s[i] == s[1..][i - 1]; }
          }
        }
      }
    }
  }

  /** The characters that separate the parts of a URL and its query. */
  predicate UrlSeparator(c: char) {
    c == '&' || c == '=' || c == '?' || c == '#' || c == '/' || c == ':' || c == '+'
  }

  /** No separator of a URL survives the encoding: an encoded value stays one query value. */
  lemma EncodedHasNoSeparator(s: string)
    ensures forall i :: 0 <= i < |EncodeUriComponent(s)| ==> !UrlSeparator(EncodeUriComponent(s)[i])
  {
  }

  // ---- the widget URL ----

  /** A parameter that is appended only when the setting is truthy. */
  function OptionalParam(name: string, v: JsValue): (r: seq<Param>)
    ensures |r| <= 1
    ensures r != [] <==> Truthy(v)
    ensures r != [] ==> r[0] == Param(name, ToJsString(v))
  {
    if Truthy(v) then [Param(name, ToJsString(v))] else []
  }

  /**
   * The query of the widget URL `openChat` builds: the three ids, the company (the
   * page's hostname when none is set), the page's origin and address passed through
   * `encodeURIComponent`, then `pauUrl` and `agentsUrl` only when set.
   */
  function WidgetParams(settings: JsValue, page: Location): (r: seq<Param>)
    ensures 6 <= |r| <= 8
    ensures r[0] == Param("orgId", ToJsString(Get(settings, "orgId")))
    ensures r[1] == Param("orgUrl", ToJsString(Get(settings, "orgUrl")))
    ensures r[2] == Param("widgetId", ToJsString(Get(settings, "widgetId")))
    ensures r[3].name == "company"
    ensures r[4] == Param("referrer", EncodeUriComponent(page.protocol + "//" + page.host))
    ensures r[5] == Param("pageUrl", EncodeUriComponent(page.href))
    ensures r[6..] == OptionalParam("pauUrl", Get(settings, "pauUrl")) + OptionalParam("agentsUrl", Get(settings, "agentsUrl"))
  {
    [ Param("orgId", ToJsString(Get(settings, "orgId"))),
      Param("orgUrl", ToJsString(Get(settings, "orgUrl"))),
      Param("widgetId", ToJsString(Get(settings, "widgetId"))),
      Param("company", ToJsString(Or(Get(settings, "company"), Str(page.hostname)))),
      Param("referrer", EncodeUriComponent(page.protocol + "//" + page.host)),
      Param("pageUrl", EncodeUriComponent(page.href)) ]
    + OptionalParam("pauUrl", Get(settings, "pauUrl")) + OptionalParam("agentsUrl", Get(settings, "agentsUrl"))
  }

  /** Without a configured company the widget is told the page's hostname. */
  lemma CompanyDefaultsToHostname(settings: JsValue, page: Location)
    ensures !Truthy(Get(settings, "company")) ==> WidgetParams(settings, page)[3].value == page.hostname
    ensures Truthy(Get(settings, "company")) ==>
              WidgetParams(settings, page)[3].value == ToJsString(Get(settings, "company"))
  {
  }

  /** `pauUrl` is in the query exactly when it is set, and so is `agentsUrl`. */
  lemma OptionalParamsOnlyWhenSet(settings: JsValue, page: Location)
    ensures var r := WidgetParams(settings, page);
            (exists i :: 6 <= i < |r| && r[i].name == "pauUrl") <==> Truthy(Get(settings, "pauUrl"))
    ensures var r := WidgetParams(settings, page);
            (exists i :: 6 <= i < |r| && r[i].name == "agentsUrl") <==> Truthy(Get(settings, "agentsUrl"))
  {
    var r := WidgetParams(settings, page);
    var pau := OptionalParam("pauUrl", Get(settings, "pauUrl"));
    var agents := OptionalParam("agentsUrl", Get(settings, "agentsUrl"));
    assert r[6..] == pau + agents;
    assert "pauUrl" != "agentsUrl" by { assert "pauUrl"[0] != "agentsUrl"[0]; }
    if Truthy(Get(settings, "pauUrl")) {
      assert r[6].name == "pauUrl";
    }
    if Truthy(Get(settings, "agentsUrl")) {
      assert r[6 + |pau|].name == "agentsUrl";
    }
    forall i | 6 <= i < |r|
      ensures r[i].name == "pauUrl" ==> Truthy(Get(settings, "pauUrl"))
      ensures r[i].name == "agentsUrl" ==> Truthy(Get(settings, "agentsUrl"))
    {
      assert r[i] == (pau + agents)[i - 6];
    }
  }

  // ---- clipboard ----

  /**
   * `copyText`: the clipboard API first, then the `execCommand('copy')` fallback; it
   * answers whether either worked and never throws.
   */
  function CopyText(clipboardOk: bool, fallbackOk: bool): (success: bool)
    ensures success ==> clipboardOk || fallbackOk
    ensures clipboardOk ==> success
    ensures !clipboardOk ==> success == fallbackOk
  {
    if clipboardOk then true else fallbackOk
  }

  /** The page text `copyLink` copies: `data.url` when it is a string, else the page's address. */
  function CopyTarget(data: JsValue, href: string): (text: string)
    ensures Get(data, "url").Str? ==> text == Get(data, "url").s
    ensures !Get(data, "url").Str? ==> text == href
  {
    match Get(data, "url")
    case Str(s) => s
    case _ => href
  }

  /** `typeof v === 'object'` for a truthy value: an object or an array. */
  predicate ObjectLike(v: JsValue) {
    v.Obj? || v.Arr?
  }

  /** `n` copies of `x`. */
  function Repeat<T>(x: T, n: nat): (r: seq<T>)
    ensures |r| == n && forall i :: 0 <= i < n ==> r[i] == x
  {
    if n == 0 then [] else [x] + Repeat(x, n - 1)
  }

  function Min(a: nat, b: nat): nat {
    if a <= b then a else b
  }

  /** `display` after `setProperty('display', d)` on an element that may be null. */
  function Restyled(e: Option<Display>, d: Display): (r: Option<Display>)
    ensures r.Some? <==> e.Some?
    ensures r.Some? ==> r.value == d
  {
    if e.Some? then Some(d) else None
  }

  /** The backdrops after `getElementById` found the first and set its display. */
  function RestyleFirst(backdrops: seq<Display>, d: Display): (r: seq<Display>)
    ensures |r| == |backdrops|
    ensures backdrops != [] ==> r[0] == d && r[1..] == backdrops[1..]
    ensures backdrops == [] ==> r == []
  {
    if backdrops == [] then [] else backdrops[0 := d]
  }

  class Widget {
    /** `settings`: what storage returned, or what the last `settingsUpdated` carried. */
    var settings: JsValue
    /** `chatButton`, by its display; None when null. */
    var button: Option<Display>
    /** `chatContainer`, by its display; None when null. */
    var container: Option<Display>
    /** The chat buttons and chat containers attached to the page. */
    var buttonsInPage: nat
    var containersInPage: nat
    /** The backdrops attached to the page, in document order: `getElementById` finds the first. */
    var backdrops: seq<Display>
    /** The `message` listeners registered on the window: one per container created. */
    var listeners: nat

    /**
     * What every handler keeps: the button variable holds the page's one button and the
     * container variable its one container, a container is only shown beside a button
     * created from settings, an open container has a backdrop, and each backdrop came
     * with a listener.
     */
    predicate Valid()
      reads this
    {
      buttonsInPage == (if button.Some? then 1 else 0)
      && containersInPage == (if container.Some? then 1 else 0)
      && (container.Some? ==> button.Some? && backdrops != [])
      && (button.Some? ==> !Nullish(settings))
      && |backdrops| <= listeners
    }

    /** The script's state when it is injected. */
    constructor ()
      ensures Valid()
      ensures settings == Null && button.None? && container.None?
      ensures buttonsInPage == 0 && containersInPage == 0 && backdrops == [] && listeners == 0
    {
      settings := Null;
      button := None;
      container := None;
      buttonsInPage := 0;
      containersInPage := 0;
      backdrops := [];
      listeners := 0;
    }

    /** The gate of `init`: not explicitly disabled, and all three ids set. */
    static predicate InitGate(stored: JsValue) {
      Get(stored, "enabled") != Bool(false)
      && Truthy(Get(stored, "orgId")) && Truthy(Get(stored, "orgUrl")) && Truthy(Get(stored, "widgetId"))
    }

    /** `init`: the stored settings are kept, and the button is created when the gate passes. */
    method Init(stored: JsValue)
      requires Valid() && stored.Obj?
      modifies this
      ensures Valid()
      ensures settings == stored
      ensures InitGate(stored) ==> button == Some(Unset) && buttonsInPage == 1
      ensures !InitGate(stored) ==> button == old(button) && buttonsInPage == old(buttonsInPage)
      ensures container == old(container) && containersInPage == old(containersInPage)
      ensures backdrops == old(backdrops) && listeners == old(listeners)
    {
      settings := stored;
      if InitGate(stored) {
        CreateChatButton();
      }
    }

    /** `createChatButton`: an existing button is removed first, so the page keeps exactly one. */
    method CreateChatButton()
      requires Valid() && !Nullish(settings)
      modifies this
      ensures Valid()
      ensures button == Some(Unset) && buttonsInPage == 1
      ensures settings == old(settings) && container == old(container) && containersInPage == old(containersInPage)
      ensures backdrops == old(backdrops) && listeners == old(listeners)
    {
      if button.Some? {
        buttonsInPage := buttonsInPage - 1;
      }
      button := Some(Unset);
      buttonsInPage := buttonsInPage + 1;
    }

    /**
     * `openChat`, the button's click handler: a hidden container is shown again with
     * its backdrop; an open one is left alone; otherwise one backdrop and one container
     * with the widget's iframe are created and a listener is registered. The button is
     * hidden in the first and the last case. Returns the iframe's query when one is created.
     */
    method OpenChat(page: Location) returns (created: Option<seq<Param>>)
      requires Valid() && button.Some?
      modifies this
      ensures Valid()
      ensures old(container) == Some(Hidden) ==>
                created.None? && container == Some(Block) && button == Some(Hidden)
                && backdrops == RestyleFirst(old(backdrops), Block)
                && containersInPage == old(containersInPage) && listeners == old(listeners)
      ensures old(container).Some? && old(container) != Some(Hidden) ==>
                created.None? && container == old(container) && button == old(button)
                && backdrops == old(backdrops) && containersInPage == old(containersInPage)
                && listeners == old(listeners)
      ensures old(container).None? ==>
                created == Some(WidgetParams(settings, page))
                && container == Some(Unset) && containersInPage == 1 && button == Some(Hidden)
                && backdrops == old(backdrops) + [Unset] && listeners == old(listeners) + 1
      ensures settings == old(settings) && buttonsInPage == old(buttonsInPage)
    {
      if container == Some(Hidden) {
        container := Some(Block);
        backdrops := RestyleFirst(backdrops, Block);
        button := Some(Hidden);
        return None;
      }
      if container.Some? {
        return None;
      }
      var params := CreateChatContainer(page);
      created := Some(params);
    }

    /** The creating branch of `openChat`: button hidden, backdrop and container appended, listener added. */
    method CreateChatContainer(page: Location) returns (params: seq<Param>)
      requires Valid() && button.Some? && container.None?
      modifies this
      ensures Valid()
      ensures params == WidgetParams(settings, page)
      ensures container == Some(Unset) && containersInPage == 1 && button == Some(Hidden)
      ensures backdrops == old(backdrops) + [Unset] && listeners == old(listeners) + 1
      ensures settings == old(settings) && buttonsInPage == old(buttonsInPage)
    {
      button := Some(Hidden);
      params := WidgetParams(settings, page);
      backdrops := backdrops + [Unset];
      container := Some(Unset);
      containersInPage := containersInPage + 1;
      listeners := listeners + 1;
    }

    /** `minimizeChat`: the first backdrop and the container are hidden and the button shown; nothing is removed. */
    method MinimizeChat()
      requires Valid()
      modifies this
      ensures Valid()
      ensures backdrops == RestyleFirst(old(backdrops), Hidden)
      ensures container == Restyled(old(container), Hidden) && button == Restyled(old(button), Flex)
      ensures settings == old(settings) && buttonsInPage == old(buttonsInPage)
      ensures containersInPage == old(containersInPage) && listeners == old(listeners)
    {
      backdrops := RestyleFirst(backdrops, Hidden);
      container := Restyled(container, Hidden);
      button := Restyled(button, Flex);
    }

    /** `endChatSession`: the first backdrop and the container are removed, the button shown. */
    method EndChatSession()
      requires Valid()
      modifies this
      ensures Valid()
      ensures backdrops == if old(backdrops) == [] then [] else old(backdrops)[1..]
      ensures container.None? && containersInPage == 0
      ensures button == Restyled(old(button), Flex)
      ensures settings == old(settings) && buttonsInPage == old(buttonsInPage) && listeners == old(listeners)
    {
      if backdrops != [] {
        backdrops := backdrops[1..];
      }
      if container.Some? {
        containersInPage := containersInPage - 1;
        container := None;
      }
      button := Restyled(button, Flex);
    }

    /**
     * One `message` listener: data that is not a truthy object is ignored; `endChat`,
     * `minimizeChat` and `copyLink` are acted on and anything else only logged. For
     * `copyLink` it answers the copy's success when the source can be posted to.
     */
    method DispatchOnce(data: JsValue, href: string, clipboardOk: bool, fallbackOk: bool, canReply: bool)
      returns (copied: Option<string>, reply: Option<bool>)
      requires Valid()
      modifies this
      ensures Valid()
      ensures copied.Some? <==> ObjectLike(data) && IsString(Get(data, "action"), CopyLinkAction)
      ensures copied.Some? ==> copied.value == CopyTarget(data, href)
      ensures reply.Some? <==> ObjectLike(data) && IsString(Get(data, "action"), CopyLinkAction) && canReply
      ensures reply.Some? ==> reply.value == CopyText(clipboardOk, fallbackOk)
      ensures ObjectLike(data) && IsString(Get(data, "action"), EndChatAction) ==>
                backdrops == (if old(backdrops) == [] then [] else old(backdrops)[1..])
                && container.None? && containersInPage == 0 && button == Restyled(old(button), Flex)
      ensures ObjectLike(data) && IsString(Get(data, "action"), MinimizeAction) ==>
                backdrops == RestyleFirst(old(backdrops), Hidden)
                && container == Restyled(old(container), Hidden) && button == Restyled(old(button), Flex)
                && containersInPage == old(containersInPage)
      ensures !(ObjectLike(data) && (IsString(Get(data, "action"), EndChatAction)
                                     || IsString(Get(data, "action"), MinimizeAction))) ==>
                backdrops == old(backdrops) && container == old(container) && button == old(button)
                && containersInPage == old(containersInPage)
      ensures settings == old(settings) && buttonsInPage == old(buttonsInPage) && listeners == old(listeners)
    {
      copied, reply := None, None;
      if !ObjectLike(data) {
        return;
      }
      var action := Get(data, "action");
      if IsString(action, EndChatAction) {
        EndChatSession();
      } else if IsString(action, MinimizeAction) {
        MinimizeChat();
      } else if IsString(action, CopyLinkAction) {
        copied := Some(CopyTarget(data, href));
        var success := CopyText(clipboardOk, fallbackOk);
        if canReply {
          reply := Some(success);
        }
      }
    }

    /**
     * A window `message` event: every registered listener handles it in turn. `endChat`
     * removes one backdrop per listener, `minimizeChat` is the same for one listener or
     * several, and `copyLink` is copied and answered once per listener.
     */
    method OnWindowMessage(data: JsValue, href: string, clipboardOk: bool, fallbackOk: bool, canReply: bool)
      returns (copies: seq<string>, replies: seq<bool>)
      requires Valid()
      modifies this
      ensures Valid()
      ensures ObjectLike(data) && IsString(Get(data, "action"), CopyLinkAction) ==>
                copies == Repeat(CopyTarget(data, href), old(listeners))
      ensures !(ObjectLike(data) && IsString(Get(data, "action"), CopyLinkAction)) ==> copies == []
      ensures ObjectLike(data) && IsString(Get(data, "action"), CopyLinkAction) && canReply ==>
                replies == Repeat(CopyText(clipboardOk, fallbackOk), old(listeners))
      ensures !(ObjectLike(data) && IsString(Get(data, "action"), CopyLinkAction) && canReply) ==> replies == []
      ensures ObjectLike(data) && IsString(Get(data, "action"), EndChatAction) && old(listeners) > 0 ==>
                backdrops == old(backdrops)[Min(old(listeners), |old(backdrops)|)..]
                && container.None? && containersInPage == 0 && button == Restyled(old(button), Flex)
      ensures ObjectLike(data) && IsString(Get(data, "action"), MinimizeAction) && old(listeners) > 0 ==>
                backdrops == RestyleFirst(old(backdrops), Hidden)
                && container == Restyled(old(container), Hidden) && button == Restyled(old(button), Flex)
                && containersInPage == old(containersInPage)
      ensures old(listeners) == 0 || !(ObjectLike(data) && (IsString(Get(data, "action"), EndChatAction)
                                                           || IsString(Get(data, "action"), MinimizeAction))) ==>
                backdrops == old(backdrops) && container == old(container) && button == old(button)
                && containersInPage == old(containersInPage)
      ensures settings == old(settings) && buttonsInPage == old(buttonsInPage) && listeners == old(listeners)
    {
      copies, replies := [], [];
      var k := 0;
      while k < listeners
        invariant 0 <= k <= listeners == old(listeners)
        invariant Valid()
        invariant ObjectLike(data) && IsString(Get(data, "action"), CopyLinkAction) ==>
                    copies == Repeat(CopyTarget(data, href), k)
        invariant !(ObjectLike(data) && IsString(Get(data, "action"), CopyLinkAction)) ==> copies == []
        invariant settings == old(settings) && buttonsInPage == old(buttonsInPage)
        invariant ObjectLike(data) && IsString(Get(data, "action"), CopyLinkAction) && canReply ==>
                    replies == Repeat(CopyText(clipboardOk, fallbackOk), k)
        invariant !(ObjectLike(data) && IsString(Get(data, "action"), CopyLinkAction) && canReply) ==> replies == []
        invariant ObjectLike(data) && IsString(Get(data, "action"), EndChatAction) && k > 0 ==>
                    backdrops == old(backdrops)[Min(k, |old(backdrops)|)..]
                    && container.None? && containersInPage == 0 && button == Restyled(old(button), Flex)
        invariant ObjectLike(data) && IsString(Get(data, "action"), MinimizeAction) && k > 0 ==>
                    backdrops == RestyleFirst(old(backdrops), Hidden)
                    && container == Restyled(old(container), Hidden) && button == Restyled(old(button), Flex)
                    && containersInPage == old(containersInPage)
        invariant k == 0 || !(ObjectLike(data) && (IsString(Get(data, "action"), EndChatAction)
                                                   || IsString(Get(data, "action"), MinimizeAction))) ==>
                    backdrops == old(backdrops) && container == old(container) && button == old(button)
                    && containersInPage == old(containersInPage)
      {
        var copied, reply := DispatchOnce(data, href, clipboardOk, fallbackOk, canReply);
        if copied.Some? {
          copies := copies + [copied.value];
        }
        if reply.Some? {
          replies := replies + [reply.value];
        }
        k := k + 1;
      }
    }

    /**
     * The `settingsUpdated` runtime message: the new settings are kept, the button and
     * the container are removed and nulled, and the button comes back when `enabled` and
     * `orgId` are both truthy. Reading `enabled` of missing settings throws. The
     * backdrops are left as they are.
     */
    method OnSettingsUpdated(message: JsValue) returns (threw: bool)
      requires Valid()
      modifies this
      ensures Valid()
      ensures threw <==> Nullish(message) || (IsString(Get(message, "action"), SettingsUpdatedAction)
                                              && Nullish(Get(message, "settings")))
      ensures !Nullish(message) && !IsString(Get(message, "action"), SettingsUpdatedAction) ==>
                settings == old(settings) && button == old(button) && container == old(container)
                && buttonsInPage == old(buttonsInPage) && containersInPage == old(containersInPage)
      ensures !Nullish(message) && IsString(Get(message, "action"), SettingsUpdatedAction) ==>
                settings == Get(message, "settings") && container.None? && containersInPage == 0
                && (!threw && Truthy(Get(settings, "enabled")) && Truthy(Get(settings, "orgId")) ==>
                      button == Some(Unset) && buttonsInPage == 1)
                && (!(!threw && Truthy(Get(settings, "enabled")) && Truthy(Get(settings, "orgId"))) ==>
                      button.None? && buttonsInPage == 0)
      ensures backdrops == old(backdrops) && listeners == old(listeners)
    {
      if Nullish(message) {
        return true;
      }
      if !IsString(Get(message, "action"), SettingsUpdatedAction) {
        return false;
      }
      settings := Get(message, "settings");
      ClearWidget();
      if Nullish(settings) {
        return true;
      }
      threw := false;
      if Truthy(Get(settings, "enabled")) && Truthy(Get(settings, "orgId")) {
        CreateChatButton();
      }
    }

    /** The removal in `settingsUpdated`: button and container leave the page and are nulled. */
    method ClearWidget()
      requires buttonsInPage == (if button.Some? then 1 else 0)
      requires containersInPage == (if container.Some? then 1 else 0)
      requires |backdrops| <= listeners
      modifies this
      ensures Valid()
      ensures button.None? && container.None? && buttonsInPage == 0 && containersInPage == 0
      ensures settings == old(settings) && backdrops == old(backdrops) && listeners == old(listeners)
    {
      if button.Some? {
        buttonsInPage := buttonsInPage - 1;
      }
      if container.Some? {
        containersInPage := containersInPage - 1;
      }
      button := None;
      container := None;
    }

    /**
     * `settingsUpdated` as evidently intended: the whole chat UI is torn down, the
     * backdrops included, before the button is re-created.
     */
    method OnSettingsUpdatedTearingDown(message: JsValue) returns (threw: bool)
      requires Valid()
      modifies this
      ensures Valid()
      ensures threw <==> Nullish(message) || (IsString(Get(message, "action"), SettingsUpdatedAction)
                                              && Nullish(Get(message, "settings")))
      ensures !Nullish(message) && IsString(Get(message, "action"), SettingsUpdatedAction) ==>
                settings == Get(message, "settings") && container.None? && containersInPage == 0 && backdrops == []
                && (!threw && Truthy(Get(settings, "enabled")) && Truthy(Get(settings, "orgId")) ==>
                      button == Some(Unset) && buttonsInPage == 1)
                && (!(!threw && Truthy(Get(settings, "enabled")) && Truthy(Get(settings, "orgId"))) ==>
                      button.None? && buttonsInPage == 0)
      ensures !(!Nullish(message) && IsString(Get(message, "action"), SettingsUpdatedAction)) ==>
                settings == old(settings) && button == old(button) && container == old(container)
                && buttonsInPage == old(buttonsInPage) && containersInPage == old(containersInPage)
                && backdrops == old(backdrops)
      ensures listeners == old(listeners)
    {
      if Nullish(message) {
        return true;
      }
      if !IsString(Get(message, "action"), SettingsUpdatedAction) {
        return false;
      }
      settings := Get(message, "settings");
      ClearWidget();
      backdrops := [];
      if Nullish(settings) {
        return true;
      }
      threw := false;
      if Truthy(Get(settings, "enabled")) && Truthy(Get(settings, "orgId")) {
        CreateChatButton();
      }
    }
  }

  /** The `settingsUpdated` message, carrying `settings`. */
  function SettingsMessage(settings: JsValue): JsValue {
    Obj([Prop("action", Str(SettingsUpdatedAction)), Prop("settings", settings)])
  }

  lemma SettingsMessageFields(settings: JsValue)
    ensures Get(SettingsMessage(settings), "action") == Str(SettingsUpdatedAction)
    ensures Get(SettingsMessage(settings), "settings") == settings
  {
    assert "settings" != "action" by { assert "settings"[0] != "action"[0]; }
    var props := SettingsMessage(settings).props;
    assert props[..1] == [Prop("action", Str(SettingsUpdatedAction))];
    assert Lookup(props, "action") == Lookup(props[..1], "action");
  }

  /**
   * Opening the chat and then saving new settings leaves the backdrop attached to the
   * page with no container above it; opening the chat again adds a second one.
   */
  method SettingsUpdateLeavesBackdrop(w: Widget, page: Location, s: JsValue)
    requires w.Valid() && w.button.Some? && w.container.None? && w.backdrops == []
    requires s.Obj? && Truthy(Get(s, "enabled")) && Truthy(Get(s, "orgId"))
    modifies w
    ensures w.Valid()
    ensures |w.backdrops| == 2 && w.container == Some(Unset)
  {
    var created := w.OpenChat(page);
    SettingsMessageFields(s);
    var threw := w.OnSettingsUpdated(SettingsMessage(s));
    created := w.OpenChat(page);
  }

  /** With the backdrops torn down, the same steps leave exactly the new backdrop. */
  method SettingsUpdateClearsBackdrop(w: Widget, page: Location, s: JsValue)
    requires w.Valid() && w.button.Some? && w.container.None? && w.backdrops == []
    requires s.Obj? && Truthy(Get(s, "enabled")) && Truthy(Get(s, "orgId"))
    modifies w
    ensures w.Valid()
    ensures w.backdrops == [Unset] && w.container == Some(Unset)
  {
    var created := w.OpenChat(page);
    SettingsMessageFields(s);
    var threw := w.OnSettingsUpdatedTearingDown(SettingsMessage(s));
    created := w.OpenChat(page);
  }

  /** Opening, ending and opening the chat again registers the message listener twice. */
  method OpenEndOpen(w: Widget, page: Location)
    requires w.Valid() && w.button.Some? && w.container.None? && w.listeners == 0
    modifies w
    ensures w.Valid() && w.listeners == 2
  {
    var created := w.OpenChat(page);
    w.EndChatSession();
    created := w.OpenChat(page);
  }

  /**
   * A chat opened, ended and opened again has two listeners: a `copyLink` from the
   * widget is copied twice and answered twice.
   */
  method ReopenedChatAnswersTwice(w: Widget, page: Location, data: JsValue, href: string, clipboardOk: bool)
    returns (copies: seq<string>, replies: seq<bool>)
    requires w.Valid() && w.button.Some? && w.container.None? && w.listeners == 0
    requires data.Obj? && IsString(Get(data, "action"), CopyLinkAction)
    modifies w
    ensures w.Valid() && w.listeners == 2
    ensures copies == [CopyTarget(data, href), CopyTarget(data, href)]
    ensures replies == [true, true]
  {
    OpenEndOpen(w, page);
    copies, replies := w.OnWindowMessage(data, href, clipboardOk, true, true);
    assert Repeat(CopyTarget(data, href), 2) == [CopyTarget(data, href), CopyTarget(data, href)];
    assert Repeat(CopyText(clipboardOk, true), 2) == [true, true];
  }

  /** Minimising and re-opening shows the same container again: no second iframe is created. */
  method MinimizeThenReopen(w: Widget, page: Location)
    requires w.Valid() && w.container.Some?
    modifies w
    ensures w.Valid()
    ensures w.container == Some(Block) && w.button == Some(Hidden)
    ensures w.containersInPage == 1 && |w.backdrops| == |old(w.backdrops)| && w.listeners == old(w.listeners)
  {
    w.MinimizeChat();
    var created := w.OpenChat(page);
    assert created.None?;
  }
}
