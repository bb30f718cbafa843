/** Language bootstrap: the stored-language detector, the language cache,
    the right-to-left switch on a language change, and the web reload guard
    that keeps a slow build from reloading the page in a loop. */
module I18n {
  import opened Common

  const LanguageKey := "user-language"
  const DefaultLanguage := "en"
  const GuardKey := "rtl_reload_guard_v3"
  const ReloadWindowMs := 180000

  // ---------------------------------------------------------------------
  // Language detection and caching

  /** The detector: the stored language when the store answers with a
      non-empty value, English when nothing is stored or the read fails. */
  function DetectLanguage(entries: map<string, string>, readFails: bool): (lng: string)
    ensures !readFails && LanguageKey in entries && entries[LanguageKey] != "" ==> lng == entries[LanguageKey]
    ensures readFails || LanguageKey !in entries || entries[LanguageKey] == "" ==> lng == DefaultLanguage
  {
    if readFails then DefaultLanguage
    else if LanguageKey in entries && entries[LanguageKey] != "" then entries[LanguageKey]
    else DefaultLanguage
  }

  /** The device's key-value store. */
  class LanguageStore {
    var entries: map<string, string>

    constructor (entries: map<string, string>)
      ensures this.entries == entries
    {
      this.entries := entries;
    }

    /** The cache writes the language under the language key. */
    method CacheUserLanguage(lng: string)
      modifies this
      ensures entries == old(entries)[LanguageKey := lng]
    {
      entries := entries[LanguageKey := lng];
    }
  }

  /** A language the cache wrote is what the detector next reads back. */
  lemma CachedLanguageIsDetected(entries: map<string, string>, lng: string)
    requires lng != ""
    ensures DetectLanguage(entries[LanguageKey := lng], false) == lng
  {
  }

  /** A language is right-to-left exactly when it is Arabic. */
  function IsRtlLanguage(lng: string): bool
  {
    lng == "ar"
  }

  // ---------------------------------------------------------------------
  // Decimal text of timestamps

  /** The white space and line terminators `parseInt` skips: tab, the
      line breaks, vertical tab, form feed, the byte order mark and the
      Unicode space separators. */
  predicate IsSpace(c: char)
  {
    var u := c as int;
    || (9 <= u <= 13) || u == 0x20 || u == 0xA0 || u == 0x1680
    || (0x2000 <= u <= 0x200A) || u == 0x2028 || u == 0x2029 || u == 0x202F
    || u == 0x205F || u == 0x3000 || u == 0xFEFF
  }

  predicate AllDigits(s: string)
  {
    forall i :: 0 <= i < |s| ==> IsDigit(s[i])
  }

  function DigitChar(d: nat): (c: char)
    requires d < 10
    ensures IsDigit(c) && c as int - '0' as int == d
  {
    ('0' as int + d) as char
  }

  /** `n.toString()` for a non-negative integer: its decimal digits, with
      no leading zero. */
  function NatToString(n: nat): (s: string)
    ensures |s| > 0 && AllDigits(s)
    ensures |s| > 1 ==> s[0] != '0'
  {
    if n < 10 then [DigitChar(n)]
    else
      var init := NatToString(n / 10);
      assert n / 10 > 0;
      init + [DigitChar(n % 10)]
  }

  /** The number a string of decimal digits spells. */
  function DigitsValue(s: string): nat
    requires AllDigits(s)
  {
    if s == [] then 0
    else DigitsValue(s[..|s| - 1]) * 10 + (s[|s| - 1] as int - '0' as int)
  }

  /** The length of the longest prefix made of digits. */
  function DigitPrefixLength(s: string): (k: nat)
    ensures k <= |s| && AllDigits(s[..k])
    ensures k < |s| ==> !IsDigit(s[k])
  {
    if s == [] || !IsDigit(s[0]) then 0
    else
      var k := 1 + DigitPrefixLength(s[1..]);
      assert s[..k] == [s[0]] + s[1..][..k - 1];
      k
  }

  function TrimStart(s: string): (t: string)
    ensures |t| <= |s|
    ensures t != [] ==> !IsSpace(t[0])
  {
    if s != [] && IsSpace(s[0]) then TrimStart(s[1..]) else s
  }

  /** The text `parseInt` reads digits from: leading white space and one
      sign removed. */
  function UnsignedText(s: string): (body: string)
    ensures |body| <= |s|
  {
    var t := TrimStart(s);
    if t != [] && (t[0] == '-' || t[0] == '+') then t[1..] else t
  }

  /** `parseInt(s, 10)`: leading white space is skipped, an optional sign
      is read, then the longest run of digits; with no digit the result is
      NaN, here `None`. */
  function ParseInt(s: string): (r: Option<int>)
    ensures r.None? <==> UnsignedText(s) == [] || !IsDigit(UnsignedText(s)[0])
    ensures r.Some? && !(TrimStart(s) != [] && TrimStart(s)[0] == '-') ==> r.value >= 0
  {
    var t := TrimStart(s);
    var negative := t != [] && t[0] == '-';
    var body := UnsignedText(s);
    var k := DigitPrefixLength(body);
    if k == 0 then None
    else
      var magnitude: int := DigitsValue(body[..k]);
      Some(if negative then -magnitude else magnitude)
  }

  lemma {:induction false} DigitsValueOfNatToString(n: nat)
    ensures DigitsValue(NatToString(n)) == n
  {
    var s := NatToString(n);
    if n >= 10 {
      DigitsValueOfNatToString(n / 10);
      assert s[..|s| - 1] == NatToString(n / 10);
    }
  }

  lemma DigitPrefixOfDigits(s: string)
    requires AllDigits(s)
    ensures DigitPrefixLength(s) == |s|
  {
  }

  /** Round trip: parsing the decimal text of a timestamp gives the
      timestamp back. */
  lemma ParseIntOfNatToString(n: nat)
    ensures ParseInt(NatToString(n)) == Some(n)
  {
    var s := NatToString(n);
    assert TrimStart(s) == s;
    DigitPrefixOfDigits(s);
    assert s[..|s|] == s;
    DigitsValueOfNatToString(n);
  }

  // ---------------------------------------------------------------------
  // The web reload guard

  /** The reload stamp as the guard reads it: 0 when nothing (or an empty
      string) is stored, NaN (`None`) when the stored text has no digits. */
  function LastReload(storage: map<string, string>): (last: Option<int>)
    ensures GuardKey !in storage || storage[GuardKey] == "" ==> last == Some(0)
    ensures last.None? <==>
              GuardKey in storage && storage[GuardKey] != "" && ParseInt(storage[GuardKey]).None?
  {
    if GuardKey in storage && storage[GuardKey] != "" then ParseInt(storage[GuardKey]) else Some(0)
  }

  /** The guard lets a reload through unless the last one was less than the
      window ago. A NaN stamp never blocks: every comparison with NaN is
      false. */
  function ReloadDue(storage: map<string, string>, now: int): (due: bool)
    ensures LastReload(storage).None? ==> due
    ensures LastReload(storage).Some? ==> (due <==> now - LastReload(storage).value >= ReloadWindowMs)
    ensures GuardKey !in storage || storage[GuardKey] == "" ==> (due <==> now >= ReloadWindowMs)
  {
    match LastReload(storage)
    case None => true
    case Some(last) => !(now - last < ReloadWindowMs)
  }

  /** After the guard stamped `stamp`, a reload is due again exactly when
      the window has passed: no two reloads less than three minutes apart. */
  lemma StampBlocksWithinWindow(storage: map<string, string>, stamp: nat, now: int)
    ensures ReloadDue(storage[GuardKey := NatToString(stamp)], now) <==> now - stamp >= ReloadWindowMs
  {
    ParseIntOfNatToString(stamp);
  }

  datatype Dir = Ltr | Rtl

  function DirFor(isRTL: bool): Dir
  {
    if isRTL then Rtl else Ltr
  }

  /** The web page: its local storage, the document's text direction and the
      number of page reloads requested. */
  class WebPage {
    var storage: map<string, string>
    var dir: Option<Dir>
    var reloads: nat

    constructor (storage: map<string, string>)
      ensures this.storage == storage && dir.None? && reloads == 0
    {
      this.storage := storage;
      dir := None;
      reloads := 0;
    }

    /** What one run of the guard does: a due reload with working storage
        stamps the guard with `now` and reloads; every other outcome leaves
        the stamp alone, does not reload, and sets the direction so the page
        stays usable. */
    twostate predicate ReloadHandled(isRTL: bool, now: nat, readFails: bool, writeFails: bool)
      reads this
    {
      if !readFails && !writeFails && ReloadDue(old(storage), now) then
        storage == old(storage)[GuardKey := NatToString(now)] && reloads == old(reloads) + 1 && dir == old(dir)
      else
        storage == old(storage) && reloads == old(reloads) && dir == Some(DirFor(isRTL))
    }

    /** The guarded reload. `readFails` and `writeFails` say whether reading
        and writing local storage throw. */
    method HandleWebReload(isRTL: bool, now: nat, readFails: bool, writeFails: bool)
      modifies this
      ensures ReloadHandled(isRTL, now, readFails, writeFails)
    {
      var lastReload: Option<int> := Some(0);
      if readFails {
        dir := Some(DirFor(isRTL));
        return;
      }
      if GuardKey in storage && storage[GuardKey] != "" {
        lastReload := ParseInt(storage[GuardKey]);
      }
      if lastReload.Some? && now - lastReload.value < ReloadWindowMs {
        dir := Some(DirFor(isRTL));
        return;
      }
      if writeFails {
        dir := Some(DirFor(isRTL));
        return;
      }
      storage := storage[GuardKey := NatToString(now)];
      reloads := reloads + 1;
    }
  }

  /** The language-change listener's view of the platform. */
  class RtlManager {
    /** The platform's current right-to-left state. */
    var isRTL: bool
    /** The last value the listener forced, if any. */
    var forcedRTL: Option<bool>
    /** Native app reloads requested. */
    var nativeReloads: nat
    const isWeb: bool
    const page: WebPage

    constructor (isRTL: bool, isWeb: bool, page: WebPage)
      ensures this.isRTL == isRTL && this.isWeb == isWeb && this.page == page
      ensures forcedRTL.None? && nativeReloads == 0
    {
      this.isRTL := isRTL;
      this.isWeb := isWeb;
      this.page := page;
      forcedRTL := None;
      nativeReloads := 0;
    }

    /** On a language change the direction is forced, and a reload
        requested, only when the language's direction differs from the
        current one. */
    method OnLanguageChanged(lng: string, now: nat, readFails: bool, writeFails: bool)
      modifies this`forcedRTL, this`nativeReloads, page
      ensures IsRtlLanguage(lng) == isRTL ==>
                forcedRTL == old(forcedRTL) && nativeReloads == old(nativeReloads) && unchanged(page)
      ensures IsRtlLanguage(lng) != isRTL ==> forcedRTL == Some(IsRtlLanguage(lng))
      ensures IsRtlLanguage(lng) != isRTL && isWeb ==>
                page.ReloadHandled(IsRtlLanguage(lng), now, readFails, writeFails)
                && nativeReloads == old(nativeReloads)
      ensures IsRtlLanguage(lng) != isRTL && !isWeb ==>
                nativeReloads == old(nativeReloads) + 1 && unchanged(page)
    {
      var rtl := IsRtlLanguage(lng);
      if rtl != isRTL {
        forcedRTL := Some(rtl);
        if isWeb {
          page.HandleWebReload(rtl, now, readFails, writeFails);
        } else {
          nativeReloads := nativeReloads + 1;
        }
      }
    }
  }
}
