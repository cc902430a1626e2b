/**
 * The display helpers that src/app/search/page.tsx and
 * src/components/search-result-card.tsx each define with the same text:
 * `formatTimestamp` (seconds to "h:mm:ss" / "m:ss") and `formatViewCount`.
 * They are defined once here and used by both page models.
 */
module Formatting {
  import opened Wrappers
  import opened Text
  import opened Json
  import Seqs

  // ----------------------------------------------------------- timestamps

  /** `Math.floor(r / 3600)`. */
  function Hours(r: nat): nat {
    r / 3600
  }

  /** `Math.floor((r % 3600) / 60)`. */
  function Minutes(r: nat): nat {
    (r % 3600) / 60
  }

  /** `r % 60`. */
  function Secs(r: nat): nat {
    r % 60
  }

  /** The three parts recompose the whole and the two lower ones stay below 60. */
  lemma {:induction false} TimestampDecomposition(r: nat)
    ensures Hours(r) * 3600 + Minutes(r) * 60 + Secs(r) == r
    ensures Minutes(r) < 60 && Secs(r) < 60
    ensures Hours(r) > 0 <==> r >= 3600
  {
    var q := r % 3600;
    assert r == Hours(r) * 3600 + q;
    assert q == Minutes(r) * 60 + q % 60;
    assert r == (Hours(r) * 60 + Minutes(r)) * 60 + q % 60;
    assert r % 60 == q % 60;
  }

  /**
   * `formatTimestamp` on a whole number of seconds (the source rounds first):
   * "h:mm:ss" from one hour on, "m:ss" below.
   */
  function FormatTimestamp(seconds: nat): string {
    var h, m, s := Hours(seconds), Minutes(seconds), Secs(seconds);
    if h > 0 then Clock3(h, m, s) else Clock2(m, s)
  }

  /** The "h:mm:ss" label. */
  function Clock3(h: nat, m: nat, s: nat): string {
    NatToString(h) + ":" + Pad2(m) + ":" + Pad2(s)
  }

  /** The "m:ss" label. */
  function Clock2(m: nat, s: nat): string {
    NatToString(m) + ":" + Pad2(s)
  }

  /** One field of a label: a non-empty digit run. */
  function ParseField(f: string): Option<nat> {
    if f != "" && AllDigits(f) then Some(ParseDigits(f)) else None
  }

  /** The colon-separated fields of a label, as `split(':')` gives them. */
  function Fields(stamp: string): (parts: seq<string>)
    ensures |parts| >= 1
  {
    if stamp == [] then [""]
    else
      var rest := Fields(stamp[1..]);
      if stamp[0] == ':' then [""] + rest else [[stamp[0]] + rest[0]] + rest[1..]
  }

  /** A text without a colon is a single field. */
  lemma {:induction false} FieldsOfField(f: string)
    requires ':' !in f
    ensures Fields(f) == [f]
  {
    if f != [] {
      FieldsOfField(f[1..]);
      assert [f[0]] + f[1..] == f;
    }
  }

  /** The first colon ends the first field. */
  lemma {:induction false} FieldsAt(f: string, rest: string)
    requires ':' !in f
    ensures Fields(f + ":" + rest) == [f] + Fields(rest)
  {
    var s := f + ":" + rest;
    if f == [] {
      assert s[1..] == rest;
    } else {
      assert s[1..] == f[1..] + ":" + rest;
      FieldsAt(f[1..], rest);
      assert [f[0]] + f[1..] == f;
    }
  }

  lemma {:induction false} DigitsHaveNoColon(f: string)
    requires AllDigits(f)
    ensures ':' !in f
  {
    assert forall i :: 0 <= i < |f| ==> IsDigit(f[i]);
  }

  /** Reads a label of the form "h:mm:ss" or "m:ss" back into seconds. */
  function ParseTimestamp(stamp: string): Option<nat> {
    ParseFields(Fields(stamp))
  }

  /** Two fields are minutes and seconds, three are hours, minutes and seconds. */
  function ParseFields(parts: seq<string>): Option<nat> {
    if |parts| == 2 then
      match (ParseField(parts[0]), ParseField(parts[1]))
      case (Some(m), Some(s)) => Some(m * 60 + s)
      case _ => None
    else if |parts| == 3 then
      match (ParseField(parts[0]), ParseField(parts[1]), ParseField(parts[2]))
      case (Some(h), Some(m), Some(s)) => Some(h * 3600 + m * 60 + s)
      case _ => None
    else None
  }

  /** The fields of an "h:mm:ss" label are the hour digits and the two padded parts. */
  lemma {:induction false} FieldsClock3(hs: string, pm: string, ps: string)
    requires AllDigits(hs) && AllDigits(pm) && AllDigits(ps)
    ensures Fields(hs + ":" + pm + ":" + ps) == [hs, pm, ps]
  {
    DigitsHaveNoColon(hs);
    DigitsHaveNoColon(pm);
    DigitsHaveNoColon(ps);
    FieldsOfField(ps);
    FieldsAt(pm, ps);
    assert hs + ":" + pm + ":" + ps == hs + ":" + (pm + ":" + ps);
    FieldsAt(hs, pm + ":" + ps);
  }

  /** The fields of an "m:ss" label are the minute digits and the padded seconds. */
  lemma {:induction false} FieldsClock2(ms: string, ps: string)
    requires AllDigits(ms) && AllDigits(ps)
    ensures Fields(ms + ":" + ps) == [ms, ps]
  {
    DigitsHaveNoColon(ms);
    DigitsHaveNoColon(ps);
    FieldsOfField(ps);
    FieldsAt(ms, ps);
  }

  /**
   * A label has three fields from one hour on and two below; every field after
   * the first has exactly two digits; and reading it back gives the seconds.
   */
  lemma {:induction false} TimestampRoundTrip(seconds: nat)
    ensures var parts := Fields(FormatTimestamp(seconds));
      && |parts| == (if seconds >= 3600 then 3 else 2)
      && (forall k :: 1 <= k < |parts| ==> |parts[k]| == 2)
    ensures ParseTimestamp(FormatTimestamp(seconds)) == Some(seconds)
  {
    TimestampDecomposition(seconds);
    if seconds >= 3600 {
      LongTimestamp(seconds);
    } else {
      ShortTimestamp(seconds);
    }
  }

  /** From one hour on the label is hours, padded minutes and padded seconds. */
  lemma {:induction false} LongTimestamp(seconds: nat)
    requires seconds >= 3600
    ensures var parts := Fields(FormatTimestamp(seconds));
      && |parts| == 3 && |parts[1]| == 2 && |parts[2]| == 2
    ensures ParseTimestamp(FormatTimestamp(seconds)) == Some(seconds)
  {
    TimestampDecomposition(seconds);
    Clock3Reads(Hours(seconds), Minutes(seconds), Secs(seconds));
  }

  /** Below an hour the label is minutes and padded seconds. */
  lemma {:induction false} ShortTimestamp(seconds: nat)
    requires seconds < 3600
    ensures var parts := Fields(FormatTimestamp(seconds));
      && |parts| == 2 && |parts[1]| == 2
    ensures ParseTimestamp(FormatTimestamp(seconds)) == Some(seconds)
  {
    TimestampDecomposition(seconds);
    Clock2Reads(Minutes(seconds), Secs(seconds));
  }

  /** An "h:mm:ss" label has three fields, the last two of two digits, and reads back as its seconds. */
  lemma {:induction false} Clock3Reads(h: nat, m: nat, s: nat)
    requires m < 60 && s < 60
    ensures var parts := Fields(Clock3(h, m, s));
      && |parts| == 3 && |parts[1]| == 2 && |parts[2]| == 2
    ensures ParseTimestamp(Clock3(h, m, s)) == Some(h * 3600 + m * 60 + s)
  {
    var hs, pm, ps := NatToString(h), Pad2(m), Pad2(s);
    Pad2Digits(m);
    Pad2Digits(s);
    ParseNatToString(h);
    FieldsClock3(hs, pm, ps);
    ReadClock3(Clock3(h, m, s), hs, pm, ps, h, m, s);
  }

  /** An "m:ss" label has two fields, the second of two digits, and reads back as its seconds. */
  lemma {:induction false} Clock2Reads(m: nat, s: nat)
    requires s < 60
    ensures var parts := Fields(Clock2(m, s));
      && |parts| == 2 && |parts[1]| == 2
    ensures ParseTimestamp(Clock2(m, s)) == Some(m * 60 + s)
  {
    var ms, ps := NatToString(m), Pad2(s);
    Pad2Digits(s);
    ParseNatToString(m);
    FieldsClock2(ms, ps);
    ReadClock2(Clock2(m, s), ms, ps, m, s);
  }

  /** A label of three digit fields reads as hours, minutes and seconds. */
  lemma {:induction false} ReadClock3(stamp: string, hs: string, pm: string, ps: string, h: nat, m: nat, s: nat)
    requires Fields(stamp) == [hs, pm, ps]
    requires ParseField(hs) == Some(h) && ParseField(pm) == Some(m) && ParseField(ps) == Some(s)
    ensures ParseTimestamp(stamp) == Some(h * 3600 + m * 60 + s)
  {
  }

  /** A label of two digit fields reads as minutes and seconds. */
  lemma {:induction false} ReadClock2(stamp: string, ms: string, ps: string, m: nat, s: nat)
    requires Fields(stamp) == [ms, ps]
    requires ParseField(ms) == Some(m) && ParseField(ps) == Some(s)
    ensures ParseTimestamp(stamp) == Some(m * 60 + s)
  {
  }

  // ----------------------------------------------------------- video links

  /** `${url}&t=${Math.round(start_time)}s`, on the already rounded seconds. */
  function VideoLink(url: string, seconds: nat): string {
    url + "&t=" + NatToString(seconds) + "s"
  }

  /** Reads the start second back out of a link built on `url`. */
  function LinkSeconds(url: string, link: string): Option<nat> {
    var prefix := url + "&t=";
    if |link| >= |prefix| + 2 && link[..|prefix|] == prefix && link[|link| - 1] == 's'
      && AllDigits(link[|prefix|..|link| - 1])
    then Some(ParseDigits(link[|prefix|..|link| - 1]))
    else None
  }

  /** A link opens the video at exactly the second it was built with. */
  lemma {:induction false} VideoLinkRoundTrip(url: string, seconds: nat)
    ensures LinkSeconds(url, VideoLink(url, seconds)) == Some(seconds)
  {
    var prefix := url + "&t=";
    var digits := NatToString(seconds);
    var link := VideoLink(url, seconds);
    assert link == prefix + digits + "s";
    assert link[..|prefix|] == prefix;
    assert link[|prefix|..|link| - 1] == digits;
    ParseNatToString(seconds);
  }

  // ----------------------------------------------------------- view counts

  /** `str.replace(/[^0-9]/g, '')`: the decimal digits of `str`, in order. */
  function Digits(str: string): (d: string)
    ensures AllDigits(d)
  {
    Seqs.Filter(str, c => IsDigit(c))
  }

  /**
   * `formatViewCount`. A non-string gives "N/A views"; a string without digits is
   * returned unchanged; otherwise the digits are parsed (so leading zeros go) and
   * printed plainly up to 9999 and through the locale formatter `group` above.
   * The `isNaN(num)` branch of the source cannot be taken: the digit run is non-empty.
   */
  function FormatViewCount(v: JsValue, group: nat -> string): string {
    if !v.JStr? then "N/A views"
    else
      var numberPart := Digits(v.s);
      if numberPart == "" then v.s
      else
        var num := ParseDigits(numberPart);
        (if num > 9999 then group(num) else NatToString(num)) + " views"
  }

  /** The three outcomes of `formatViewCount`, stated from the caller's side. */
  lemma {:induction false} ViewCountCases(v: JsValue, group: nat -> string)
    ensures !v.JStr? ==> FormatViewCount(v, group) == "N/A views"
    ensures v.JStr? && (forall i :: 0 <= i < |v.s| ==> !IsDigit(v.s[i])) ==> FormatViewCount(v, group) == v.s
    ensures v.JStr? && (exists i :: 0 <= i < |v.s| && IsDigit(v.s[i])) ==>
      var n := ParseDigits(Digits(v.s));
      && StartsWith(FormatViewCount(v, group), if n > 9999 then group(n) else NatToString(n))
      && |FormatViewCount(v, group)| == |if n > 9999 then group(n) else NatToString(n)| + 6
      && FormatViewCount(v, group)[|FormatViewCount(v, group)| - 6..] == " views"
  {
    if v.JStr? {
      var d := Digits(v.s);
      if exists i :: 0 <= i < |v.s| && IsDigit(v.s[i]) {
        var i :| 0 <= i < |v.s| && IsDigit(v.s[i]);
        assert v.s[i] in d;
      }
    }
  }

  /** Up to 9999 the count is printed as its canonical decimal: leading zeros of the input are gone. */
  lemma {:induction false} ViewCountDropsLeadingZeros(s: string, group: nat -> string)
    requires Digits(s) != "" && ParseDigits(Digits(s)) <= 9999
    ensures var n := ParseDigits(Digits(s));
      FormatViewCount(JStr(s), group) == NatToString(n) + " views" && (n > 0 ==> FormatViewCount(JStr(s), group)[0] != '0')
  {
  }

  /**
   * Formatting is idempotent when the locale formatter only inserts
   * separators between the digits: "1,234 views" formats to itself.
   */
  lemma {:induction false} ViewCountIdempotent(s: string, group: nat -> string)
    requires forall n: nat :: Digits(group(n)) == NatToString(n)
    ensures FormatViewCount(JStr(FormatViewCount(JStr(s), group)), group) == FormatViewCount(JStr(s), group)
  {
    var d := Digits(s);
    if d != "" {
      var n := ParseDigits(d);
      var t := if n > 9999 then group(n) else NatToString(n);
      var out := t + " views";
      assert FormatViewCount(JStr(s), group) == out;
      assert Digits(t) == NatToString(n) by {
        if n <= 9999 {
          DigitsOfDigits(NatToString(n));
        }
      }
      DigitsOfViews(t);
      ParseNatToString(n);
      assert FormatViewCount(JStr(out), group) == out;
    }
  }

  /** The " views" suffix adds no digits. */
  lemma {:induction false} DigitsOfViews(t: string)
    ensures Digits(t + " views") == Digits(t)
  {
    NoDigitsInViews();
    Seqs.FilterAppend(t, " views", c => IsDigit(c));
  }

  lemma {:induction false} NoDigitsInViews()
    ensures Digits(" views") == ""
  {
    var w := " views";
    assert forall i :: 0 <= i < |w| ==> !IsDigit(w[i]);
  }

  /** A string of digits is its own digit run. */
  lemma {:induction false} DigitsOfDigits(s: string)
    requires AllDigits(s)
    ensures Digits(s) == s
  {
    if s != [] {
      DigitsOfDigits(s[1..]);
    }
  }
}
