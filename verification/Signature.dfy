/**
The webhook signature header: printed as `t=<timestamp>,v1=<hex>`, parsed with `split`, `dict` and `int` as Python
defines them on ASCII text. The clock is an argument and HMAC (section 2 of RFC 2104) is any function to hex strings.
 */
module Signature {
  import opened Prelude

  type Mac = (string, string) -> string

  /** What a call returns or the exception that leaves it. */
  datatype Outcome = Answer(accepted: bool) | ValueError | TypeError

  // ----- decimal text

  predicate IsDigit(c: char) { '0' <= c <= '9' }

  function DigitValue(c: char): nat
    requires IsDigit(c)
  {
    c as int - '0' as int
  }

  function Digit(d: nat): (c: char)
    requires d < 10
    ensures IsDigit(c) && DigitValue(c) == d
  {
    ('0' as int + d) as char
  }

  function PrintNat(n: nat): string {
    if n < 10 then [Digit(n)] else PrintNat(n / 10) + [Digit(n % 10)]
  }

  function Print(n: int): string {
    if n < 0 then "-" + PrintNat(-n) else PrintNat(n)
  }

  /** Digits with single underscores between them. */
  function ParseDigits(s: string): Option<nat> {
    if s == "" || !IsDigit(s[|s| - 1]) then None
    else if |s| == 1 then Some(DigitValue(s[0]))
    else
      var front := if s[|s| - 2] == '_' then s[..|s| - 2] else s[..|s| - 1];
      Shifted(ParseDigits(front), DigitValue(s[|s| - 1]))
  }

  function Shifted(front: Option<nat>, d: nat): Option<nat> {
    if front.None? then None else Some(10 * front.value + d)
  }

  predicate IsSpace(c: char) { c == ' ' || '\t' <= c <= '\r' }

  function StripLeft(s: string): string {
    if s != "" && IsSpace(s[0]) then StripLeft(s[1..]) else s
  }

  function StripRight(s: string): string {
    if s != "" && IsSpace(s[|s| - 1]) then StripRight(s[..|s| - 1]) else s
  }

  function Signed(negative: bool, magnitude: nat): int { if negative then 0 - magnitude else magnitude }

  /** `int(s)`: surrounding white space, one optional sign, then digits. */
  function ParseInt(s: string): Option<int> {
    var t := StripRight(StripLeft(s));
    if t != "" && (t[0] == '-' || t[0] == '+') then
      var magnitude := ParseDigits(t[1..]);
      if magnitude.None? then None else Some(Signed(t[0] == '-', magnitude.value))
    else
      var magnitude := ParseDigits(t);
      if magnitude.None? then None else Some(magnitude.value)
  }

  predicate AllDigits(s: string) {
    forall i :: 0 <= i < |s| ==> IsDigit(s[i])
  }

  lemma ParseLastDigit(front: string, c: char)
    requires IsDigit(c)
    requires front != "" && front[|front| - 1] != '_'
    ensures ParseDigits(front + [c])
         == Shifted(ParseDigits(front), DigitValue(c))
  {
    var text := front + [c];
    assert text[..|text| - 1] == front;
  }

  lemma {:induction false} DigitsRoundTrip(n: nat)
    ensures PrintNat(n) != "" && AllDigits(PrintNat(n))
    ensures ParseDigits(PrintNat(n)) == Some(n)
    ensures PrintNat(n)[0] == '0' ==> n == 0
  {
    if n < 10 {
      assert [Digit(n)][..0] == "";
    } else {
      DigitsRoundTrip(n / 10);
      ParseLastDigit(PrintNat(n / 10), Digit(n % 10));
    }
  }

  /** Every integer survives printing and `int`, and its text has no character the header uses. */
  lemma IntRoundTrip(n: int)
    ensures ParseInt(Print(n)) == Some(n)
    ensures Print(n)[0] == '0' ==> n == 0
    ensures forall i :: 0 <= i < |Print(n)| ==> IsDigit(Print(n)[i]) || Print(n)[i] == '-'
  {
    DigitsRoundTrip(if n < 0 then -n else n);
    var text := Print(n);
    assert IsDigit(text[|text| - 1]);
    assert StripRight(StripLeft(text)) == text;
    assert n < 0 ==> text[1..] == PrintNat(-n);
  }

  // ----- splitting

  /** `s.split(c)`. */
  function Split(s: string, c: char): (parts: seq<string>)
    ensures |parts| >= 1
  {
    if s == "" then [""]
    else
      var rest := Split(s[1..], c);
      if s[0] == c then [""] + rest else [[s[0]] + rest[0]] + rest[1..]
  }

  function Join(parts: seq<string>, c: char): string
    requires |parts| >= 1
  {
    if |parts| == 1 then parts[0] else parts[0] + [c] + Join(parts[1..], c)
  }

  /** Splitting loses nothing, and no part holds the separator. */
  lemma {:induction false} SplitJoin(s: string, c: char)
    ensures Join(Split(s, c), c) == s
    ensures forall k :: 0 <= k < |Split(s, c)| ==> c !in Split(s, c)[k]
  {
    if s != "" {
      SplitJoin(s[1..], c);
      var rest := Split(s[1..], c);
      var all := Split(s, c);
      assert s == [s[0]] + s[1..];
      if s[0] == c {
        assert all[1..] == rest;
      } else {
        assert all[1..] == rest[1..];
        if |rest| > 1 {
          assert all[0] + [c] + Join(rest[1..], c) == [s[0]] + (rest[0] + [c] + Join(rest[1..], c));
        }
      }
    }
  }

  lemma {:induction false} SplitWhole(s: string, c: char)
    requires c !in s
    ensures Split(s, c) == [s]
  {
    if s != "" {
      SplitWhole(s[1..], c);
      assert s == [s[0]] + s[1..];
    }
  }

  lemma {:induction false} SplitFirst(a: string, c: char, b: string)
    requires c !in a
    ensures Split(a + [c] + b, c) == [a] + Split(b, c)
  {
    var s := a + [c] + b;
    if a == "" {
      assert s[1..] == b;
    } else {
      SplitFirst(a[1..], c, b);
      assert s[1..] == a[1..] + [c] + b;
      assert a == [a[0]] + a[1..];
    }
  }

  // ----- the header

  /** The pairs `dict` is built from; None stands for its ValueError. */
  function Pairs(pieces: seq<string>): Option<seq<(string, string)>> {
    if pieces == [] then Some([])
    else if '=' !in pieces[0] then Pairs(pieces[1..])
    else
      var pair := Split(pieces[0], '=');
      var rest := Pairs(pieces[1..]);
      if |pair| != 2 || rest.None? then None else Some([(pair[0], pair[1])] + rest.value)
  }

  /** `dict(pairs).get(key)`: the last pair with the key wins. */
  function LookUp(pairs: seq<(string, string)>, key: string): Option<string> {
    if pairs == [] then None
    else if pairs[|pairs| - 1].0 == key then Some(pairs[|pairs| - 1].1)
    else LookUp(pairs[..|pairs| - 1], key)
  }

  function Header(timestamp: int, signature: string): string {
    "t=" + Print(timestamp) + ",v1=" + signature
  }

  function SignedText(timestamp: int, payload: string): string {
    Print(timestamp) + "." + payload
  }

  function Generate(payload: string, secret: string, timestamp: int, mac: Mac): string {
    Header(timestamp, mac(secret, SignedText(timestamp, payload)))
  }

  predicate IsAscii(s: string) { forall i :: 0 <= i < |s| ==> s[i] < 128 as char }

  function Distance(a: int, b: int): nat { if a < b then b - a else a - b }

  function Verify(payload: string, header: string, secret: string, tolerance: int, now: int, mac: Mac): Outcome {
    if header == "" || secret == "" then Answer(false)
    else
      var parts := Pairs(Split(header, ','));
      if parts.None? then ValueError
      else
        var timestamp: Option<string> := LookUp(parts.value, "t");
        var received: Option<string> := LookUp(parts.value, "v1");
        if timestamp.None? || received.None? || timestamp.value == "" || received.value == "" then Answer(false)
        else
          var ts := ParseInt(timestamp.value);
          if ts.None? then Answer(false)
          else if Distance(now, ts.value) > tolerance then Answer(false)
          else
            var expected := Pairs(Split(Generate(payload, secret, ts.value, mac), ','));
            if expected.None? then ValueError
            else
              var signature: Option<string> := LookUp(expected.value, "v1");
              if signature.None? || !IsAscii(received.value) then TypeError
              else Answer(received.value == signature.value)
  }

  predicate IsHex(s: string) {
    s != "" && forall i :: 0 <= i < |s| ==> IsDigit(s[i]) || 'a' <= s[i] <= 'f'
  }

  ghost predicate HexMac(mac: Mac) {
    forall secret, text :: IsHex(mac(secret, text))
  }

  // ----- round trip

  lemma PieceRoundTrip(key: string, value: string)
    requires '=' !in key && '=' !in value
    ensures '=' in key + "=" + value
    ensures Split(key + "=" + value, '=') == [key, value]
  {
    SplitFirst(key, '=', value);
    SplitWhole(value, '=');
    assert (key + "=" + value)[|key|] == '=';
  }

  lemma HeaderSplits(timestamp: string, signature: string)
    requires ',' !in timestamp && ',' !in signature
    ensures Split("t=" + timestamp + ",v1=" + signature, ',') == ["t" + "=" + timestamp, "v1" + "=" + signature]
  {
    var first, second := "t" + "=" + timestamp, "v1" + "=" + signature;
    assert "t=" + timestamp + ",v1=" + signature == first + [','] + second;
    SplitFirst(first, ',', second);
    SplitWhole(second, ',');
  }

  lemma PairsStep(key: string, value: string, rest: seq<string>)
    requires '=' !in key && '=' !in value
    ensures Pairs([key + "=" + value] + rest) == if Pairs(rest).None? then None else Some([(key, value)] + Pairs(rest).value)
  {
    PieceRoundTrip(key, value);
    assert ([key + "=" + value] + rest)[1..] == rest;
  }

  lemma LookUpTwo(key: string, value: string, key': string, value': string)
    requires key != key'
    ensures LookUp([(key, value), (key', value')], key) == Some(value)
    ensures LookUp([(key, value), (key', value')], key') == Some(value')
  {
    assert [(key, value), (key', value')][..1] == [(key, value)];
  }

  /** A piece without `=` is skipped, and of two pairs with one key the later one wins. */
  lemma LastPairWins(pairs: seq<(string, string)>, pieces: seq<string>, piece: string, key: string, other: string, value: string)
    ensures '=' !in piece ==> Pairs([piece] + pieces) == Pairs(pieces)
    ensures LookUp([], key) == None
    ensures LookUp(pairs + [(other, value)], key) == if other == key then Some(value) else LookUp(pairs, key)
  {
    assert ([piece] + pieces)[1..] == pieces;
    assert (pairs + [(other, value)])[..|pairs|] == pairs;
  }

  /** A generated header parses back to its timestamp and its signature. */
  lemma HeaderRoundTrip(timestamp: int, signature: string)
    requires IsHex(signature)
    ensures Pairs(Split("t=" + Print(timestamp) + ",v1=" + signature, ',')) == Some([("t", Print(timestamp)), ("v1", signature)])
    ensures LookUp([("t", Print(timestamp)), ("v1", signature)], "t") == Some(Print(timestamp))
    ensures LookUp([("t", Print(timestamp)), ("v1", signature)], "v1") == Some(signature)
    ensures ParseInt(Print(timestamp)) == Some(timestamp)
  {
    IntRoundTrip(timestamp);
    HeaderSplits(Print(timestamp), signature);
    PairsStep("v1", signature, []);
    assert ["v1" + "=" + signature] + [] == ["v1" + "=" + signature];
    assert [("v1", signature)] + [] == [("v1", signature)];
    assert Pairs(["v1" + "=" + signature]) == Some([("v1", signature)]);
    PairsStep("t", Print(timestamp), ["v1" + "=" + signature]);
    assert [("t", Print(timestamp))] + [("v1", signature)] == [("t", Print(timestamp)), ("v1", signature)];
    assert ["t" + "=" + Print(timestamp)] + ["v1" + "=" + signature] == ["t" + "=" + Print(timestamp), "v1" + "=" + signature];
    LookUpTwo("t", Print(timestamp), "v1", signature);
  }

  /** The exact answer: the header's own reading of `v1` is the MAC of the text it would have signed. */
  lemma VerifyMeans(payload: string, header: string, secret: string, tolerance: int, now: int, mac: Mac)
    requires HexMac(mac)
    ensures Verify(payload, header, secret, tolerance, now, mac) == Answer(true) <==>
      && secret != ""
      && var parts := Pairs(Split(header, ','));
      && parts.Some? && LookUp(parts.value, "t").Some?
      && var ts := ParseInt(LookUp(parts.value, "t").value);
      && ts.Some? && now - tolerance <= ts.value <= now + tolerance
      && LookUp(parts.value, "v1") == Some(mac(secret, Print(ts.value) + "." + payload))
  {
    var parts := Pairs(Split(header, ','));
    assert ParseInt("").None?;
    if header == "" {
      assert Pairs([""]) == Some([]) by { assert [""][1..] == []; }
    } else if parts.Some? && LookUp(parts.value, "t").Some? {
      var ts := ParseInt(LookUp(parts.value, "t").value);
      if ts.Some? {
        assert IsHex(mac(secret, SignedText(ts.value, payload)));
        HeaderRoundTrip(ts.value, mac(secret, SignedText(ts.value, payload)));
      }
    }
  }

  /** A generated header is accepted exactly while the timestamp is within the tolerance, and never raises. */
  lemma OwnHeaderAccepted(payload: string, secret: string, timestamp: int, tolerance: int, now: int, mac: Mac)
    requires HexMac(mac) && secret != ""
    ensures Generate(payload, secret, timestamp, mac) == "t=" + Print(timestamp) + ",v1=" + mac(secret, Print(timestamp) + "." + payload)
    ensures Verify(payload, Generate(payload, secret, timestamp, mac), secret, tolerance, now, mac)
         == Answer(now - tolerance <= timestamp <= now + tolerance)
  {
    var signature := mac(secret, SignedText(timestamp, payload));
    assert IsHex(signature);
    HeaderRoundTrip(timestamp, signature);
    DigitsRoundTrip(if timestamp < 0 then -timestamp else timestamp);
  }

  lemma PrefixUnique(a: string, b: string, x: string, y: string, c: char)
    requires c !in a && c !in b
    requires a + [c] + x == b + [c] + y
    ensures a == b && x == y
  {
    SplitFirst(a, c, x);
    SplitFirst(b, c, y);
    assert a == Split(a + [c] + x, c)[0] == b;
    assert x == (a + [c] + x)[|a| + 1..] == y;
  }

  /** The signed text determines the timestamp and the payload. */
  lemma SignedTextInjective(t: int, p: string, u: int, q: string)
    ensures SignedText(t, p) == SignedText(u, q) <==> t == u && p == q
  {
    if SignedText(t, p) == SignedText(u, q) {
      IntRoundTrip(t);
      IntRoundTrip(u);
      PrefixUnique(Print(t), Print(u), p, q, '.');
    }
  }

  /** A header accepted for two payloads shows two different texts with one MAC. */
  lemma SubstitutionNeedsCollision(p: string, q: string, header: string, secret: string, tolerance: int, now: int, later: int, mac: Mac)
    returns (t: string, u: string)
    requires HexMac(mac) && p != q
    requires Verify(p, header, secret, tolerance, now, mac) == Answer(true)
    requires Verify(q, header, secret, tolerance, later, mac) == Answer(true)
    ensures t != u && mac(secret, t) == mac(secret, u)
  {
    VerifyMeans(p, header, secret, tolerance, now, mac);
    VerifyMeans(q, header, secret, tolerance, later, mac);
    var ts := ParseInt(LookUp(Pairs(Split(header, ',')).value, "t").value).value;
    t, u := SignedText(ts, p), SignedText(ts, q);
    SignedTextInjective(ts, p, ts, q);
  }

  // ----- the exception that escapes

  function Occurrences(s: string, c: char): nat {
    if s == "" then 0 else (if s[0] == c then 1 else 0) + Occurrences(s[1..], c)
  }

  lemma {:induction false} SplitCounts(s: string, c: char)
    ensures |Split(s, c)| == Occurrences(s, c) + 1
    ensures c in s <==> Occurrences(s, c) > 0
  {
    if s != "" {
      SplitCounts(s[1..], c);
      assert s == [s[0]] + s[1..];
    }
  }

  predicate SomeRepeatsEquals(pieces: seq<string>) {
    exists k :: 0 <= k < |pieces| && Occurrences(pieces[k], '=') > 1
  }

  lemma {:induction false} PairsFail(pieces: seq<string>)
    ensures Pairs(pieces).None? <==> SomeRepeatsEquals(pieces)
  {
    if pieces != [] {
      PairsFail(pieces[1..]);
      SplitCounts(pieces[0], '=');
      if k :| 0 <= k < |pieces| && Occurrences(pieces[k], '=') > 1 {
        assert k == 0 || pieces[1..][k - 1] == pieces[k];
      }
      if Pairs(pieces[1..]).None? {
        var k :| 0 <= k < |pieces[1..]| && Occurrences(pieces[1..][k], '=') > 1;
        assert pieces[k + 1] == pieces[1..][k];
      }
    }
  }

  /** Verification raises ValueError exactly when some comma-separated piece has more than one `=`. */
  lemma ValueErrorEscapes(payload: string, header: string, secret: string, tolerance: int, now: int, mac: Mac)
    requires HexMac(mac)
    ensures Verify(payload, header, secret, tolerance, now, mac) == ValueError <==>
      header != "" && secret != "" && SomeRepeatsEquals(Split(header, ','))
  {
    PairsFail(Split(header, ','));
    var parts := Pairs(Split(header, ','));
    if parts.Some? && LookUp(parts.value, "t").Some? {
      var ts := ParseInt(LookUp(parts.value, "t").value);
      if ts.Some? {
        assert IsHex(mac(secret, SignedText(ts.value, payload)));
        HeaderRoundTrip(ts.value, mac(secret, SignedText(ts.value, payload)));
      }
    }
  }

  /** It raises TypeError exactly when everything else checks out and the received signature has a character past ASCII. */
  lemma TypeErrorEscapes(payload: string, header: string, secret: string, tolerance: int, now: int, mac: Mac)
    requires HexMac(mac)
    ensures Verify(payload, header, secret, tolerance, now, mac) == TypeError <==>
      && secret != ""
      && var parts := Pairs(Split(header, ','));
      && parts.Some? && LookUp(parts.value, "t").Some?
      && var ts := ParseInt(LookUp(parts.value, "t").value);
      && ts.Some? && now - tolerance <= ts.value <= now + tolerance
      && LookUp(parts.value, "v1").Some? && !IsAscii(LookUp(parts.value, "v1").value)
  {
    var parts := Pairs(Split(header, ','));
    assert ParseInt("").None?;
    if header == "" {
      assert Pairs([""]) == Some([]) by { assert [""][1..] == []; }
    } else if parts.Some? && LookUp(parts.value, "t").Some? {
      var ts := ParseInt(LookUp(parts.value, "t").value);
      if ts.Some? {
        assert IsHex(mac(secret, SignedText(ts.value, payload)));
        HeaderRoundTrip(ts.value, mac(secret, SignedText(ts.value, payload)));
      }
    }
  }

  /** Headers that make it raise at time zero: a second `=` in a piece, and an accented letter for a signature. */
  lemma RaisingHeaders(payload: string, secret: string, mac: Mac)
    requires HexMac(mac) && secret != ""
    ensures Verify(payload, "t=0=0", secret, 300, 0, mac) == ValueError
    ensures Verify(payload, "t=0,v1=\U{E9}", secret, 300, 0, mac) == TypeError
  {
    RepeatedEquals();
    AccentedHeader();
    ValueErrorEscapes(payload, "t=0=0", secret, 300, 0, mac);
    TypeErrorEscapes(payload, "t=0,v1=\U{E9}", secret, 300, 0, mac);
  }

  lemma RepeatedEquals()
    ensures SomeRepeatsEquals(Split("t=0=0", ','))
  {
    SplitWhole("t=0=0", ',');
    SplitFirst("t", '=', "0=0");
    SplitFirst("0", '=', "0");
    SplitWhole("0", '=');
    assert "t=0=0" == "t" + ['='] + "0=0" && "0=0" == "0" + ['='] + "0";
    SplitCounts("t=0=0", '=');
    assert Occurrences(Split("t=0=0", ',')[0], '=') > 1;
  }

  lemma AccentedHeader()
    ensures Pairs(Split("t=0,v1=\U{E9}", ',')) == Some([("t", "0"), ("v1", "\U{E9}")])
    ensures LookUp([("t", "0"), ("v1", "\U{E9}")], "t") == Some("0") && LookUp([("t", "0"), ("v1", "\U{E9}")], "v1") == Some("\U{E9}")
    ensures ParseInt("0") == Some(0) && !IsAscii("\U{E9}")
  {
    HeaderSplits("0", "\U{E9}");
    assert "t=" + "0" + ",v1=" + "\U{E9}" == "t=0,v1=\U{E9}";
    PairsStep("v1", "\U{E9}", []);
    assert ["v1" + "=" + "\U{E9}"] + [] == ["v1" + "=" + "\U{E9}"];
    assert [("v1", "\U{E9}")] + [] == [("v1", "\U{E9}")];
    PairsStep("t", "0", ["v1" + "=" + "\U{E9}"]);
    assert ["t" + "=" + "0"] + ["v1" + "=" + "\U{E9}"] == ["t" + "=" + "0", "v1" + "=" + "\U{E9}"];
    assert [("t", "0")] + [("v1", "\U{E9}")] == [("t", "0"), ("v1", "\U{E9}")];
    LookUpTwo("t", "0", "v1", "\U{E9}");
    IntRoundTrip(0);
    assert Print(0) == "0";
    assert "\U{E9}"[0] >= 128 as char;
  }

  /** What `int` reads and what it refuses. */
  lemma IntReads()
    ensures ParseInt(" +1_0") == Some(10) && ParseInt("-7") == Some(-7)
    ensures ParseInt("").None? && ParseInt("1__0").None? && ParseInt("_1").None? && ParseInt("1_").None? && ParseInt("1x").None?
  {
    assert StripLeft(" +1_0") == "+1_0" by { assert " +1_0"[1..] == "+1_0"; }
    assert StripRight("+1_0") == "+1_0";
    assert "+1_0"[1..] == "1_0" && "1_0"[..1] == "1" && "-7"[1..] == "7" && "1__0"[..2] == "1_" && "_1"[..0] == "";
    assert ParseDigits("1_0") == Some(10) && ParseDigits("1__0").None? && ParseDigits("_1").None?;
  }
}
