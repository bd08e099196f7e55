/**
 The Stripe-Signature header: "t=<unix seconds>,v1=<hex of the MAC>". The MAC is any function of the
 secret and of the signed text.
 */
module Signer {
  import opened Wrappers
  import opened Text

  type Mac = (string, string) -> seq<byte>

  const SECOND := 1_000_000_000

  function SignedText(stamp: int, body: string): string {
    FormatInt(stamp) + "." + body
  }

  function Sign(mac: Mac, body: string, secret: string, now: int): string {
    "t=" + FormatInt(now) + ",v1=" + EncodeHex(mac(secret, SignedText(now, body)))
  }

  datatype Fields = Fields(timestamp: int, v1: string)

  // What one comma-separated part of the header contributes; a later part overrides an earlier one.
  function Take(fields: Fields, part: string): Fields {
    var kv := SplitTwo(TrimSpace(part), '=');
    if |kv| != 2 then fields
    else if kv[0] == "t" then fields.(timestamp := ParsedOrZero(ParseInt(kv[1])))
    else if kv[0] == "v1" then fields.(v1 := kv[1])
    else fields
  }

  function TakeAll(parts: seq<string>): Fields {
    if parts == [] then Fields(0, "") else Take(TakeAll(parts[..|parts| - 1]), parts[|parts| - 1])
  }

  function ParsedHeader(header: string): Option<Fields> {
    var fields := TakeAll(Split(header, ','));
    if fields.timestamp == 0 || fields.v1 == "" then None else Some(fields)
  }

  method ParseSignature(header: string) returns (timestamp: int, v1: string, ok: bool)
    ensures ok <==> ParsedHeader(header).Some?
    ensures ok ==> Fields(timestamp, v1) == ParsedHeader(header).value
    ensures !ok ==> timestamp == 0 && v1 == ""
    ensures var fields := TakeAll(Split(header, ',')); ok <==> fields.timestamp != 0 && fields.v1 != ""
  {
    var parts := Split(header, ',');
    timestamp, v1 := 0, "";
    for i := 0 to |parts|
      invariant Fields(timestamp, v1) == TakeAll(parts[..i])
    {
      assert parts[..i + 1][..i] == parts[..i];
      var kv := SplitTwo(TrimSpace(parts[i]), '=');
      if |kv| != 2 {
        continue;
      }
      if kv[0] == "t" {
        timestamp := ParsedOrZero(ParseInt(kv[1]));
      } else if kv[0] == "v1" {
        v1 := kv[1];
      }
    }
    assert parts[..|parts|] == parts;
    if timestamp == 0 || v1 == "" {
      return 0, "", false;
    }
    return timestamp, v1, true;
  }

  // `tolerance` is in nanoseconds; its whole seconds are compared, and 0 or less skips the check.
  predicate Fresh(stamp: int, now: int, tolerance: int) {
    tolerance > 0 ==> Wrap64(now - stamp) <= tolerance / SECOND
  }

  predicate Verify(mac: Mac, body: string, header: string, secret: string, now: int, tolerance: int) {
    var parsed := ParsedHeader(header);
    && parsed.Some?
    && Fresh(parsed.value.timestamp, now, tolerance)
    && DecodeHex(parsed.value.v1) == Some(mac(secret, SignedText(parsed.value.timestamp, body)))
  }

  // ----- What the header says -----

  predicate Has(part: string, name: string) {
    name + "=" <= TrimSpace(part)
  }

  function TextOf(part: string, name: string): string
    requires Has(part, name)
  {
    TrimSpace(part)[|name| + 1..]
  }

  // The text of the last part that has the name.
  function LastSaid(parts: seq<string>, name: string): Option<string> {
    if parts == [] then None
    else if Has(parts[|parts| - 1], name) then Some(TextOf(parts[|parts| - 1], name))
    else LastSaid(parts[..|parts| - 1], name)
  }

  // The number a part gives as timestamp: none counts as zero, one out of range as the limit it passes.
  predicate IsStamp(text: string, stamp: int) {
    && (ParseInt(text).Value? ==> stamp == ParseInt(text).value)
    && (ParseInt(text).Range? ==> stamp == ParseInt(text).limit)
    && (ParseInt(text).Syntax? ==> stamp == 0)
  }

  ghost predicate Says(parts: seq<string>, fields: Fields) {
    var t, v1 := LastSaid(parts, "t"), LastSaid(parts, "v1");
    && (if t.Some? then IsStamp(t.value, fields.timestamp) else fields.timestamp == 0)
    && fields.v1 == if v1.Some? then v1.value else ""
  }

  lemma HasIff(part: string, name: string)
    requires '=' !in name
    ensures var kv := SplitTwo(TrimSpace(part), '=');
            && (Has(part, name) <==> |kv| == 2 && kv[0] == name)
            && (Has(part, name) ==> TextOf(part, name) == kv[1])
  {
    var s := TrimSpace(part);
    SplitTwoIff(s, '=');
    if Has(part, name) {
      assert s == name + ['='] + s[|name| + 1..];
      SplitTwoAt(name, s[|name| + 1..], '=');
    }
  }

  lemma TakeSays(fields: Fields, part: string)
    ensures var taken := Take(fields, part);
            && (if Has(part, "t") then IsStamp(TextOf(part, "t"), taken.timestamp) else taken.timestamp == fields.timestamp)
            && taken.v1 == if Has(part, "v1") then TextOf(part, "v1") else fields.v1
  {
    HasIff(part, "t");
    HasIff(part, "v1");
  }

  /** The last part that names a field gives it, and a field that no part names is empty. */
  lemma {:induction false} LastPartsCount(parts: seq<string>)
    ensures Says(parts, TakeAll(parts))
  {
    if parts != [] {
      var init, last := parts[..|parts| - 1], parts[|parts| - 1];
      LastPartsCount(init);
      TakeSays(TakeAll(init), last);
    }
  }

  lemma TrimKeeps(s: string)
    requires s != "" && !IsSpace(s[0]) && !IsSpace(s[|s| - 1])
    ensures TrimSpace(s) == s
  {
  }

  lemma FormatIntChars(x: int)
    ensures FormatInt(x) != ""
    ensures forall i :: 0 <= i < |FormatInt(x)| ==> IsDigit(FormatInt(x)[i]) || FormatInt(x)[i] == '-'
  {
  }

  lemma TakeTimestamp(fields: Fields, stamp: int)
    requires IsInt64(stamp)
    ensures Take(fields, "t=" + FormatInt(stamp)) == fields.(timestamp := stamp)
  {
    var digits := FormatInt(stamp);
    FormatIntChars(stamp);
    DecimalRoundTrip(stamp);
    TrimKeeps("t=" + digits);
    SplitTwoAt("t", digits, '=');
    assert "t" + ['='] + digits == "t=" + digits;
  }

  lemma TakeHex(fields: Fields, hex: string)
    requires hex != "" && !IsSpace(hex[|hex| - 1])
    ensures Take(fields, "v1=" + hex) == fields.(v1 := hex)
  {
    TrimKeeps("v1=" + hex);
    SplitTwoAt("v1", hex, '=');
    assert "v1" + ['='] + hex == "v1=" + hex;
  }

  lemma SplitOfTwoParts(first: string, second: string)
    requires ',' !in first && ',' !in second
    ensures Split(first + [','] + second, ',') == [first, second]
  {
    SplitFirst(first, second, ',');
    SplitOne(second, ',');
  }

  lemma TakeAllOfTwo(first: string, second: string)
    ensures TakeAll([first, second]) == Take(Take(Fields(0, ""), first), second)
  {
    assert [first, second][..1] == [first] && [first][..0] == [];
    assert TakeAll([first]) == Take(TakeAll([]), first);
  }

  // What parsing finds in a header that signing built.
  lemma ParseOfSign(mac: Mac, body: string, secret: string, stamp: int)
    requires IsInt64(stamp) && mac(secret, SignedText(stamp, body)) != []
    ensures ParsedHeader(Sign(mac, body, secret, stamp))
            == if stamp == 0 then None
               else Some(Fields(stamp, EncodeHex(mac(secret, SignedText(stamp, body)))))
  {
    var hex := EncodeHex(mac(secret, SignedText(stamp, body)));
    var first, second := "t=" + FormatInt(stamp), "v1=" + hex;
    FormatIntChars(stamp);
    HexRoundTrip(mac(secret, SignedText(stamp, body)));
    assert Sign(mac, body, secret, stamp) == first + [','] + second;
    SplitOfTwoParts(first, second);
    TakeAllOfTwo(first, second);
    TakeTimestamp(Fields(0, ""), stamp);
    TakeHex(Fields(stamp, ""), hex);
  }

  /** Verification accepts what signing produced if and only if the timestamp is not zero and the header
      is fresh enough, for every body, every secret and every MAC that is not empty. */
  lemma VerifyOfSignIff(mac: Mac, body: string, secret: string, stamp: int, now: int, tolerance: int)
    requires IsInt64(stamp) && mac(secret, SignedText(stamp, body)) != []
    ensures Verify(mac, body, Sign(mac, body, secret, stamp), secret, now, tolerance)
            <==> stamp != 0 && (tolerance <= 0 || Wrap64(now - stamp) <= tolerance / 1_000_000_000)
    ensures Verify(mac, body, Sign(mac, body, secret, stamp), secret, now, tolerance) && tolerance > 0 && IsInt64(now - stamp)
            ==> now - stamp <= tolerance / 1_000_000_000
  {
    ParseOfSign(mac, body, secret, stamp);
    HexRoundTrip(mac(secret, SignedText(stamp, body)));
  }

  // The signed text says which time and which body it is for.
  lemma SignedTextTells(stamp: int, body: string, stamp': int, body': string)
    requires IsInt64(stamp) && IsInt64(stamp') && SignedText(stamp, body) == SignedText(stamp', body')
    ensures stamp == stamp' && body == body'
  {
    var digits, digits' := FormatInt(stamp), FormatInt(stamp');
    FormatIntChars(stamp);
    FormatIntChars(stamp');
    assert SignedText(stamp, body)[|digits|] == '.' && SignedText(stamp', body')[|digits'|] == '.';
    assert forall i :: 0 <= i < |digits| ==> SignedText(stamp, body)[i] == digits[i];
    assert forall i :: 0 <= i < |digits'| ==> SignedText(stamp', body')[i] == digits'[i];
    assert |digits| == |digits'|;
    assert digits == SignedText(stamp, body)[..|digits|] == digits';
    assert body == SignedText(stamp, body)[|digits| + 1..] == body';
    DecimalRoundTrip(stamp);
    DecimalRoundTrip(stamp');
  }

  /** A header made for one body is accepted for another only if the two MACs are the same. */
  lemma OtherBodyNeedsSameMac(mac: Mac, body: string, other: string, secret: string, stamp: int, now: int, tolerance: int)
    requires IsInt64(stamp) && mac(secret, SignedText(stamp, body)) != []
    requires Verify(mac, other, Sign(mac, body, secret, stamp), secret, now, tolerance)
    ensures mac(secret, SignedText(stamp, other)) == mac(secret, SignedText(stamp, body))
  {
    ParseOfSign(mac, body, secret, stamp);
    HexRoundTrip(mac(secret, SignedText(stamp, body)));
  }
}
