/** The pure helpers of utils.ts: the WhatsApp deep link and the comma-joined
    service names. `encodeURIComponent` is given concretely: each character is
    written as its UTF-8 bytes, and every byte outside the component-safe ASCII
    set is written as `%` and two upper-case hexadecimal digits. */
module Utils {
  import opened Types
  import opened Seqs

  // ---------------------------------------------------------------------
  // Digit stripping: phone.replace(/\D/g, '')

  predicate IsDigit(c: char) { '0' <= c <= '9' }

  function Digits(phone: string): (r: string)
    ensures |r| <= |phone|
  {
    Filter(phone, IsDigit)
  }

  predicate AllDigits(s: string) { forall i :: 0 <= i < |s| ==> IsDigit(s[i]) }

  /** The stripped phone holds only digits, and every digit of the phone. */
  lemma DigitsMembers(phone: string)
    ensures forall x :: x in Digits(phone) <==> x in phone && IsDigit(x)
  {
    FilterMembers(phone, IsDigit);
  }

  /** Stripping works piece by piece, so the digits keep their original order. */
  lemma DigitsAppend(a: string, b: string)
    ensures Digits(a + b) == Digits(a) + Digits(b)
  {
    FilterAppend(a, b, IsDigit);
  }

  /** A string of digits is left as it is, and only such a string is. */
  lemma DigitsOfDigits(s: string)
    ensures AllDigits(s) <==> Digits(s) == s
  {
    if AllDigits(s) {
      FilterAll(s, IsDigit);
    } else {
      var i :| 0 <= i < |s| && !IsDigit(s[i]);
      DigitsMembers(s);
      assert s[i] in s;
    }
  }

  /** Stripping twice is stripping once. */
  lemma DigitsIdempotent(phone: string)
    ensures Digits(Digits(phone)) == Digits(phone)
  {
    FilterIdempotent(phone, IsDigit);
  }

  // ---------------------------------------------------------------------
  // encodeURIComponent

  type Byte = b: int | 0 <= b < 256

  /** The UTF-8 encoding of one Unicode scalar value. */
  function Utf8(c: char): (r: seq<Byte>)
    ensures 1 <= |r| <= 4
    ensures (c as int < 0x80) <==> |r| == 1
  {
    var cp := c as int;
    if cp < 0x80 then [cp]
    else if cp < 0x800 then [0xC0 + cp / 64, 0x80 + cp % 64]
    else if cp < 0x10000 then [0xE0 + cp / 4096, 0x80 + (cp / 64) % 64, 0x80 + cp % 64]
    else [0xF0 + cp / 262144, 0x80 + (cp / 4096) % 64, 0x80 + (cp / 64) % 64, 0x80 + cp % 64]
  }

  /** Reads back the code point of a one-character UTF-8 sequence. */
  function Utf8CodePoint(bs: seq<Byte>): int
    requires 1 <= |bs| <= 4
  {
    var b: seq<int> := bs;
    if |b| == 1 then b[0]
    else if |b| == 2 then (b[0] - 0xC0) * 64 + (b[1] - 0x80)
    else if |b| == 3 then (b[0] - 0xE0) * 4096 + (b[1] - 0x80) * 64 + (b[2] - 0x80)
    else (b[0] - 0xF0) * 262144 + (b[1] - 0x80) * 4096 + (b[2] - 0x80) * 64 + (b[3] - 0x80)
  }

  /** The UTF-8 bytes of a character determine it. */
  lemma Utf8RoundTrip(c: char)
    ensures Utf8CodePoint(Utf8(c)) == c as int
  {
    var cp := c as int;
    if cp >= 0x10000 {
      assert cp == (cp / 262144) * 262144 + ((cp / 4096) % 64) * 4096 + ((cp / 64) % 64) * 64 + cp % 64;
    } else if cp >= 0x800 {
      assert cp == (cp / 4096) * 4096 + ((cp / 64) % 64) * 64 + cp % 64;
    }
  }

  function Utf8String(s: string): (r: seq<Byte>)
    ensures |s| <= |r| <= 4 * |s|
  {
    if s == [] then [] else Utf8(s[0]) + Utf8String(s[1..])
  }

  /** The bytes encodeURIComponent leaves as they are: A-Z a-z 0-9 - _ . ! ~ * ' ( ) */
  predicate IsUnescaped(b: int) {
    65 <= b <= 90 || 97 <= b <= 122 || 48 <= b <= 57 ||
    b == 45 || b == 95 || b == 46 || b == 33 || b == 126 || b == 42 || b == 39 || b == 40 || b == 41
  }

  function HexDigit(n: int): (c: char)
    requires 0 <= n < 16
  {
    if n < 10 then (48 + n) as char else (55 + n) as char
  }

  function HexValue(c: char): Option<int> {
    if '0' <= c <= '9' then Some(c as int - 48)
    else if 'A' <= c <= 'F' then Some(c as int - 55)
    else if 'a' <= c <= 'f' then Some(c as int - 87)
    else None
  }

  /** A byte of the unescaped set is written as itself, and only such a byte
      is; any other byte becomes `%` followed by its two hexadecimal digits. */
  function EncodeByte(b: Byte): (r: string)
    ensures r == [b as char] <==> IsUnescaped(b)
    ensures !IsUnescaped(b) ==> |r| == 3 && r[0] == '%' && HexValue(r[1]) == Some(b / 16) && HexValue(r[2]) == Some(b % 16)
  {
    if IsUnescaped(b) then [b as char] else ['%', HexDigit(b / 16), HexDigit(b % 16)]
  }

  function PercentEncode(bs: seq<Byte>): (r: string)
    ensures |bs| <= |r| <= 3 * |bs|
  {
    if bs == [] then [] else EncodeByte(bs[0]) + PercentEncode(bs[1..])
  }

  /** Every character becomes 1 to 12 characters of output (up to four bytes,
      each written as at most three characters), and only "" encodes to "". */
  function EncodeURIComponent(message: string): (r: string)
    ensures |message| <= |r| <= 12 * |message|
  {
    PercentEncode(Utf8String(message))
  }

  /** The inverse of `PercentEncode`: a `%` with two hexadecimal digits gives
      that byte, an ASCII character other than `%` gives its own code, and
      anything else is malformed. */
  function PercentDecode(s: string): Option<seq<Byte>>
    decreases |s|
  {
    if s == [] then Some([])
    else if s[0] == '%' then
      if |s| < 3 then None
      else match (HexValue(s[1]), HexValue(s[2]), PercentDecode(s[3..]))
        case (Some(hi), Some(lo), Some(rest)) => Some([hi * 16 + lo] + rest)
        case _ => None
    else if s[0] as int < 0x80 then
      match PercentDecode(s[1..])
      case Some(rest) => Some([s[0] as int] + rest)
      case None => None
    else None
  }

  /** Every hexadecimal digit written reads back as its value. */
  lemma HexRoundTrip(n: int)
    requires 0 <= n < 16
    ensures HexValue(HexDigit(n)) == Some(n)
  {
  }

  /** Decoding reads one encoded byte off the front and goes on with the rest. */
  lemma DecodeByteStep(b: Byte, t: string)
    ensures PercentDecode(EncodeByte(b) + t) ==
              match PercentDecode(t)
              case Some(rest) => Some([b] + rest)
              case None => None
  {
    var s := EncodeByte(b) + t;
    if IsUnescaped(b) {
      assert s[0] == b as char && s[1..] == t;
    } else {
      HexRoundTrip(b / 16);
      HexRoundTrip(b % 16);
      assert s[0] == '%' && s[1] == HexDigit(b / 16) && s[2] == HexDigit(b % 16);
      assert s[3..] == t;
    }
  }

  /** Decoding the percent-encoding of any bytes gives back those bytes. */
  lemma {:induction false} PercentRoundTrip(bs: seq<Byte>)
    ensures PercentDecode(PercentEncode(bs)) == Some(bs)
  {
    if bs != [] {
      PercentRoundTrip(bs[1..]);
      DecodeByteStep(bs[0], PercentEncode(bs[1..]));
      assert [bs[0]] + bs[1..] == bs;
    }
  }

  /** So the encoded message determines the UTF-8 bytes of the message. */
  lemma EncodeURIComponentDecodes(message: string)
    ensures PercentDecode(EncodeURIComponent(message)) == Some(Utf8String(message))
  {
    PercentRoundTrip(Utf8String(message));
  }

  /** Text made only of the unescaped characters is its own encoding. */
  lemma {:induction false} EncodeUnescapedIsIdentity(message: string)
    requires forall i :: 0 <= i < |message| ==> IsUnescaped(message[i] as int)
    ensures EncodeURIComponent(message) == message
  {
    if message != [] {
      EncodeUnescapedIsIdentity(message[1..]);
      assert [message[0]] + message[1..] == message;
    }
  }

  /** The encoding contains no `?`, `&`, `#` or space, so it cannot end the
      query parameter it is placed in. */
  lemma {:induction false} EncodedHasNoDelimiters(bs: seq<Byte>)
    ensures forall c :: c in PercentEncode(bs) ==> c != '?' && c != '&' && c != '#' && c != ' '
  {
    if bs != [] {
      EncodedHasNoDelimiters(bs[1..]);
    }
  }

  // ---------------------------------------------------------------------
  // generateWhatsAppLink

  const WhatsAppPrefix: string := "https://wa.me/55"
  const TextParameter: string := "?text="

  function GenerateWhatsAppLink(phone: string, message: string): (link: string)
    ensures |link| == |WhatsAppPrefix| + |Digits(phone)| + |TextParameter| + |EncodeURIComponent(message)|
    ensures link[..|WhatsAppPrefix|] == WhatsAppPrefix
  {
    WhatsAppPrefix + Digits(phone) + TextParameter + EncodeURIComponent(message)
  }

  /** Reads a link of that shape back: the digits after the country code, up
      to the first `?`, and the encoded text after `?text=`. */
  function ParseWhatsAppLink(link: string): Option<(string, string)> {
    if |link| < |WhatsAppPrefix| || link[..|WhatsAppPrefix|] != WhatsAppPrefix then None
    else
      var rest := link[|WhatsAppPrefix|..];
      var k := IndexOf(rest, '?');
      if k < 0 then None
      else if rest[k..] [..Min(|TextParameter|, |rest| - k)] != TextParameter then None
      else Some((rest[..k], rest[k + |TextParameter|..]))
  }

  function Min(a: int, b: int): int { if a < b then a else b }

  /** The first index of `c` in `s`, or -1. */
  function IndexOf(s: string, c: char): (k: int)
    ensures -1 <= k < |s|
    ensures k >= 0 ==> s[k] == c && forall j :: 0 <= j < k ==> s[j] != c
    ensures k < 0 ==> forall j :: 0 <= j < |s| ==> s[j] != c
  {
    if s == [] then -1
    else if s[0] == c then 0
    else var k := IndexOf(s[1..], c); if k < 0 then -1 else k + 1
  }

  /** After the prefix, the first `?` is the one that opens `?text=` when the
      digits hold none. */
  lemma SplitAfterPrefix(d: string, e: string)
    requires forall j :: 0 <= j < |d| ==> d[j] != '?'
    ensures var rest := d + TextParameter + e;
            IndexOf(rest, '?') == |d| &&
            rest[|d|..][..Min(|TextParameter|, |rest| - |d|)] == TextParameter &&
            rest[..|d|] == d && rest[|d| + |TextParameter|..] == e
  {
    var rest := d + TextParameter + e;
    forall j | 0 <= j < |d| ensures rest[j] != '?' {
      assert rest[j] == d[j];
    }
    assert rest[|d|] == '?';
    assert rest[|d|..] == TextParameter + e;
  }

  /** A link made of the prefix, digits, `?text=` and a text parses back into
      those digits and that text. */
  lemma ParseComposed(d: string, e: string)
    requires forall j :: 0 <= j < |d| ==> d[j] != '?'
    ensures ParseWhatsAppLink(WhatsAppPrefix + d + TextParameter + e) == Some((d, e))
  {
    var rest := d + TextParameter + e;
    var link := WhatsAppPrefix + d + TextParameter + e;
    assert link == WhatsAppPrefix + rest;
    assert link[..|WhatsAppPrefix|] == WhatsAppPrefix;
    assert link[|WhatsAppPrefix|..] == rest;
    SplitAfterPrefix(d, e);
  }

  /** The link keeps the phone's digits and the whole message: parsing it
      returns the digits and the encoded text, and decoding that text returns
      the message's UTF-8 bytes. */
  lemma WhatsAppLinkRoundTrip(phone: string, message: string)
    ensures ParseWhatsAppLink(GenerateWhatsAppLink(phone, message))
              == Some((Digits(phone), EncodeURIComponent(message)))
    ensures PercentDecode(EncodeURIComponent(message)) == Some(Utf8String(message))
  {
    var d := Digits(phone);
    DigitsMembers(phone);
    forall j | 0 <= j < |d| ensures d[j] != '?' {
      assert d[j] in Digits(phone);
    }
    ParseComposed(d, EncodeURIComponent(message));
    EncodeURIComponentDecodes(message);
  }

  /** Appending digits to a string appends them to its stripped form. */
  lemma DigitsThenDigits(s: string, t: string)
    requires AllDigits(t)
    ensures Digits(s + t) == Digits(s) + t
  {
    DigitsAppend(s, t);
    DigitsOfDigits(t);
  }

  /** Appending characters that are not digits leaves the stripped form alone. */
  lemma DigitsThenPunctuation(s: string, t: string)
    requires forall i :: 0 <= i < |t| ==> !IsDigit(t[i])
    ensures Digits(s + t) == Digits(s)
  {
    DigitsAppend(s, t);
    NoDigits(t);
  }

  lemma {:induction false} NoDigits(t: string)
    requires forall i :: 0 <= i < |t| ==> !IsDigit(t[i])
    ensures Digits(t) == []
  {
    if t != [] {
      NoDigits(t[1..]);
    }
  }

  /** A phone written as "(AA) NNNNN-NNNN" is reduced to its digits AANNNNNNNNN. */
  lemma FormattedPhoneDigits(area: string, first: string, last: string)
    requires AllDigits(area) && AllDigits(first) && AllDigits(last)
    ensures Digits("(" + area + ") " + first + "-" + last) == area + first + last
  {
    var s1 := "(" + area;
    var s2 := s1 + ") ";
    var s3 := s2 + first;
    var s4 := s3 + "-";
    DigitsThenPunctuation([], "(");
    assert [] + "(" == "(";
    DigitsThenDigits("(", area);
    DigitsThenPunctuation(s1, ") ");
    DigitsThenDigits(s2, first);
    DigitsThenPunctuation(s3, "-");
    DigitsThenDigits(s4, last);
  }

  /** The country code 55 is written unconditionally: a number that already
      starts with 55 gets a second one. */
  lemma CountryCodeAlwaysPrepended(phone: string, message: string)
    requires |Digits(phone)| >= 2 && Digits(phone)[..2] == "55"
    ensures GenerateWhatsAppLink(phone, message)[..|WhatsAppPrefix| + 2] == "https://wa.me/5555"
  {
    var link := GenerateWhatsAppLink(phone, message);
    assert link[|WhatsAppPrefix|..|WhatsAppPrefix| + 2] == Digits(phone)[..2];
    assert link[..|WhatsAppPrefix| + 2] == link[..|WhatsAppPrefix|] + link[|WhatsAppPrefix|..|WhatsAppPrefix| + 2];
  }

  /** A formatted phone and an accented greeting. */
  lemma WhatsAppLinkExample()
    ensures GenerateWhatsAppLink("(11) 99999-9999", "Olá")
              == "https://wa.me/55" + "11999999999" + "?text=" + "Ol%C3%A1"
  {
    PhoneExample();
    EncodeExample();
  }

  lemma PhoneExample()
    ensures Digits("(11) 99999-9999") == "11999999999"
  {
    FormattedPhoneDigits("11", "99999", "9999");
    assert "(" + "11" == "(11";
    assert "(11" + ") " == "(11) ";
    assert "(11) " + "99999" == "(11) 99999";
    assert "(11) 99999" + "-" == "(11) 99999-";
    assert "(11) 99999-" + "9999" == "(11) 99999-9999";
    assert "11" + "99999" == "1199999";
    assert "1199999" + "9999" == "11999999999";
  }

  lemma EncodeExample()
    ensures EncodeURIComponent("Olá") == "Ol%C3%A1"
  {
    assert Utf8('á') == [0xC3, 0xA1];
    assert Utf8String("Olá") == [79, 108, 0xC3, 0xA1];
  }

  // ---------------------------------------------------------------------
  // getServiceNames

  /** The name of the first catalogue service with that id; `undefined` when
      there is none, which `join` writes as the empty string. */
  function ServiceName(services: seq<Service>, id: string): (name: string)
    ensures (exists s :: s in services && s.id == id) ==> exists s :: s in services && s.id == id && s.name == name
    ensures forall k ::
              0 <= k < |services| && services[k].id == id && (forall j :: 0 <= j < k ==> services[j].id != id)
              ==> name == services[k].name
    ensures (forall s :: s in services ==> s.id != id) ==> name == ""
  {
    FindFirstIsFirst(services, ServiceWithId(id));
    match FindFirst(services, ServiceWithId(id))
    case Some(s) => s.name
    case None => ""
  }

  /** `serviceIds.map(name).join(', ')`: no ids give "", one id gives its name
      alone, and n ids hold the n - 1 separators ", " between their names. */
  function GetServiceNames(serviceIds: seq<string>, services: seq<Service>): (r: string)
    ensures serviceIds == [] ==> r == ""
    ensures |serviceIds| == 1 ==> r == ServiceName(services, serviceIds[0])
    ensures |serviceIds| >= 1 ==> |r| >= 2 * (|serviceIds| - 1)
  {
    var names := seq(|serviceIds|, i requires 0 <= i < |serviceIds| => ServiceName(services, serviceIds[i]));
    JoinSeparators(names, ", ");
    Join(names, ", ")
  }

  /** No ids give the empty string; one id gives just its name; every further
      id adds ", " and its name (possibly empty) at the end, in id order. */
  lemma GetServiceNamesSpec(serviceIds: seq<string>, id: string, services: seq<Service>)
    ensures GetServiceNames([], services) == ""
    ensures GetServiceNames([id], services) == ServiceName(services, id)
    ensures serviceIds != [] ==>
              GetServiceNames(serviceIds + [id], services)
                == GetServiceNames(serviceIds, services) + ", " + ServiceName(services, id)
  {
    if serviceIds != [] {
      var segs := seq(|serviceIds|, i requires 0 <= i < |serviceIds| => ServiceName(services, serviceIds[i]));
      var ids2 := serviceIds + [id];
      var segs2 := seq(|ids2|, i requires 0 <= i < |ids2| => ServiceName(services, ids2[i]));
      assert segs2 == segs + [ServiceName(services, id)];
      JoinSnoc(segs, ServiceName(services, id), ", ");
    }
  }
}
