/** Keepa's wire encodings (src/keepa-client.ts:1060-1126): minutes since the
    Keepa epoch, packed `[time, value, time, value, ...]` history rows, and
    prices as integer cents rendered with a per-marketplace currency symbol. */
module Codec {
  import opened Wrappers
  import opened Text
  import opened KeepaTypes

  /** Minutes between the Unix epoch and the Keepa epoch (2011-01-01). */
  const KeepaEpochOffsetMinutes := 21564000
  const MillisPerMinute := 60000

  /** keepaTimeToUnixTime: Keepa minutes to Unix milliseconds. */
  function KeepaTimeToUnixTime(keepaTime: int): int {
    (keepaTime + KeepaEpochOffsetMinutes) * MillisPerMinute
  }

  /** unixTimeToKeepaTime: `Math.floor(unixTime / 60000) - 21564000`; Dafny's
      division by a positive divisor is the floor. */
  function UnixTimeToKeepaTime(unixTime: int): int {
    unixTime / MillisPerMinute - KeepaEpochOffsetMinutes
  }

  /** Every Keepa minute survives the trip through Unix milliseconds. */
  lemma KeepaTimeRoundTrip(m: int)
    ensures UnixTimeToKeepaTime(KeepaTimeToUnixTime(m)) == m
  {
    var q := m + KeepaEpochOffsetMinutes;
    assert (q * 60000) / 60000 == q;
  }

  /** A Unix time is rounded down to the start of its minute: the trip
      through Keepa minutes never moves it forward and loses less than one
      minute. */
  lemma UnixTimeBracket(u: int)
    ensures KeepaTimeToUnixTime(UnixTimeToKeepaTime(u)) <= u
    ensures u < KeepaTimeToUnixTime(UnixTimeToKeepaTime(u)) + MillisPerMinute
  {
    assert KeepaTimeToUnixTime(UnixTimeToKeepaTime(u)) == (u / MillisPerMinute) * MillisPerMinute;
  }

  // ---- packed history rows ----

  /** One decoded history sample: Unix milliseconds and the raw value. */
  datatype Point = Point(timestamp: int, value: int)

  /** `csvData[dataType]`: the row of that data type, absent when the index is
      out of range or the row is null. */
  function Row(csv: seq<Option<seq<int>>>, dataType: int): (row: Option<seq<int>>)
    ensures row.Some? ==> 0 <= dataType < |csv| && csv[dataType] == row
    ensures 0 <= dataType < |csv| ==> row == csv[dataType]
  {
    if 0 <= dataType < |csv| then csv[dataType] else None
  }

  /** The samples a packed row denotes: pair k is (time of row[2k], row[2k+1]);
      an unpaired last element denotes nothing. */
  function Decoded(row: seq<int>): (points: seq<Point>)
    ensures |points| == |row| / 2
    ensures forall k :: 0 <= k < |points| ==>
      points[k] == Point(KeepaTimeToUnixTime(row[2 * k]), row[2 * k + 1])
  {
    seq(|row| / 2, k requires 0 <= k < |row| / 2 => Point(KeepaTimeToUnixTime(row[2 * k]), row[2 * k + 1]))
  }

  /** parseCSVData: walk the row two elements at a time and emit a sample for
      every complete pair. */
  method ParseCSVData(csv: seq<Option<seq<int>>>, dataType: int) returns (points: seq<Point>)
    ensures Row(csv, dataType).None? ==> points == []
    ensures Row(csv, dataType).Some? ==> points == Decoded(Row(csv, dataType).value)
  {
    var r := Row(csv, dataType);
    if r.None? {
      return [];
    }
    var data := r.value;
    points := [];
    var i := 0;
    while i < |data|
      invariant 0 <= i <= |data| + 1 && i % 2 == 0
      invariant i <= |data| ==> points == Decoded(data[..i])
      invariant i > |data| ==> points == Decoded(data)
      decreases |data| - i
    {
      if i + 1 < |data| {
        var timestamp := KeepaTimeToUnixTime(data[i]);
        var value := data[i + 1];
        points := points + [Point(timestamp, value)];
        assert data[..i + 2] == data[..i] + [data[i], data[i + 1]];
      }
      if i + 2 > |data| {
        DecodedDropsOddTail(data, i);
      }
      i := i + 2;
    }
  }

  lemma DecodedDropsOddTail(data: seq<int>, i: nat)
    requires i % 2 == 0 && i <= |data| < i + 2
    ensures Decoded(data) == Decoded(data[..i])
  {
  }

  /** Encoding samples back into a packed row (the inverse direction). */
  function Packed(points: seq<Point>): (row: seq<int>)
    ensures |row| == 2 * |points|
    ensures forall k :: 0 <= k < |points| ==>
      row[2 * k] == UnixTimeToKeepaTime(points[k].timestamp) && row[2 * k + 1] == points[k].value
  {
    if points == [] then []
    else [UnixTimeToKeepaTime(points[0].timestamp), points[0].value] + Packed(points[1..])
  }

  /** Decoding an even-length row and packing it again gives the row back. */
  lemma DecodePackRoundTrip(row: seq<int>)
    requires |row| % 2 == 0
    ensures Packed(Decoded(row)) == row
  {
    var p := Packed(Decoded(row));
    forall i | 0 <= i < |row|
      ensures p[i] == row[i]
    {
      var k := i / 2;
      if i % 2 == 0 {
        assert i == 2 * k;
        KeepaTimeRoundTrip(row[2 * k]);
      } else {
        assert i == 2 * k + 1;
      }
    }
  }

  /** Samples taken on whole Keepa minutes survive packing and decoding. */
  lemma PackDecodeRoundTrip(points: seq<Point>)
    requires forall k :: 0 <= k < |points| ==> points[k].timestamp % MillisPerMinute == 0
    ensures Decoded(Packed(points)) == points
  {
    var row := Packed(points);
    var d := Decoded(row);
    assert |d| == |points|;
    forall k | 0 <= k < |points|
      ensures d[k] == points[k]
    {
      var t := points[k].timestamp;
      assert row[2 * k] == UnixTimeToKeepaTime(t);
      assert KeepaTimeToUnixTime(UnixTimeToKeepaTime(t)) == (t / 60000) * 60000 == t;
    }
  }

  // ---- prices ----

  /** The currency symbol of a marketplace code; `'$'` for a code the table
      does not know. */
  function CurrencySymbol(domain: int): (symbol: string)
    ensures |symbol| >= 1
    ensures DomainOfCode(domain).None? ==> symbol == "$"
  {
    match DomainOfCode(domain)
    case None => "$"
    case Some(d) =>
      match d
      case US => "$" case UK => "£" case DE => "€" case FR => "€"
      case JP => "¥" case CA => "C$" case CN => "¥" case IT => "€"
      case ES => "€" case IN => "₹" case MX => "$"
  }

  /** `(cents / 100).toFixed(2)`: optional minus sign, whole units, a point,
      and exactly two digits of cents. */
  function Amount(cents: int): (s: string)
    ensures |s| >= 4 && s[|s| - 3] == '.'
  {
    var m := if cents < 0 then -cents else cents;
    var whole := NatToString(m / 100);
    (if cents < 0 then "-" else "") + whole + "." + [DigitChar(m % 100 / 10), DigitChar(m % 100 % 10)]
  }

  /** formatPrice: `-1` means "no price"; anything else is the symbol
      followed by the amount. */
  function FormatPrice(price: int, domain: int): (s: string)
    ensures price == -1 ==> s == "N/A"
    ensures price != -1 ==> s == CurrencySymbol(domain) + Amount(price)
  {
    if price == -1 then "N/A" else CurrencySymbol(domain) + Amount(price)
  }

  /** Reads a rendered amount back into cents; the inverse of Amount. */
  function ParseAmount(s: string): (cents: Option<int>) {
    if |s| < 4 || s[|s| - 3] != '.' || !IsDigit(s[|s| - 2]) || !IsDigit(s[|s| - 1]) then None
    else
      var negative := s[0] == '-';
      var digits := if negative then s[1..|s| - 3] else s[..|s| - 3];
      if digits == [] || !AllDigits(digits) then None
      else
        var m := DecimalValue(digits) * 100
          + (s[|s| - 2] as int - '0' as int) * 10 + (s[|s| - 1] as int - '0' as int);
        Some(if negative then -m else m)
  }

  /** The two decimals carry the price exactly: reading an amount back gives
      the original number of cents, for every integer price. */
  lemma AmountRoundTrip(cents: int)
    ensures ParseAmount(Amount(cents)) == Some(cents)
  {
    var m := if cents < 0 then -cents else cents;
    var sign := if cents < 0 then "-" else "";
    var whole := NatToString(m / 100);
    var tens, units := DigitChar(m % 100 / 10), DigitChar(m % 100 % 10);
    assert Amount(cents) == sign + whole + "." + [tens, units];
    ParseRendered(sign, whole, tens, units);
    DecimalRoundTrip(m / 100);
    HundredsSplit(m);
    var v := DecimalValue(whole) * 100 + (tens as int - '0' as int) * 10 + (units as int - '0' as int);
    assert v == m;
    assert (sign == "-") == (cents < 0);
  }

  /** An optional sign, a run of digits, a point and two digits parse to the
      number they spell. */
  lemma ParseRendered(sign: string, whole: string, tens: char, units: char)
    requires sign == "" || sign == "-"
    requires whole != [] && AllDigits(whole) && IsDigit(tens) && IsDigit(units)
    ensures var v := DecimalValue(whole) * 100 + (tens as int - '0' as int) * 10 + (units as int - '0' as int);
      ParseAmount(sign + whole + "." + [tens, units]) == Some(if sign == "-" then -v else v)
  {
    var s := sign + whole + "." + [tens, units];
    assert s[|s| - 3] == '.' && s[|s| - 2] == tens && s[|s| - 1] == units;
    assert s[..|s| - 3] == sign + whole;
    assert s[0] == (if sign == "-" then '-' else whole[0]);
    var digits := if sign == "-" then s[1..|s| - 3] else s[..|s| - 3];
    assert digits == whole;
  }

  /** A number is its hundreds, then the tens and units of the rest. */
  lemma HundredsSplit(m: nat)
    ensures m == (m / 100) * 100 + (m % 100 / 10) * 10 + m % 100 % 10
  {
    var r := m % 100;
    assert m == (m / 100) * 100 + r;
    assert r == (r / 10) * 10 + r % 10;
  }

  /** The published examples: 4999 cents in the US is "$49.99", 2549 in the
      UK is "£25.49", 0 is "$0.00", and -1 is "N/A" everywhere. */
  lemma FormatPriceExamples(domain: int)
    ensures FormatPrice(4999, DomainCode(US)) == "$49.99"
    ensures FormatPrice(2549, DomainCode(UK)) == "£25.49"
    ensures FormatPrice(0, DomainCode(US)) == "$0.00"
    ensures FormatPrice(-1, domain) == "N/A"
  {
    DollarExample();
    PoundExample();
    ZeroExample();
  }

  lemma DollarExample()
    ensures Amount(4999) == "49.99"
  {
    assert NatToString(4) == "4";
    assert NatToString(49) == "49";
  }

  lemma PoundExample()
    ensures Amount(2549) == "25.49"
  {
    assert NatToString(2) == "2";
    assert NatToString(25) == "25";
  }

  lemma ZeroExample()
    ensures Amount(0) == "0.00"
  {
    assert NatToString(0) == "0";
  }

  // ---- marketplace host names ----

  function DomainHost(d: Domain): string {
    match d
    case US => "amazon.com" case UK => "amazon.co.uk" case DE => "amazon.de"
    case FR => "amazon.fr" case JP => "amazon.co.jp" case CA => "amazon.ca"
    case CN => "amazon.cn" case IT => "amazon.it" case ES => "amazon.es"
    case IN => "amazon.in" case MX => "amazon.com.mx"
  }

  /** getDomainName: the marketplace host of a domain code, "amazon.com" for
      a code the table does not know. */
  function GetDomainName(domain: int): (host: string)
    ensures DomainOfCode(domain).Some? ==> host == DomainHost(DomainOfCode(domain).value)
    ensures DomainOfCode(domain).None? ==> host == "amazon.com"
  {
    match DomainOfCode(domain)
    case Some(d) => DomainHost(d)
    case None => "amazon.com"
  }

  /** The marketplace a host name belongs to. */
  function HostDomain(host: string): Option<Domain> {
    if host == "amazon.com" then Some(US) else if host == "amazon.co.uk" then Some(UK)
    else if host == "amazon.de" then Some(DE) else if host == "amazon.fr" then Some(FR)
    else if host == "amazon.co.jp" then Some(JP) else if host == "amazon.ca" then Some(CA)
    else if host == "amazon.cn" then Some(CN) else if host == "amazon.it" then Some(IT)
    else if host == "amazon.es" then Some(ES) else if host == "amazon.in" then Some(IN)
    else if host == "amazon.com.mx" then Some(MX) else None
  }

  /** Every marketplace has its own host: the host determines the domain. */
  lemma DomainHostRoundTrip(d: Domain)
    ensures HostDomain(DomainHost(d)) == Some(d)
    ensures GetDomainName(DomainCode(d)) == DomainHost(d)
  {
  }
}
