/** The pure text functions of the scraper. Prices are exact decimals here. */
module TextParsing {
  import opened Model

  // ---------- searching ----------

  /** `pattern` occurs in `s` at position `i`. */
  predicate OccursAt(s: string, pattern: string, i: nat) {
    i + |pattern| <= |s| && s[i..i + |pattern|] == pattern
  }

  function IndexFrom(s: string, pattern: string, from: nat): (r: Option<nat>)
    requires forall i: nat :: i < from ==> !OccursAt(s, pattern, i)
    requires from <= |s| + 1
    ensures r.None? ==> forall i: nat :: !OccursAt(s, pattern, i)
    ensures r.Some? ==> OccursAt(s, pattern, r.value) && forall i: nat :: i < r.value ==> !OccursAt(s, pattern, i)
    decreases |s| + 1 - from
  {
    if from > |s| then None
    else if OccursAt(s, pattern, from) then Some(from)
    else IndexFrom(s, pattern, from + 1)
  }

  /** The position of the first occurrence. */
  function Index(s: string, pattern: string): (r: Option<nat>)
    ensures r.None? ==> forall i: nat :: !OccursAt(s, pattern, i)
    ensures r.Some? ==> OccursAt(s, pattern, r.value) && forall i: nat :: i < r.value ==> !OccursAt(s, pattern, i)
  {
    IndexFrom(s, pattern, 0)
  }

  // ---------- extractHost ----------

  function ExtractHost(rawURL: string): string {
    var schemeEnd := Index(rawURL, "://");
    var s := if schemeEnd.Some? then rawURL[schemeEnd.value + 3..] else rawURL;
    var slash := Index(s, "/");
    if slash.Some? then s[..slash.value] else s
  }

  lemma SlashAt(s: string, i: nat)
    requires i < |s| && s[i] == '/'
    ensures OccursAt(s, "/", i)
  {
  }

  /** A character that differs from the pattern's rules an occurrence out. */
  lemma MissesAt(s: string, pattern: string, i: nat, k: nat)
    requires k < |pattern| && i + k < |s| && s[i + k] != pattern[k]
    ensures !OccursAt(s, pattern, i)
  {
    if i + |pattern| <= |s| {
      assert s[i..i + |pattern|][k] == s[i + k];
    }
  }

  lemma NowhereBefore(s: string, pattern: string, end: nat)
    requires end <= |s| && pattern != "" && pattern[0] !in s[..end]
    ensures forall i: nat :: i < end ==> !OccursAt(s, pattern, i)
  {
    forall i: nat | i < end ensures !OccursAt(s, pattern, i) {
      assert s[..end][i] == s[i];
      MissesAt(s, pattern, i, 0);
    }
  }

  lemma HostHasNoSlash(rawURL: string)
    ensures '/' !in ExtractHost(rawURL)
  {
    var host := ExtractHost(rawURL);
    var schemeEnd := Index(rawURL, "://");
    var s := if schemeEnd.Some? then rawURL[schemeEnd.value + 3..] else rawURL;
    forall i | 0 <= i < |host| ensures host[i] != '/' {
      if s[i] == '/' {
        SlashAt(s, i);
      }
    }
  }

  lemma NoSlashIsItsOwnHost(s: string)
    requires '/' !in s
    ensures ExtractHost(s) == s
  {
    forall i: nat ensures !OccursAt(s, "://", i) && !OccursAt(s, "/", i) {
      if i + 1 < |s| {
        MissesAt(s, "://", i, 1);
      }
      if i < |s| {
        MissesAt(s, "/", i, 0);
      }
    }
  }

  lemma HostIsIdempotent(rawURL: string)
    ensures ExtractHost(ExtractHost(rawURL)) == ExtractHost(rawURL)
  {
    HostHasNoSlash(rawURL);
    NoSlashIsItsOwnHost(ExtractHost(rawURL));
  }

  lemma HostOfRest(scheme: string, host: string, rest: string)
    requires ':' !in scheme && '/' !in host && (rest == "" || rest[0] == '/')
    ensures ExtractHost(scheme + "://" + (host + rest)) == host
  {
    var s := host + rest;
    var url := scheme + "://" + s;
    var n := |scheme|;
    assert OccursAt(url, "://", n);
    assert url[..n] == scheme;
    NowhereBefore(url, "://", n);
    assert Index(url, "://") == Some(n) && url[n + 3..] == s;
    assert s[..|host|] == host;
    NowhereBefore(s, "/", |host|);
    if rest != "" {
      SlashAt(s, |host|);
      assert Index(s, "/") == Some(|host|);
    } else {
      assert forall i: nat :: i >= |host| ==> !OccursAt(s, "/", i);
    }
  }

  /** `scheme://host/path` gives the host, whatever the path contains. */
  lemma HostOfURL(scheme: string, host: string, path: string)
    requires ':' !in scheme && '/' !in host
    ensures ExtractHost(scheme + "://" + host + "/" + path) == host
    ensures ExtractHost(scheme + "://" + host) == host
  {
    HostOfRest(scheme, host, "/" + path);
    assert scheme + "://" + host + "/" + path == scheme + "://" + (host + ("/" + path));
    HostOfRest(scheme, host, "");
    assert scheme + "://" + host == scheme + "://" + (host + "");
  }

  /** Without a scheme the host is what stands before the first slash. */
  lemma HostWithoutScheme(host: string, path: string)
    requires '/' !in host && Index(host + "/" + path, "://").None?
    ensures ExtractHost(host + "/" + path) == host
  {
    var s := host + "/" + path;
    assert s[..|host|] == host && s[|host|] == '/';
    NowhereBefore(s, "/", |host|);
    SlashAt(s, |host|);
    assert Index(s, "/") == Some(|host|);
  }

  // ---------- parsePrice ----------

  predicate IsDigit(c: char) {
    '0' <= c <= '9'
  }

  predicate Kept(c: char) {
    IsDigit(c) || c == '.'
  }

  function Cleaned(s: string): (r: string)
    ensures forall c :: c in r ==> Kept(c)
  {
    if s == "" then "" else (if Kept(s[0]) then [s[0]] else []) + Cleaned(s[1..])
  }

  function DigitValue(c: char): nat {
    if IsDigit(c) then (c - '0') as nat else 0
  }

  /** The number that a string of decimal digits denotes. */
  function Value(digits: string): nat {
    if digits == "" then 0 else 10 * Value(digits[..|digits| - 1]) + DigitValue(digits[|digits| - 1])
  }

  function Pow10(n: nat): (r: nat)
    ensures r > 0
  {
    if n == 0 then 1 else 10 * Pow10(n - 1)
  }

  predicate AllDigits(s: string) {
    forall c :: c in s ==> IsDigit(c)
  }

  /** `ParseFloat` on digits and dots: at most one dot, at least one digit. */
  function ParseDecimal(s: string): Option<real> {
    var dot := Index(s, ".");
    if dot.None? then
      if s == "" then None else Some(Value(s) as real)
    else
      var whole, fraction := s[..dot.value], s[dot.value + 1..];
      if '.' in fraction || whole + fraction == "" then None
      else Some(Value(whole + fraction) as real / Pow10(|fraction|) as real)
  }

  function ParsePrice(s: string): real {
    var cleaned := Cleaned(s);
    if cleaned == "" then 0.0
    else
      var price := ParseDecimal(cleaned);
      if price.Some? then price.value else 0.0
  }

  lemma FirstDot(whole: string, rest: string)
    requires '.' !in whole
    ensures Index(whole + "." + rest, ".") == Some(|whole|)
  {
    var s := whole + "." + rest;
    assert OccursAt(s, ".", |whole|);
    assert s[..|whole|] == whole;
    NowhereBefore(s, ".", |whole|);
  }

  /** Whatever else is in the text, a number with a fraction is read as that number. */
  lemma PriceOfDecimal(s: string, whole: string, fraction: string)
    requires AllDigits(whole) && AllDigits(fraction) && whole + fraction != ""
    requires Cleaned(s) == whole + "." + fraction
    ensures ParsePrice(s) == Value(whole + fraction) as real / Pow10(|fraction|) as real
  {
    assert '.' !in whole && '.' !in fraction;
    FirstDot(whole, fraction);
    var c := whole + "." + fraction;
    assert c[..|whole|] == whole && c[|whole| + 1..] == fraction;
  }

  lemma ParseWhole(whole: string)
    requires AllDigits(whole) && whole != ""
    ensures ParseDecimal(whole) == Some(Value(whole) as real)
  {
    assert '.' !in whole;
    NowhereBefore(whole, ".", |whole|);
    assert whole[..|whole|] == whole;
  }

  /** And so is a number without one. */
  lemma PriceOfWhole(s: string, whole: string)
    requires AllDigits(whole) && whole != "" && Cleaned(s) == whole
    ensures ParsePrice(s) == Value(whole) as real
  {
    ParseWhole(whole);
  }

  function Digit(n: nat): char
    requires n < 10
  {
    '0' + n as char
  }

  /** The usual print of a number, with at least one digit. */
  function Print(n: nat): (r: string)
    ensures r != "" && AllDigits(r)
  {
    if n < 10 then [Digit(n)] else Print(n / 10) + [Digit(n % 10)]
  }

  lemma {:induction false} ValueOfPrint(n: nat)
    ensures Value(Print(n)) == n
  {
    if n >= 10 {
      ValueOfPrint(n / 10);
      assert Print(n)[..|Print(n)| - 1] == Print(n / 10);
    } else {
      assert Print(n)[..0] == "";
    }
  }

  /** Cents with two decimals, such as 1234 as "12.34". */
  function PrintCents(cents: nat): string {
    Print(cents / 100) + "." + [Digit(cents / 10 % 10), Digit(cents % 10)]
  }

  lemma AppendDigit(digits: string, n: nat)
    requires n < 10
    ensures Value(digits + [Digit(n)]) == 10 * Value(digits) + n
  {
    assert (digits + [Digit(n)])[..|digits|] == digits;
  }

  lemma LastTwoDigits(cents: nat)
    ensures 10 * (10 * (cents / 100) + cents / 10 % 10) + cents % 10 == cents
  {
    assert cents / 100 == cents / 10 / 10;
  }

  lemma AppendTwo(digits: string, d: nat, e: nat)
    requires d < 10 && e < 10
    ensures Value(digits + [Digit(d), Digit(e)]) == 10 * (10 * Value(digits) + d) + e
  {
    AppendDigit(digits, d);
    AppendDigit(digits + [Digit(d)], e);
    assert digits + [Digit(d), Digit(e)] == digits + [Digit(d)] + [Digit(e)];
  }

  lemma ValueOfCents(cents: nat)
    ensures Value(Print(cents / 100) + [Digit(cents / 10 % 10), Digit(cents % 10)]) == cents
  {
    ValueOfPrint(cents / 100);
    AppendTwo(Print(cents / 100), cents / 10 % 10, cents % 10);
    LastTwoDigits(cents);
  }

  /** From any text whose digits and dots read like `cents` cents, the price is `cents / 100`. */
  lemma PriceOfCents(s: string, cents: nat)
    requires Cleaned(s) == PrintCents(cents)
    ensures ParsePrice(s) == cents as real / 100.0
  {
    var whole, fraction := Print(cents / 100), [Digit(cents / 10 % 10), Digit(cents % 10)];
    PriceOfDecimal(s, whole, fraction);
    ValueOfCents(cents);
    assert Pow10(2) == 10 * Pow10(1) && Pow10(1) == 10 * Pow10(0);
  }

  /** Interleaving characters that are neither digits nor dots changes nothing. */
  lemma {:induction false} CleanedJoin(s: string, t: string)
    ensures Cleaned(s + t) == Cleaned(s) + Cleaned(t)
  {
    if s == "" {
      assert s + t == t;
    } else {
      CleanedJoin(s[1..], t);
      assert (s + t)[1..] == s[1..] + t;
    }
  }

  lemma {:induction false} CleanedNoise(noise: string)
    requires forall c :: c in noise ==> !Kept(c)
    ensures Cleaned(noise) == ""
  {
    if noise != "" {
      assert noise[0] in noise;
      CleanedNoise(noise[1..]);
    }
  }

  lemma NoiseIsIgnored(before: string, noise: string, after: string)
    requires forall c :: c in noise ==> !Kept(c)
    ensures ParsePrice(before + noise + after) == ParsePrice(before + after)
  {
    CleanedNoise(noise);
    CleanedJoin(before + noise, after);
    CleanedJoin(before, noise);
    CleanedJoin(before, after);
    assert Cleaned(before + noise + after) == Cleaned(before + after);
  }

  /** A second dot makes the text unreadable, and the price 0: "1.234.56" is not 1234.56. */
  lemma TwoDotsGiveZero(s: string, whole: string, rest: string)
    requires Cleaned(s) == whole + "." + rest && '.' !in whole && '.' in rest
    ensures ParsePrice(s) == 0.0
  {
    FirstDot(whole, rest);
    var c := whole + "." + rest;
    assert c[|whole| + 1..] == rest;
  }

  /** What is read is exactly what was kept: a number in digits, with or without a dot, survives cleaning. */
  lemma {:induction false} CleanKeeps(s: string)
    ensures (forall c :: c in s ==> '0' <= c <= '9' || c == '.') ==> Cleaned(s) == s
  {
    if s != "" {
      CleanKeeps(s[1..]);
      assert s[0] in s && s == [s[0]] + s[1..];
      assert forall c :: c in s[1..] ==> c in s;
    }
  }

  lemma {:induction false} CleanedFrom(s: string)
    ensures forall c :: c in Cleaned(s) ==> c in s
  {
    if s != "" {
      CleanedFrom(s[1..]);
    }
  }

  lemma CleanedAround(before: string, middle: string, after: string)
    requires forall c :: c in before || c in after ==> !Kept(c)
    ensures Cleaned(before + middle + after) == Cleaned(middle)
  {
    CleanedNoise(before);
    CleanedNoise(after);
    CleanedJoin(before + middle, after);
    CleanedJoin(before, middle);
  }

  /** So a price between any two texts without digits and dots is read exactly, as in "$12.34". */
  lemma PrintedPriceIsRead(before: string, cents: nat, after: string)
    requires forall c :: c in before || c in after ==> !('0' <= c <= '9') && c != '.'
    ensures ParsePrice(before + PrintCents(cents) + after) == cents as real / 100.0
  {
    CleanKeeps(PrintCents(cents));
    CleanedAround(before, PrintCents(cents), after);
    PriceOfCents(before + PrintCents(cents) + after, cents);
  }

  /** A text without a digit has the price 0, whatever dots it has. */
  lemma NoDigitsGiveZero(s: string)
    requires forall c :: c in s ==> !('0' <= c <= '9')
    ensures ParsePrice(s) == 0.0
  {
    var c := Cleaned(s);
    CleanedFrom(s);
    assert forall d :: d in c ==> d == '.';
    if c != "" {
      assert c[0] in c && OccursAt(c, ".", 0);
      if |c| > 1 {
        assert c[1] in c && c[1..][0] == '.';
      }
    }
  }

  /** The example in the source's own comment. */
  lemma TwelveThirtyFour()
    ensures PrintCents(1234) == "12.34" && ParsePrice("$12.34") == 12.34
  {
    assert Print(12) == "12" by { assert Print(1) == "1"; }
    assert PrintCents(1234) == "12.34";
    PrintedPriceIsRead("$", 1234, "");
    assert "$" + "12.34" + "" == "$12.34";
  }
}
