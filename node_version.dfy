/** Node.js version strings as printed by `node --version` ("v14.15.0"), and the
    minimum-version gate that `install_dependencies` applies before running npm.
    The comparison is numeric on each component; a lexical comparison of the
    strings would order "v14.4.0" above "v14.15.0". */
module NodeVersion {

  import opened Optional

  datatype Version = Version(major: nat, minor: nat, patch: nat)

  /** The oldest Node.js release the runner accepts: 14.15.0. */
  const Minimum: Version := Version(14, 15, 0)

  predicate IsDigit(c: char) { '0' <= c <= '9' }

  /** A non-empty run of decimal digits. */
  predicate IsDecimal(s: string) {
    |s| > 0 && forall i :: 0 <= i < |s| ==> IsDigit(s[i])
  }

  function DigitValue(c: char): nat
    requires IsDigit(c)
  {
    c as int - '0' as int
  }

  /** The value of a string of decimal digits, most significant first. */
  function DecimalValue(s: string): nat
    requires forall i :: 0 <= i < |s| ==> IsDigit(s[i])
  {
    if s == [] then 0
    else DecimalValue(s[..|s| - 1]) * 10 + DigitValue(s[|s| - 1])
  }

  /** The shortest decimal spelling of `n`. */
  function Decimal(n: nat): (s: string)
    ensures IsDecimal(s)
    ensures '.' !in s && '\n' !in s
  {
    var d := ['0' + (n % 10) as char];
    if n < 10 then d else Decimal(n / 10) + d
  }

  lemma {:induction false} DecimalRoundTrip(n: nat)
    ensures DecimalValue(Decimal(n)) == n
  {
    var s := Decimal(n);
    assert s[..|s| - 1] == if n < 10 then [] else Decimal(n / 10);
    if n >= 10 {
      DecimalRoundTrip(n / 10);
    }
  }

  /** `s` cut at every occurrence of `sep`; like Ruby's String#split with a
      limit of -1, empty fields are kept. */
  function Split(s: string, sep: char): (parts: seq<string>)
    ensures |parts| > 0
  {
    if s == [] then [[]]
    else
      var rest := Split(s[1..], sep);
      if s[0] == sep then [[]] + rest
      else [[s[0]] + rest[0]] + rest[1..]
  }

  lemma {:induction false} SplitWithoutSeparator(x: string, sep: char)
    requires sep !in x
    ensures Split(x, sep) == [x]
  {
    if x != [] {
      SplitWithoutSeparator(x[1..], sep);
      assert [x[0]] + x[1..] == x;
    }
  }

  lemma {:induction false} SplitAtFirst(x: string, sep: char, y: string)
    requires sep !in x
    ensures Split(x + [sep] + y, sep) == [x] + Split(y, sep)
  {
    if x != [] {
      assert (x + [sep] + y)[1..] == x[1..] + [sep] + y;
      SplitAtFirst(x[1..], sep, y);
      assert [x[0]] + x[1..] == x;
    } else {
      assert (x + [sep] + y)[1..] == y;
    }
  }

  /** Reads the output of `node --version`: a `v`, three dot-separated decimal
      components, and at most one trailing line break. */
  function Parse(output: string): Option<Version>
  {
    if |output| > 0 && output[|output| - 1] == '\n' then ParseLine(output[..|output| - 1])
    else ParseLine(output)
  }

  function ParseLine(line: string): Option<Version>
  {
    if |line| == 0 || line[0] != 'v' then None
    else ParseComponents(Split(line[1..], '.'))
  }

  function ParseComponents(parts: seq<string>): Option<Version>
  {
    if |parts| == 3 && IsDecimal(parts[0]) && IsDecimal(parts[1]) && IsDecimal(parts[2])
    then Some(Version(DecimalValue(parts[0]), DecimalValue(parts[1]), DecimalValue(parts[2])))
    else None
  }

  /** How `node --version` prints a version. */
  function Render(v: Version): string
  {
    "v" + Decimal(v.major) + "." + Decimal(v.minor) + "." + Decimal(v.patch)
  }

  lemma {:induction false} ParseRender(v: Version)
    ensures Parse(Render(v)) == Some(v)
    ensures Parse(Render(v) + "\n") == Some(v)
  {
    var a, b, c := Decimal(v.major), Decimal(v.minor), Decimal(v.patch);
    var line := Render(v);
    SplitRendered(a, b, c);
    assert line[1..] == a + "." + b + "." + c;
    DecimalRoundTrip(v.major);
    DecimalRoundTrip(v.minor);
    DecimalRoundTrip(v.patch);
    assert ParseLine(line) == Some(v);
    assert line[|line| - 1] != '\n';
    assert (line + "\n")[..|line + "\n"| - 1] == line;
  }

  lemma SplitRendered(a: string, b: string, c: string)
    requires '.' !in a && '.' !in b && '.' !in c
    ensures Split(a + "." + b + "." + c, '.') == [a, b, c]
  {
    assert a + "." + b + "." + c == a + ['.'] + (b + ['.'] + c);
    SplitAtFirst(a, '.', b + ['.'] + c);
    SplitAtFirst(b, '.', c);
    SplitWithoutSeparator(c, '.');
  }

  /** Semantic-version order on release versions: major, then minor, then patch. */
  predicate AtMost(a: Version, b: Version)
  {
    a.major < b.major ||
    (a.major == b.major && (a.minor < b.minor || (a.minor == b.minor && a.patch <= b.patch)))
  }

  /** The gate: a major above 14, or major 14 with a minor of at least 15. */
  predicate MeetsMinimum(v: Version)
  {
    v.major > Minimum.major || (v.major == Minimum.major && v.minor >= Minimum.minor)
  }

  /** The (major, minor) gate is exactly "at least 14.15.0" in semantic-version order. */
  lemma MeetsMinimumIsOrder(v: Version)
    ensures MeetsMinimum(v) <==> AtMost(Minimum, v)
  {
  }

  lemma AtMostIsTotalOrder(a: Version, b: Version, c: Version)
    ensures AtMost(a, a)
    ensures AtMost(a, b) || AtMost(b, a)
    ensures AtMost(a, b) && AtMost(b, a) ==> a == b
    ensures AtMost(a, b) && AtMost(b, c) ==> AtMost(a, c)
  {
  }

  /** A newer version than an accepted one is accepted too. */
  lemma MeetsMinimumUpwardClosed(v: Version, w: Version)
    requires MeetsMinimum(v) && AtMost(v, w)
    ensures MeetsMinimum(w)
  {
  }

  /** The two versions the tests use: 14.15.0 passes, 14.4.0 does not. */
  lemma TestVersions()
    ensures Parse("v14.15.0") == Some(Version(14, 15, 0)) && MeetsMinimum(Version(14, 15, 0))
    ensures Parse("v14.4.0") == Some(Version(14, 4, 0)) && !MeetsMinimum(Version(14, 4, 0))
  {
    assert Render(Version(14, 15, 0)) == "v14.15.0";
    ParseRender(Version(14, 15, 0));
    assert Render(Version(14, 4, 0)) == "v14.4.0";
    ParseRender(Version(14, 4, 0));
  }

  /** Byte-wise string order, as Ruby's String#<=> compares. */
  predicate LexLess(a: string, b: string)
  {
    if a == [] then b != []
    else if b == [] then false
    else a[0] < b[0] || (a[0] == b[0] && LexLess(a[1..], b[1..]))
  }

  /** Comparing the printed versions as strings would put "v14.15.0" below
      "v14.4.0" and so let 14.4.0 through; the numeric gate rejects it. */
  lemma LexicalOrderMisjudges()
    ensures LexLess("v14.15.0", "v14.4.0")
    ensures !MeetsMinimum(Parse("v14.4.0").value)
  {
    TestVersions();
    assert "v14.15.0"[1..] == "14.15.0";
    assert "v14.4.0"[1..] == "14.4.0";
    assert "14.15.0"[1..] == "4.15.0";
    assert "14.4.0"[1..] == "4.4.0";
    assert "4.15.0"[1..] == ".15.0";
    assert "4.4.0"[1..] == ".4.0";
    assert ".15.0"[1..] == "15.0";
    assert ".4.0"[1..] == "4.0";
  }
}
