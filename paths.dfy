/** Path derivation used by FileStore.GetFileInfo: the decimal text of an id,
    the `.txt` file name built from it, and `Path.Combine` with the working
    directory. Each is paired with an inverse, from which injectivity follows. */
module Paths {
  import opened Maybes

  const DirectorySeparator: char := '/'
  const Extension: string := ".txt"

  predicate IsDigit(c: char) {
    '0' <= c <= '9'
  }

  function DigitChar(d: nat): (c: char)
    requires d < 10
    ensures IsDigit(c)
  {
    ('0' as int + d) as char
  }

  function DigitValue(c: char): int {
    c as int - '0' as int
  }

  /** Decimal text of a natural number, most significant digit first, no leading zeros. */
  function NatToDecimal(n: nat): (s: string)
    ensures |s| > 0
    ensures forall i :: 0 <= i < |s| ==> IsDigit(s[i])
    ensures (s[0] == '0') == (n == 0)
  {
    if n < 10 then [DigitChar(n)] else NatToDecimal(n / 10) + [DigitChar(n % 10)]
  }

  /** Reads a string of digits back as a number (the inverse of NatToDecimal). */
  function DecimalValue(s: string): int {
    if s == [] then 0 else DecimalValue(s[..|s| - 1]) * 10 + DigitValue(s[|s| - 1])
  }

  lemma {:induction false} DecimalRoundTrip(n: nat)
    ensures DecimalValue(NatToDecimal(n)) == n
  {
    var s := NatToDecimal(n);
    if n < 10 {
      assert s[..|s| - 1] == [];
    } else {
      assert s[..|s| - 1] == NatToDecimal(n / 10);
      DecimalRoundTrip(n / 10);
    }
  }

  /** `Int32.ToString()`: a '-' before the digits of a negative number. */
  function IntToDecimal(i: int): (s: string)
    ensures |s| > 0
    ensures s[0] == '-' <==> i < 0
    ensures forall k :: 0 < k < |s| ==> IsDigit(s[k])
  {
    if i < 0 then "-" + NatToDecimal(-i) else NatToDecimal(i)
  }

  /** Reads the text of a signed number back (the inverse of IntToDecimal). */
  function SignedDecimalValue(s: string): int {
    if |s| > 0 && s[0] == '-' then -DecimalValue(s[1..]) else DecimalValue(s)
  }

  lemma IntDecimalRoundTrip(i: int)
    ensures SignedDecimalValue(IntToDecimal(i)) == i
  {
    if i < 0 {
      assert IntToDecimal(i)[1..] == NatToDecimal(-i);
      DecimalRoundTrip(-i);
    } else {
      DecimalRoundTrip(i);
    }
  }

  /** `id + ".txt"`. */
  function FileName(id: int): (name: string)
    ensures DirectorySeparator !in name
  {
    IntToDecimal(id) + Extension
  }

  /** What `Path.Combine(directory, name)` puts in front of a relative name:
      the directory, followed by a separator unless it already ends with one. */
  function DirectoryPrefix(directory: string): string {
    if directory == [] || directory[|directory| - 1] == DirectorySeparator
    then directory
    else directory + [DirectorySeparator]
  }

  /** `Path.Combine(directory, name)` for a name that is not rooted. */
  function Combine(directory: string, name: string): string {
    DirectoryPrefix(directory) + name
  }

  /** The location of message `id` under `directory`. */
  function PathOf(directory: string, id: int): string {
    Combine(directory, FileName(id))
  }

  /** Recovers the id from a path under `directory`, or Nothing for a path
      that is not a `.txt` file name directly in `directory`. */
  function IdOfPath(directory: string, path: string): Maybe<int> {
    var prefix := DirectoryPrefix(directory);
    if |path| >= |prefix| + |Extension|
       && path[..|prefix|] == prefix
       && path[|path| - |Extension|..] == Extension
       && DirectorySeparator !in path[|prefix|..]
    then Just(SignedDecimalValue(path[|prefix|..|path| - |Extension|]))
    else Nothing
  }

  /** The path of `id` lies directly in `directory` and decodes back to `id`. */
  lemma PathRoundTrip(directory: string, id: int)
    ensures PathOf(directory, id)[..|DirectoryPrefix(directory)|] == DirectoryPrefix(directory)
    ensures IdOfPath(directory, PathOf(directory, id)) == Just(id)
  {
    var prefix, name := DirectoryPrefix(directory), FileName(id);
    var path := PathOf(directory, id);
    assert path[..|prefix|] == prefix;
    assert path[|prefix|..] == name;
    assert path[|path| - |Extension|..] == Extension;
    assert path[|prefix|..|path| - |Extension|] == IntToDecimal(id);
    IntDecimalRoundTrip(id);
  }

  /** Distinct ids, negative ones included, are stored at distinct paths. */
  lemma PathOfInjective(directory: string, a: int, b: int)
    ensures PathOf(directory, a) == PathOf(directory, b) <==> a == b
  {
    PathRoundTrip(directory, a);
    PathRoundTrip(directory, b);
  }
}
