/** The name multer's `filename` callback gives an uploaded file on disk:
    `fieldname + "-" + Date.now() + "-" + Math.round(Math.random() * 1e9) + path.extname(originalname)`.
    The clock reading, the rounded random integer and the extension are inputs. */
module StoredNames {
  import opened Options

  /** What `path.extname` returns: empty, or a suffix that starts with a dot. */
  type Extension = e: string | e == [] || e[0] == '.'

  /** `Math.round(Math.random() * 1e9)`: `Math.random()` lies in [0, 1), so the rounded
      product lies in 0 .. 10^9 (10^9 itself when the product rounds up). */
  type RandomSuffix = r: nat | r <= 1_000_000_000

  predicate IsDigit(c: char)
  {
    '0' <= c <= '9'
  }

  predicate AllDigits(s: string)
  {
    forall i :: 0 <= i < |s| ==> IsDigit(s[i])
  }

  function DigitChar(d: nat): (c: char)
    requires d < 10
    ensures IsDigit(c)
  {
    ('0' as int + d) as char
  }

  function DigitValue(c: char): nat
  {
    if IsDigit(c) then c as int - '0' as int else 0
  }

  /** The decimal text JavaScript produces when a non-negative integer below 10^21 is
      concatenated to a string: digits only, never empty, no leading zero. */
  function Decimal(n: nat): (s: string)
    ensures s != [] && AllDigits(s)
    ensures s[0] == '0' ==> n == 0
  {
    if n < 10 then [DigitChar(n)] else Decimal(n / 10) + [DigitChar(n % 10)]
  }

  /** The number a string of decimal digits denotes (the partner of Decimal). */
  function DecimalValue(s: string): nat
  {
    if s == [] then 0 else DecimalValue(s[..|s| - 1]) * 10 + DigitValue(s[|s| - 1])
  }

  lemma {:induction false} DecimalRoundTrip(n: nat)
    ensures DecimalValue(Decimal(n)) == n
  {
    if n >= 10 {
      var s := Decimal(n);
      assert s[..|s| - 1] == Decimal(n / 10);
      DecimalRoundTrip(n / 10);
    }
  }

  function Pow10(k: nat): (p: nat)
    ensures p >= 1
  {
    if k == 0 then 1 else 10 * Pow10(k - 1)
  }

  /** A number below 10^k is written with at most k digits. */
  lemma {:induction false} DecimalWidth(n: nat, k: nat)
    requires 1 <= k && n < Pow10(k)
    ensures |Decimal(n)| <= k
  {
    if n >= 10 {
      DecimalWidth(n / 10, k - 1);
    }
  }

  /** The random part of a stored name is one to ten digits long. */
  lemma RandomPartWidth(r: RandomSuffix)
    ensures 1 <= |Decimal(r)| <= 10
  {
    assert Pow10(10) == 10_000_000_000;
    DecimalWidth(r, 10);
  }

  /** The storage `filename` callback. */
  function StoredName(fieldname: string, timestamp: nat, random: RandomSuffix, ext: Extension): (name: string)
    ensures |name| > |fieldname| + 1 && name[..|fieldname| + 1] == fieldname + "-"
    ensures |name| > |ext| && name[|name| - |ext|..] == ext
  {
    fieldname + "-" + Decimal(timestamp) + "-" + Decimal(random) + ext
  }

  /** Length of the longest prefix of `s` made of decimal digits. */
  function DigitRun(s: string): (k: nat)
    ensures k <= |s| && AllDigits(s[..k])
    ensures k < |s| ==> !IsDigit(s[k])
  {
    if s == [] || !IsDigit(s[0]) then 0 else 1 + DigitRun(s[1..])
  }

  /** A digit string followed by something that does not start with a digit: the digit run
      is exactly that digit string. */
  lemma {:induction false} DigitRunOfPrefix(d: string, rest: string)
    requires AllDigits(d)
    requires rest == [] || !IsDigit(rest[0])
    ensures DigitRun(d + rest) == |d|
  {
    if d != [] {
      assert (d + rest)[1..] == d[1..] + rest;
      DigitRunOfPrefix(d[1..], rest);
    }
  }

  /** The parts a stored name is built from. */
  datatype NameParts = NameParts(timestamp: nat, random: nat, ext: string)

  /** Reads `random + ext` back: a non-empty digit run, then an extension. */
  function ParseRandomAndExt(tail: string): Option<(nat, string)>
  {
    var j := DigitRun(tail);
    var ext := tail[j..];
    if j == 0 || !(ext == [] || ext[0] == '.') then None
    else Some((DecimalValue(tail[..j]), ext))
  }

  /** Reads `timestamp + "-" + random + ext` back. */
  function ParseSuffix(rest: string): Option<NameParts>
  {
    var k := DigitRun(rest);
    if k == 0 || k == |rest| || rest[k] != '-' then None
    else
      match ParseRandomAndExt(rest[k + 1..])
      case None => None
      case Some((random, ext)) => Some(NameParts(DecimalValue(rest[..k]), random, ext))
  }

  /** Recovers timestamp, random integer and extension from a name the callback gave for
      the field `fieldname`, or None when `name` is not of that form. */
  function ParseStoredName(fieldname: string, name: string): Option<NameParts>
  {
    var head := fieldname + "-";
    if |name| < |head| || name[..|head|] != head then None
    else ParseSuffix(name[|head|..])
  }

  lemma RandomAndExtRoundTrip(random: nat, ext: Extension)
    ensures ParseRandomAndExt(Decimal(random) + ext) == Some((random, ext))
  {
    var dr := Decimal(random);
    DigitRunOfPrefix(dr, ext);
    assert (dr + ext)[..|dr|] == dr;
    assert (dr + ext)[|dr|..] == ext;
    DecimalRoundTrip(random);
  }

  /** A digit string, a dash and a tail: the digit string is the timestamp text and the
      tail is read on its own. */
  lemma SuffixSplit(dt: string, tail: string)
    requires dt != [] && AllDigits(dt)
    ensures ParseSuffix(dt + "-" + tail)
         == match ParseRandomAndExt(tail)
            case None => None
            case Some((random, ext)) => Some(NameParts(DecimalValue(dt), random, ext))
  {
    var rest := dt + "-" + tail;
    assert rest == dt + ("-" + tail);
    DigitRunOfPrefix(dt, "-" + tail);
    assert rest[..|dt|] == dt;
    assert rest[|dt| + 1..] == tail;
  }

  lemma SuffixRoundTrip(timestamp: nat, random: nat, ext: Extension)
    ensures ParseSuffix(Decimal(timestamp) + "-" + Decimal(random) + ext)
         == Some(NameParts(timestamp, random, ext))
  {
    var dt, tail := Decimal(timestamp), Decimal(random) + ext;
    assert dt + "-" + Decimal(random) + ext == dt + "-" + tail;
    SuffixSplit(dt, tail);
    RandomAndExtRoundTrip(random, ext);
    DecimalRoundTrip(timestamp);
  }

  /** Parsing a stored name gives back exactly the timestamp, random integer and extension
      it was built from. */
  lemma StoredNameRoundTrip(fieldname: string, timestamp: nat, random: RandomSuffix, ext: Extension)
    ensures ParseStoredName(fieldname, StoredName(fieldname, timestamp, random, ext))
         == Some(NameParts(timestamp, random, ext))
  {
    var head := fieldname + "-";
    var rest := Decimal(timestamp) + "-" + Decimal(random) + ext;
    var name := StoredName(fieldname, timestamp, random, ext);
    assert name == head + rest;
    assert name[..|head|] == head;
    assert name[|head|..] == rest;
    SuffixRoundTrip(timestamp, random, ext);
  }

  /** For one field, distinct (timestamp, random, extension) triples give distinct names. */
  lemma StoredNameInjective(fieldname: string,
                            t1: nat, r1: RandomSuffix, e1: Extension,
                            t2: nat, r2: RandomSuffix, e2: Extension)
    requires StoredName(fieldname, t1, r1, e1) == StoredName(fieldname, t2, r2, e2)
    ensures t1 == t2 && r1 == r2 && e1 == e2
  {
    StoredNameRoundTrip(fieldname, t1, r1, e1);
    StoredNameRoundTrip(fieldname, t2, r2, e2);
  }
}
