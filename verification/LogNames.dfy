/** The names of a rolling log's files: `base.ext`, then `base.1.ext`, `base.2.ext` and so on. */
module LogNames {

  function Digit(d: nat): char
    requires d < 10
  {
    '0' + d as char
  }

  function Decimal(n: nat): (s: string)
    ensures s != ""
  {
    if n < 10 then [Digit(n)] else Decimal(n / 10) + [Digit(n % 10)]
  }

  function Value(s: string): int {
    if s == "" then 0 else 10 * Value(s[..|s| - 1]) + (s[|s| - 1] as int - '0' as int)
  }

  /** Reading a number back gives the number. */
  lemma {:induction false} DecimalValue(n: nat)
    ensures Value(Decimal(n)) == n
  {
    var s := Decimal(n);
    if n < 10 {
      assert s[..|s| - 1] == "";
    } else {
      DecimalValue(n / 10);
      assert s[..|s| - 1] == Decimal(n / 10);
    }
  }

  /** The position of the last dot, or the length of the name. */
  function FindExtensionDot(name: string): (i: nat)
    ensures i <= |name|
    ensures i < |name| ==> name[i] == '.' && forall j :: i < j < |name| ==> name[j] != '.'
    ensures i == |name| ==> '.' !in name
  {
    if name == "" then 0
    else if name[|name| - 1] == '.' then |name| - 1
    else
      var i := FindExtensionDot(name[..|name| - 1]);
      if i < |name| - 1 then i else |name|
  }

  /** The name without its extension, and the extension. */
  function SplitFileName(name: string): (string, string) {
    var dot := FindExtensionDot(name);
    if dot < |name| then (name[..dot], name[dot + 1..]) else (name, "")
  }

  function BuildFileName(base: string, ext: string, n: nat): string {
    base + (if n > 0 then "." + Decimal(n) else "") + (if ext != "" then "." + ext else "")
  }

  predicate IsDecimal(s: string) {
    && s != "" && (forall i :: 0 <= i < |s| ==> '0' <= s[i] <= '9')
    && (|s| > 1 ==> s[0] != '0')
  }

  lemma {:induction false} DecimalDigits(n: nat)
    ensures IsDecimal(Decimal(n)) && (n > 0 ==> Decimal(n)[0] != '0')
  {
    if n >= 10 { DecimalDigits(n / 10); }
  }

  lemma SplitAtDot(stem: string, ext: string)
    requires '.' !in ext
    ensures SplitFileName(stem + "." + ext) == (stem, ext)
  {
    var asked := stem + "." + ext;
    var dot := FindExtensionDot(asked);
    assert asked[|stem|] == '.' && forall j :: |stem| < j < |asked| ==> asked[j] == ext[j - |stem| - 1];
    assert asked[..|stem|] == stem && asked[|stem| + 1..] == ext;
  }

  lemma SplitBare(stem: string)
    requires '.' !in stem
    ensures SplitFileName(stem) == (stem, "")
  {
  }

  /** A log asked for under a stem, a dot and an extension has its `n`th file under the stem, a dot, the decimal
      digits of `n`, a dot and the extension; without an extension there is no last dot. */
  lemma NumberedName(stem: string, ext: string, n: nat)
    requires n > 0 && '.' !in ext && (ext == "" ==> '.' !in stem)
    ensures var asked := if ext == "" then stem else stem + "." + ext;
            var (base, ext') := SplitFileName(asked);
            exists digits :: IsDecimal(digits) && Value(digits) == n &&
              BuildFileName(base, ext', n) == stem + "." + digits + (if ext == "" then "" else "." + ext)
  {
    hide SplitFileName, Decimal, IsDecimal, Value;
    if ext == "" { SplitBare(stem); } else { SplitAtDot(stem, ext); }
    DecimalDigits(n);
    DecimalValue(n);
    var tail := if ext == "" then "" else "." + ext;
    assert stem + ("." + Decimal(n)) + tail == stem + "." + Decimal(n) + tail;
  }

  /** Different numbers name different files. */
  lemma NamesDiffer(base: string, ext: string, m: nat, n: nat)
    requires BuildFileName(base, ext, m) == BuildFileName(base, ext, n)
    ensures m == n
  {
    var a, b := if m > 0 then "." + Decimal(m) else "", if n > 0 then "." + Decimal(n) else "";
    var tail := if ext != "" then "." + ext else "";
    var x, y := base + a + tail, base + b + tail;
    assert |a| == |b|;
    assert a == x[|base|..|base| + |a|] && b == y[|base|..|base| + |b|];
    if m > 0 && n > 0 {
      assert Decimal(m) == a[1..] && Decimal(n) == b[1..];
      DecimalValue(m);
      DecimalValue(n);
    }
  }

  /** The current file has the name the log was asked to use, unless that name ends in a dot. */
  lemma CurrentNameIff(name: string)
    ensures var (base, ext) := SplitFileName(name);
            BuildFileName(base, ext, 0) == name <==> name == "" || name[|name| - 1] != '.'
  {
    var dot := FindExtensionDot(name);
    if dot < |name| - 1 {
      assert name == name[..dot] + "." + name[dot + 1..];
    }
  }

  /** A log asked for under a name with a dot at its end is written to another file. */
  lemma TrailingDotIsLost()
    ensures var (base, ext) := SplitFileName("log."); BuildFileName(base, ext, 0) == "log" != "log."
  {
    assert FindExtensionDot("log.") == 3;
    assert "log" + "" + "" == "log";
  }
}
