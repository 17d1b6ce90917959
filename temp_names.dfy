/**
 * Names of temporary files: the stem mktemp produced, an underscore, the decimal
 * value of the process-wide counter, a dot and the extension; then placed in the
 * temp directory the platform reports.
 */
module TempNames {
  import opened Wrappers
  import opened Toolchain
  import opened Artifacts

  function DigitChar(d: nat): (c: char)
    requires d < 10
    ensures '0' <= c <= '9'
    ensures c as int - '0' as int == d
  {
    ('0' as int + d) as char
  }

  /** The decimal digits of n, most significant first, as std::to_string writes them. */
  function Decimal(n: nat): (s: string)
    ensures |s| >= 1 && (|s| == 1 <==> n < 10)
    ensures forall i :: 0 <= i < |s| ==> '0' <= s[i] <= '9'
  {
    if n < 10 then [DigitChar(n)] else Decimal(n / 10) + [DigitChar(n % 10)]
  }

  /** Different numbers are written differently. */
  lemma {:induction false} DecimalInjective(a: nat, b: nat)
    requires Decimal(a) == Decimal(b)
    ensures a == b
    decreases a
  {
    var s := Decimal(a);
    if a < 10 {
      assert [DigitChar(a)] == [DigitChar(b)];
      assert DigitChar(a) == DigitChar(b);
    } else {
      assert b >= 10;
      var last := |s| - 1;
      assert s == Decimal(a / 10) + [DigitChar(a % 10)];
      assert s == Decimal(b / 10) + [DigitChar(b % 10)];
      assert Decimal(a / 10) == s[..last] == Decimal(b / 10);
      assert DigitChar(a % 10) == s[last] == DigitChar(b % 10);
      DecimalInjective(a / 10, b / 10);
    }
  }

  /** The name before the directory is applied. */
  function TempBase(stem: string, n: nat, ext: string): string
  {
    stem + "_" + Decimal(n) + "." + ext
  }

  /**
   * The full name: on Windows prefixed with the temp path when GetTempPath
   * succeeds; elsewhere the base with "/tmp/" and the base again appended to it.
   */
  function TempName(stem: string, n: nat, ext: string, win32: bool, tempPath: Option<string>): (r: string)
    ensures var base := TempBase(stem, n, ext);
            |r| >= |base| && r[|r| - |base|..] == base
    ensures win32 ==> r == (if tempPath.Some? then tempPath.value else []) + TempBase(stem, n, ext)
    ensures var base := TempBase(stem, n, ext);
            !win32 ==> |r| == 2 * |base| + 5 && r[..|base|] == base && r[|base|..|base| + 5] == "/tmp/"
  {
    var base := TempBase(stem, n, ext);
    if win32 then (if tempPath.Some? then tempPath.value + base else base)
    else base + "/tmp/" + base
  }

  /** The temp file allocated while the counter reads n: always read-only. */
  function TempFile(env: Env, n: nat, ext: string, dataType: DataType): (f: Data)
    ensures f.File? && f.IsReadOnly() && f.Type() == dataType
    ensures f.name == TempName(env.mktemp(n), n, ext, env.win32, env.tempPath)
  {
    MakeFile(dataType, TempName(env.mktemp(n), n, ext, env.win32, env.tempPath), true)
  }

  /**
   * What mktemp leaves in the template "AMD_tmp_XXXXXX": the template with its
   * six X's replaced, or the empty string when it fails.
   */
  predicate ValidStem(s: string)
  {
    s == [] || (|s| == 14 && s[..8] == "AMD_tmp_")
  }

  /**
   * Two counter values give two different bases.  With stems of one length the
   * digits differ; otherwise one stem is empty, so its base starts with '_' while
   * the other starts with 'A'.
   */
  lemma TempBaseDistinct(s1: string, n1: nat, e1: string, s2: string, n2: nat, e2: string)
    requires ValidStem(s1) && ValidStem(s2) && n1 != n2
    ensures TempBase(s1, n1, e1) != TempBase(s2, n2, e2)
  {
    var d1, d2 := Decimal(n1), Decimal(n2);
    var t1, t2 := TempBase(s1, n1, e1), TempBase(s2, n2, e2);
    var k := |s1| + 1;
    assert t1 == (s1 + "_") + d1 + ("." + e1);
    assert t2 == (s2 + "_") + d2 + ("." + e2);
    if |s1| != |s2| {
      if s1 == [] {
        assert t1[0] == '_' && t2[0] == s2[..8][0] == 'A';
      } else {
        assert t2[0] == '_' && t1[0] == s1[..8][0] == 'A';
      }
    } else if |d1| < |d2| {
      assert t1[k + |d1|] == '.' && t2[k + |d1|] == d2[|d1|];
    } else if |d2| < |d1| {
      assert t2[k + |d2|] == '.' && t1[k + |d2|] == d1[|d2|];
    } else {
      if d1 == d2 {
        DecimalInjective(n1, n2);
      }
      assert t1[k..k + |d1|] == d1 && t2[k..k + |d2|] == d2;
    }
  }

  /** Two counter values give two different full names on one platform. */
  lemma TempNameDistinct(s1: string, n1: nat, e1: string, s2: string, n2: nat, e2: string,
                         win32: bool, tempPath: Option<string>)
    requires ValidStem(s1) && ValidStem(s2) && n1 != n2
    ensures TempName(s1, n1, e1, win32, tempPath) != TempName(s2, n2, e2, win32, tempPath)
  {
    var b1, b2 := TempBase(s1, n1, e1), TempBase(s2, n2, e2);
    TempBaseDistinct(s1, n1, e1, s2, n2, e2);
    if win32 && tempPath.Some? {
      var p := tempPath.value;
      assert (p + b1)[|p|..] == b1;
      assert (p + b2)[|p|..] == b2;
    } else if !win32 {
      var x1, x2 := b1 + "/tmp/" + b1, b2 + "/tmp/" + b2;
      if |b1| == |b2| {
        assert x1[..|b1|] == b1 && x2[..|b2|] == b2;
      } else {
        assert |x1| != |x2|;
      }
    }
  }

  /**
   * Temp files allocated at different counter values have different names,
   * whether or not the mktemp calls succeeded.
   */
  lemma TempFilesDistinct(env: Env, n1: nat, e1: string, t1: DataType, n2: nat, e2: string, t2: DataType)
    requires n1 != n2 && ValidStem(env.mktemp(n1)) && ValidStem(env.mktemp(n2))
    ensures TempFile(env, n1, e1, t1).name != TempFile(env, n2, e2, t2).name
  {
    TempNameDistinct(env.mktemp(n1), n1, e1, env.mktemp(n2), n2, e2, env.win32, env.tempPath);
  }
}
