/** The registry file name and output folder (main.py:536-537, main.py:687-689). */
module FileName {
  import Seqs
  import Decimal
  import Period

  /** The nine characters the sanitising pattern deletes: backslash, slash,
      star, question mark, colon, double quote, angle brackets and bar. */
  predicate Forbidden(c: char) {
    c == '\\' || c == '/' || c == '*' || c == '?' || c == ':' || c == '"' || c == '<' || c == '>' || c == '|'
  }

  predicate Allowed(c: char) {
    !Forbidden(c)
  }

  predicate Clean(s: string) {
    forall i :: 0 <= i < |s| ==> Allowed(s[i])
  }

  /** The subscriber name with every forbidden character deleted. */
  function Sanitize(name: string): (safe: string)
    ensures Clean(safe)
    ensures |safe| <= |name|
  {
    Seqs.Filter(name, Allowed)
  }

  /** Every allowed character of the name survives sanitising. */
  lemma SanitizeKeepsAllowed(name: string, i: int)
    requires 0 <= i < |name| && Allowed(name[i])
    ensures name[i] in Sanitize(name)
  {
    Seqs.FilterMembers(name, Allowed);
  }

  /** Sanitising only deletes characters, is idempotent, and leaves clean names alone. */
  lemma SanitizeProperties(name: string)
    ensures Seqs.IsSubsequence(Sanitize(name), name)
    ensures Sanitize(Sanitize(name)) == Sanitize(name)
    ensures Clean(name) ==> Sanitize(name) == name
  {
    Seqs.FilterIsSubsequence(name, Allowed);
    Seqs.FilterIdempotent(name, Allowed);
    if Clean(name) {
      Seqs.FilterKeepsAll(name, Allowed);
    }
  }

  /** Sanitising works character by character. */
  lemma SanitizeConcat(a: string, b: string)
    ensures Sanitize(a + b) == Sanitize(a) + Sanitize(b)
  {
    Seqs.FilterConcat(a, b, Allowed);
  }

  /** Two different subscriber names can sanitise to the same name, so their
      registries for one period share one file name. */
  lemma DistinctNamesCanCollide()
    ensures Sanitize("A/B") == Sanitize("AB") == "AB"
  {
    SanitizeConcat("A", "/B");
    SanitizeConcat("/", "B");
    SanitizeConcat("A", "B");
  }

  /** A clean prefix passes through sanitising untouched. */
  lemma SanitizeCleanPrefix(x: string, y: string)
    requires Clean(x)
    ensures Sanitize(x + y) == x + Sanitize(y)
  {
    SanitizeConcat(x, y);
    SanitizeProperties(x);
  }

  /** A forbidden leading character is dropped. */
  lemma SanitizeForbiddenPrefix(c: char, y: string)
    requires Forbidden(c)
    ensures Sanitize([c] + y) == Sanitize(y)
  {
    SanitizeConcat([c], y);
  }

  // SanitizeDropsSeparators, Regroup, YearExample, RegistryFileNameParts and
  // ExampleSpelling split the worked example into named pieces; given the
  // whole literal string at once, the verifier unrolls it character by
  // character and runs out of resources. The examples take the name as a
  // parameter fixed by `requires` for the same reason.

  /** Forbidden characters between clean pieces vanish and the pieces join up. */
  lemma SanitizeDropsSeparators(a: string, q1: char, b: string, q2: char, q3: char, c: string)
    requires Clean(a) && Clean(b) && Clean(c)
    requires Forbidden(q1) && Forbidden(q2) && Forbidden(q3)
    ensures Sanitize(a + [q1] + b + [q2, q3] + c) == a + b + c
  {
    var t1 := [q3] + c;
    var t2 := [q2] + t1;
    var t3 := b + t2;
    var t4 := [q1] + t3;
    var t5 := a + t4;
    SanitizeProperties(c);
    SanitizeForbiddenPrefix(q3, c);
    SanitizeForbiddenPrefix(q2, t1);
    SanitizeCleanPrefix(b, t2);
    SanitizeForbiddenPrefix(q1, t3);
    SanitizeCleanPrefix(a, t4);
    assert Sanitize(t5) == a + (b + c);
    Regroup(a, q1, b, q2, q3, c);
  }

  lemma Regroup(a: string, q1: char, b: string, q2: char, q3: char, c: string)
    ensures a + [q1] + b + [q2, q3] + c == a + ([q1] + (b + ([q2] + ([q3] + c))))
    ensures a + (b + c) == a + b + c
  {
  }

  /** Quotes and slashes are deleted from `ООО "Ромашка"/2`. */
  lemma SanitizeExample(name: string)
    requires name == "ООО \"Ромашка\"/2"
    ensures Sanitize(name) == "ООО Ромашка2"
  {
    var a, b, c := "ООО ", "Ромашка", "2";
    assert name == a + ['"'] + b + ['"', '/'] + c;
    assert Clean(a) && Clean(b) && Clean(c);
    SanitizeDropsSeparators(a, '"', b, '"', '/', c);
  }

  const Suffix := "_реестр.docx"

  /** `<safe name>_<month name>_<year>_реестр.docx`. */
  function RegistryFileName(name: string, month: int, year: int): (f: string)
    requires 1 <= month <= 12
    ensures |f| > |Sanitize(name)| + |Suffix|
    ensures f[..|Sanitize(name)|] == Sanitize(name)
    ensures f[|f| - |Suffix|..] == Suffix
  {
    var f := Sanitize(name) + "_" + Period.MonthName(month) + "_" + Decimal.IntToString(year) + Suffix;
    assert f[..|Sanitize(name)|] == Sanitize(name);
    f
  }

  /** Every month name is free of underscores and forbidden characters. */
  lemma MonthNameShape(m: int)
    requires 1 <= m <= 12
    ensures Clean(Period.MonthName(m))
    ensures '_' !in Period.MonthName(m)
  {
  }

  /** A year renders as a sign and digits only. */
  lemma YearShape(y: int)
    ensures Clean(Decimal.IntToString(y))
    ensures '_' !in Decimal.IntToString(y)
  {
    var s := Decimal.IntToString(y);
    forall i | 0 <= i < |s|
      ensures Allowed(s[i]) && s[i] != '_'
    {
      if i > 0 {
        assert Decimal.IsDigit(s[i]);
      }
    }
  }

  lemma CleanConcat(a: string, b: string)
    requires Clean(a) && Clean(b)
    ensures Clean(a + b)
  {
    forall i | 0 <= i < |a + b|
      ensures Allowed((a + b)[i])
    {
      if i >= |a| {
        assert (a + b)[i] == b[i - |a|];
      }
    }
  }

  /** A registry file name never contains a character forbidden in a path. */
  lemma RegistryFileNameIsClean(name: string, month: int, year: int)
    requires 1 <= month <= 12
    ensures Clean(RegistryFileName(name, month, year))
  {
    MonthNameShape(month);
    YearShape(year);
    var safe, mn, ys := Sanitize(name), Period.MonthName(month), Decimal.IntToString(year);
    CleanConcat(safe, "_");
    CleanConcat(safe + "_", mn);
    CleanConcat(safe + "_" + mn, "_");
    CleanConcat(safe + "_" + mn + "_", ys);
    CleanConcat(safe + "_" + mn + "_" + ys, Suffix);
  }

  /** If `a + "_" + x == b + "_" + y` and neither `a` nor `b` holds an
      underscore, then the parts agree. */
  lemma SplitAtFirstUnderscore(a: string, x: string, b: string, y: string)
    requires '_' !in a && '_' !in b
    requires a + "_" + x == b + "_" + y
    ensures a == b && x == y
  {
    var s := a + "_" + x;
    assert forall i :: 0 <= i < |a| ==> s[i] == a[i];
    assert forall i :: 0 <= i < |b| ==> s[i] == b[i];
    assert s[|a|] == '_' && s[|b|] == '_';
    assert |a| == |b|;
    assert a == s[..|a|] == b;
    assert x == s[|a| + 1..] == y;
  }

  /** The part of a registry file name after the sanitised name and its underscore. */
  lemma FileNameAfterName(name: string, month: int, year: int)
    requires 1 <= month <= 12
    ensures var f := RegistryFileName(name, month, year);
            f[|Sanitize(name)| + 1..] == Period.MonthName(month) + "_" + (Decimal.IntToString(year) + Suffix)
  {
    var safe, mn, ys := Sanitize(name), Period.MonthName(month), Decimal.IntToString(year);
    var rest := mn + "_" + (ys + Suffix);
    var f := RegistryFileName(name, month, year);
    assert f == safe + "_" + mn + "_" + ys + Suffix;
    assert safe + "_" + mn + "_" + ys + Suffix == (safe + "_") + rest;
    assert |safe + "_"| == |safe| + 1;
  }

  /** The file name depends on the subscriber's name only through its safe name. */
  lemma SameSafeNameSameFileName(a: string, b: string, month: int, year: int)
    requires 1 <= month <= 12
    requires Sanitize(a) == Sanitize(b)
    ensures RegistryFileName(a, month, year) == RegistryFileName(b, month, year)
  {
  }

  /** One subscriber's registries for different periods have different file
      names, so that subscriber's registries never replace each other even
      though every year's registries of a month share that month's folder. */
  lemma FileNameDistinguishesPeriods(name: string, m1: int, y1: int, m2: int, y2: int)
    requires 1 <= m1 <= 12 && 1 <= m2 <= 12
    requires RegistryFileName(name, m1, y1) == RegistryFileName(name, m2, y2)
    ensures m1 == m2 && y1 == y2
  {
    var ys1, ys2 := Decimal.IntToString(y1), Decimal.IntToString(y2);
    FileNameAfterName(name, m1, y1);
    FileNameAfterName(name, m2, y2);
    MonthNameShape(m1);
    MonthNameShape(m2);
    SplitAtFirstUnderscore(Period.MonthName(m1), ys1 + Suffix, Period.MonthName(m2), ys2 + Suffix);
    Period.MonthNameInjective(m1, m2);
    assert ys1 == (ys1 + Suffix)[..|ys1|];
    assert ys2 == (ys2 + Suffix)[..|ys2|];
    Decimal.IntToStringInjective(y1, y2);
  }

  /** Windows path joining (`os.path.join` on a single component): no extra
      separator after an empty root or one that already ends in a separator. */
  function JoinPath(root: string, part: string): (p: string)
    ensures |part| <= |p|
    ensures p[|p| - |part|..] == part
    ensures root == "" ==> p == part
    ensures |root| <= |p|
    ensures p[..|root|] == root
  {
    if root == "" then part
    else if root[|root| - 1] == '\\' || root[|root| - 1] == '/' then root + part
    else root + "\\" + part
  }

  /** Under one root, different parts give different paths. */
  lemma JoinPathInjective(root: string, a: string, b: string)
    requires JoinPath(root, a) == JoinPath(root, b)
    ensures a == b
  {
    assert |a| == |b|;
  }

  /** The folder used when the settings give no `save_path`. */
  const DefaultSavePath := "C:\\Реестры по абонентам"

  lemma YearExample()
    ensures Decimal.IntToString(2024) == "2024"
  {
    assert Decimal.NatToString(2) == "2";
    assert Decimal.NatToString(20) == "20";
    assert Decimal.NatToString(202) == "202";
  }

  /** The file name assembled from already-computed parts. */
  lemma RegistryFileNameParts(name: string, month: int, year: int, safe: string, monthName: string, yearText: string)
    requires 1 <= month <= 12
    requires Sanitize(name) == safe && Period.MonthName(month) == monthName && Decimal.IntToString(year) == yearText
    ensures RegistryFileName(name, month, year) == safe + "_" + monthName + "_" + yearText + Suffix
  {
  }

  /** The registry of `ООО "Ромашка"/2` for March 2024. */
  lemma FileNameExample(name: string)
    requires name == "ООО \"Ромашка\"/2"
    ensures RegistryFileName(name, 3, 2024) == "ООО Ромашка2_март_2024_реестр.docx"
  {
    SanitizeExample(name);
    YearExample();
    RegistryFileNameParts(name, 3, 2024, "ООО Ромашка2", "март", "2024");
    ExampleSpelling();
  }

  lemma ExampleSpelling()
    ensures "ООО Ромашка2" + "_" + "март" + "_" + "2024" + Suffix == "ООО Ромашка2_март_2024_реестр.docx"
  {
  }
}
