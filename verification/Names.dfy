/** Names that Kubernetes accepts, for ASCII input: the passes of convert_to_rfc1123, and generate_name. */
module Names {
  import opened Sequences

  predicate IsUpper(c: char) { 'A' <= c <= 'Z' }

  predicate IsLowerAlnum(c: char) { 'a' <= c <= 'z' || '0' <= c <= '9' }

  predicate IsAlnum(c: char) { IsUpper(c) || IsLowerAlnum(c) }

  function Lower(c: char): char { if IsUpper(c) then (c as int + 32) as char else c }

  // ----- The passes -----

  /** re.sub(r"[^A-Z\d]", "-", s) without regard to case, on ASCII */
  function Hyphenate(s: string): string {
    if s == "" then "" else [if IsAlnum(s[0]) then s[0] else '-'] + Hyphenate(s[1..])
  }

  /** re.sub(r"^-+", "", s) */
  function TrimStart(s: string): string {
    if s != "" && s[0] == '-' then TrimStart(s[1..]) else s
  }

  /** re.sub(r"-+$", "", s); s has no line break here, since Hyphenate leaves none */
  function TrimEnd(s: string): string {
    if s != "" && s[|s| - 1] == '-' then TrimEnd(s[..|s| - 1]) else s
  }

  /** re.sub(r"-+", "-", s) */
  function Squeeze(s: string): string {
    if s == "" then ""
    else if s[0] == '-' && |s| > 1 && s[1] == '-' then Squeeze(s[1..])
    else [s[0]] + Squeeze(s[1..])
  }

  function LowerAll(s: string): string {
    if s == "" then "" else [Lower(s[0])] + LowerAll(s[1..])
  }

  function Convert(s: string): string { LowerAll(Squeeze(TrimEnd(TrimStart(Hyphenate(s))))) }

  // ----- What they amount to -----

  /** The maximal runs of alphanumerics of s, lower-cased; `run` is the run that s continues. */
  function Runs(s: string, run: string): seq<string> {
    if s == "" then (if run == "" then [] else [run])
    else if IsAlnum(s[0]) then Runs(s[1..], run + [Lower(s[0])])
    else (if run == "" then [] else [run]) + Runs(s[1..], "")
  }

  function Join(parts: seq<string>): string {
    if parts == [] then ""
    else if |parts| == 1 then parts[0]
    else parts[0] + "-" + Join(parts[1..])
  }

  /** A label of section 2.1 of RFC 1123, in lower case, as Kubernetes wants it. */
  predicate IsLabel(s: string) {
    && 0 < |s| <= 63
    && (forall i :: 0 <= i < |s| ==> IsLowerAlnum(s[i]) || s[i] == '-')
    && IsLowerAlnum(s[0]) && IsLowerAlnum(s[|s| - 1])
  }

  predicate HasAlnum(s: string) { exists i :: 0 <= i < |s| && IsAlnum(s[i]) }

  // ----- One pass over a string that does the same -----

  /** The conversion of s when something was written before (`started`) and hyphens are `pending`. */
  function Scan(s: string, started: bool, pending: bool): string {
    if s == "" then ""
    else if IsAlnum(s[0]) then
      (if started && pending then ['-', Lower(s[0])] else [Lower(s[0])]) + Scan(s[1..], true, false)
    else Scan(s[1..], started, true)
  }

  /** Of letters, digits and hyphens only. */
  predicate Plain(s: string) { forall i :: 0 <= i < |s| ==> IsAlnum(s[i]) || s[i] == '-' }

  lemma {:induction false} HyphenatePlain(s: string)
    ensures Plain(Hyphenate(s)) && |Hyphenate(s)| == |s|
    ensures forall i :: 0 <= i < |s| ==> Hyphenate(s)[i] == if IsAlnum(s[i]) then s[i] else '-'
  {
    if s != "" {
      HyphenatePlain(s[1..]);
    }
  }

  lemma {:induction false} ScanHyphenate(s: string, started: bool, pending: bool)
    ensures Scan(Hyphenate(s), started, pending) == Scan(s, started, pending)
  {
    if s != "" {
      assert Hyphenate(s)[1..] == Hyphenate(s[1..]);
      ScanHyphenate(s[1..], if IsAlnum(s[0]) then true else started, if IsAlnum(s[0]) then false else true);
    }
  }

  lemma {:induction false} ScanTrimStart(s: string, pending: bool)
    ensures Scan(TrimStart(s), false, pending) == Scan(s, false, pending)
    ensures TrimStart(s) == "" || TrimStart(s)[0] != '-'
  {
    ScanIgnoresPending(s, pending, true);
    if s != "" && s[0] == '-' {
      ScanTrimStart(s[1..], pending);
      ScanIgnoresPending(s[1..], pending, true);
    }
  }

  /** Hyphens before the first letter or digit leave no trace. */
  lemma ScanIgnoresPending(s: string, p: bool, q: bool)
    ensures Scan(s, false, p) == Scan(s, false, q)
  {
  }

  lemma {:induction false} ScanSnocHyphen(s: string, started: bool, pending: bool)
    ensures Scan(s + "-", started, pending) == Scan(s, started, pending)
  {
    if s == "" {
      assert s + "-" == "-";
      assert Scan("-"[1..], started, true) == "";
    } else {
      assert (s + "-")[1..] == s[1..] + "-";
      ScanSnocHyphen(s[1..], if IsAlnum(s[0]) then true else started, if IsAlnum(s[0]) then false else true);
    }
  }

  lemma {:induction false} ScanTrimEnd(s: string, started: bool, pending: bool)
    ensures Scan(TrimEnd(s), started, pending) == Scan(s, started, pending)
    ensures TrimEnd(s) <= s && (TrimEnd(s) == "" || TrimEnd(s)[|TrimEnd(s)| - 1] != '-')
  {
    if s != "" && s[|s| - 1] == '-' {
      ScanTrimEnd(s[..|s| - 1], started, pending);
      assert s == s[..|s| - 1] + "-";
      ScanSnocHyphen(s[..|s| - 1], started, pending);
    }
  }

  lemma LowerCons(c: char, s: string)
    ensures LowerAll([c] + s) == [Lower(c)] + LowerAll(s)
  {
    assert ([c] + s)[1..] == s;
  }

  lemma PutHyphen(c: char, s: string)
    ensures ['-'] + ([c] + s) == ['-', c] + s
  {
  }

  /** On a string of letters, digits and hyphens that ends with none, squeezing and lowering is scanning. */
  lemma {:induction false} SqueezeIsScan(s: string)
    requires Plain(s) && (s == "" || s[|s| - 1] != '-')
    ensures LowerAll(Squeeze(s)) == Scan(s, true, false)
    decreases |s|, 1
  {
    if s != "" {
      if s[0] != '-' {
        SqueezeIsScan(s[1..]);
        LowerCons(s[0], Squeeze(s[1..]));
      } else {
        SqueezeHyphens(s);
      }
    }
  }

  lemma {:induction false} SqueezeHyphens(s: string)
    requires Plain(s) && s != "" && s[0] == '-' && s[|s| - 1] != '-'
    ensures LowerAll(Squeeze(s)) == Scan(s[1..], true, true)
    decreases |s|, 0
  {
    var t := s[1..];
    if t[0] == '-' {
      SqueezeHyphens(t);
    } else {
      var u := t[1..];
      SqueezeIsScan(u);
      LowerCons('-', [t[0]] + Squeeze(u));
      LowerCons(t[0], Squeeze(u));
      PutHyphen(Lower(t[0]), LowerAll(Squeeze(u)));
    }
  }

  /** The passes do the same as the single scan. */
  lemma ConvertIsScan(s: string)
    ensures Convert(s) == Scan(s, false, false)
  {
    var h := Hyphenate(s);
    HyphenatePlain(s);
    ScanHyphenate(s, false, false);
    TrimStartSuffix(h);
    var t := TrimStart(h);
    ScanTrimStart(h, false);
    var u := TrimEnd(t);
    ScanTrimEnd(t, false, false);
    assert Plain(u) && (u == "" || u[0] != '-');
    SqueezeIsScan(u);
    if u != "" {
      assert Scan(u, true, false) == Scan(u, false, false);
    }
  }

  lemma {:induction false} TrimStartSuffix(s: string)
    requires Plain(s)
    ensures Plain(TrimStart(s))
  {
    if s != "" && s[0] == '-' {
      TrimStartSuffix(s[1..]);
    }
  }

  // ----- The scan is the joined runs -----

  /** What a scan writes once `run` is under way, and the hyphen it puts before the runs that follow. */
  ghost predicate Joins(s: string) {
    && (forall run :: run != "" ==> Join(Runs(s, run)) == run + Scan(s, true, false) && Runs(s, run) != [])
    && Join(Runs(s, "")) == Scan(s, false, false)
    && Scan(s, true, true) == (if Runs(s, "") == [] then "" else "-" + Join(Runs(s, "")))
  }

  lemma {:induction false} ScanIsJoin(s: string)
    ensures Joins(s)
  {
    if s == "" {
      forall run: string | run != "" ensures Join(Runs(s, run)) == run + Scan(s, true, false) {
        assert run + "" == run;
      }
    } else {
      ScanIsJoin(s[1..]);
      if IsAlnum(s[0]) {
        JoinsLetter(s);
      } else {
        JoinsOther(s);
      }
    }
  }

  lemma JoinsLetter(s: string)
    requires s != "" && IsAlnum(s[0]) && Joins(s[1..])
    ensures Joins(s)
  {
    var l, rest := Lower(s[0]), Scan(s[1..], true, false);
    forall run: string | run != ""
      ensures Join(Runs(s, run)) == run + Scan(s, true, false) && Runs(s, run) != []
    {
      assert run + [l] != "";
      Assoc(run, [l], rest);
    }
    assert "" + [l] == [l];
    PutHyphen(l, rest);
  }

  lemma JoinsOther(s: string)
    requires s != "" && !IsAlnum(s[0]) && Joins(s[1..])
    ensures Joins(s)
  {
    var rest := Runs(s[1..], "");
    ScanIgnoresPending(s[1..], false, true);
    assert Runs(s, "") == [] + rest == rest;
    forall run: string | run != ""
      ensures Join(Runs(s, run)) == run + Scan(s, true, false) && Runs(s, run) != []
    {
      assert Runs(s, run) == [run] + rest;
      assert ([run] + rest)[1..] == rest;
      assert run + "" == run;
      assert run + "-" + Join(rest) == run + ("-" + Join(rest));
    }
  }

  /** The conversion is the lower-cased maximal alphanumeric runs, joined by single hyphens. */
  lemma ConvertIsRuns(s: string)
    ensures Convert(s) == Join(Runs(s, ""))
  {
    ConvertIsScan(s);
    ScanIsJoin(s);
  }

  /** Each run is a maximal one: non-empty, and of lower-case letters and digits only. */
  lemma {:induction false} RunsAreRuns(s: string, run: string)
    requires forall i :: 0 <= i < |run| ==> IsLowerAlnum(run[i])
    ensures forall r :: r in Runs(s, run) ==> r != "" && forall i :: 0 <= i < |r| ==> IsLowerAlnum(r[i])
    decreases |s|
  {
    if s != "" {
      if IsAlnum(s[0]) {
        RunsAreRuns(s[1..], run + [Lower(s[0])]);
      } else {
        RunsAreRuns(s[1..], "");
      }
    }
  }

  // ----- What determines the conversion -----

  lemma {:induction false} RunsSplit(a: string, c: char, b: string, run: string)
    requires !IsAlnum(c)
    ensures Runs(a + [c] + b, run) == Runs(a, run) + Runs(b, "")
    decreases |a|
  {
    if a == "" {
      assert "" + [c] + b == [c] + b && ([c] + b)[1..] == b;
    } else {
      assert (a + [c] + b)[1..] == a[1..] + [c] + b;
      RunsSplit(a[1..], c, b, if IsAlnum(a[0]) then run + [Lower(a[0])] else "");
    }
  }

  lemma {:induction false} JoinConcat(x: seq<string>, y: seq<string>)
    requires x != [] && y != []
    ensures Join(x + y) == Join(x) + "-" + Join(y)
  {
    if |x| == 1 {
      assert x + y == [x[0]] + y && (x + y)[1..] == y;
    } else {
      assert (x + y)[1..] == x[1..] + y;
      JoinConcat(x[1..], y);
      Assoc(x[0] + "-", Join(x[1..]), "-");
      Assoc(x[0] + "-", Join(x[1..]) + "-", Join(y));
    }
  }

  lemma JoinEmpty(s: string)
    ensures Join(Runs(s, "")) == "" <==> Runs(s, "") == []
  {
    RunsAreRuns(s, "");
    if Runs(s, "") != [] {
      assert Runs(s, "")[0] in Runs(s, "");
    }
  }

  /** Whatever is neither a letter nor a digit separates: its sides are converted apart, with one hyphen between. */
  lemma ConvertSplit(a: string, c: char, b: string)
    requires !('A' <= c <= 'Z' || 'a' <= c <= 'z' || '0' <= c <= '9')
    ensures Convert(a + [c] + b) ==
            if Convert(a) == "" then Convert(b)
            else if Convert(b) == "" then Convert(a)
            else Convert(a) + "-" + Convert(b)
  {
    ConvertIsRuns(a);
    ConvertIsRuns(b);
    ConvertIsRuns(a + [c] + b);
    RunsSplit(a, c, b, "");
    JoinEmpty(a);
    JoinEmpty(b);
    var x, y := Runs(a, ""), Runs(b, "");
    if x == [] {
      assert x + y == y;
    } else if y == [] {
      assert x + y == x;
    } else {
      JoinConcat(x, y);
    }
  }

  lemma {:induction false} ScanWord(s: string, started: bool)
    requires forall i :: 0 <= i < |s| ==> IsAlnum(s[i])
    ensures |Scan(s, started, false)| == |s|
    ensures forall i :: 0 <= i < |s| ==> Scan(s, started, false)[i] == Lower(s[i])
  {
    if s != "" {
      ScanWord(s[1..], true);
    }
  }

  /** Letters and digits are kept one by one, in lower case. */
  lemma ConvertWord(s: string)
    requires forall i :: 0 <= i < |s| ==> 'A' <= s[i] <= 'Z' || 'a' <= s[i] <= 'z' || '0' <= s[i] <= '9'
    ensures |Convert(s)| == |s|
    ensures forall i :: 0 <= i < |s| ==>
              Convert(s)[i] as int == s[i] as int + if 'A' <= s[i] <= 'Z' then 'a' as int - 'A' as int else 0
  {
    ConvertIsScan(s);
    ScanWord(s, false);
  }

  // ----- Idempotence -----

  /** What a scan writes is written again unchanged. */
  lemma {:induction false} ScanAgain(s: string, started: bool, pending: bool)
    ensures Scan(Scan(s, started, pending), started, false) == Scan(s, started, pending)
    decreases |s|
  {
    if s != "" {
      if IsAlnum(s[0]) {
        ScanAgain(s[1..], true, false);
        ScanCons(Lower(s[0]), Scan(s[1..], true, false), started, started && pending);
      } else {
        ScanAgain(s[1..], started, true);
      }
    }
  }

  lemma ScanCons(c: char, rest: string, started: bool, hyphen: bool)
    requires IsLowerAlnum(c) && Scan(rest, true, false) == rest && (hyphen ==> started)
    ensures var out := (if hyphen then ['-', c] else [c]) + rest; Scan(out, started, false) == out
  {
    assert Lower(c) == c;
    assert ([c] + rest)[1..] == rest;
    assert (['-', c] + rest)[1..] == [c] + rest;
  }

  lemma ConvertIdempotent(s: string)
    ensures Convert(Convert(s)) == Convert(s)
  {
    ConvertIsScan(s);
    ConvertIsScan(Convert(s));
    ScanAgain(s, false, false);
  }

  // ----- Generated names -----

  predicate EndsWithHyphen(s: string) { s != "" && s[|s| - 1] == '-' }

  function Truncate(s: string): string { if |s| <= 57 then s else s[..57] }

  function GenerateName(testrun: string): string {
    var name := Convert(testrun);
    if !EndsWithHyphen(name) then Truncate(name) + "-" else name
  }

  /** What a scan writes: lower-case letters, digits and hyphens, a letter or digit first and last. */
  lemma {:induction false} ScanShape(s: string, started: bool, pending: bool)
    ensures var r := Scan(s, started, pending);
            && (forall i :: 0 <= i < |r| ==> IsLowerAlnum(r[i]) || r[i] == '-')
            && (r != "" <==> HasAlnum(s))
            && (r != "" ==> IsLowerAlnum(r[|r| - 1]) && (!started ==> IsLowerAlnum(r[0])))
    decreases |s|
  {
    if s != "" {
      if IsAlnum(s[0]) {
        ScanShape(s[1..], true, false);
        assert HasAlnum(s);
      } else {
        ScanShape(s[1..], started, true);
        if HasAlnum(s) {
          var i :| 0 <= i < |s| && IsAlnum(s[i]);
          assert IsAlnum(s[1..][i - 1]);
        }
        if HasAlnum(s[1..]) {
          var i :| 0 <= i < |s[1..]| && IsAlnum(s[1..][i]);
          assert IsAlnum(s[i + 1]);
        }
      }
    }
  }

  /** A generated name keeps the first 57 characters of the converted name, and ends with one hyphen. */
  lemma GeneratedKeeps(testrun: string)
    ensures var name := Convert(testrun);
            GenerateName(testrun) == (if |name| < 57 then name else name[..57]) + "-"
  {
    ConvertIsScan(testrun);
    ScanShape(testrun, false, false);
  }

  /**
   A generated name followed by the five random characters of Kubernetes has at most 63 characters, and
   is a valid label if and only if the test run's name has a letter or digit.
   */
  lemma GeneratedNameIsLabel(testrun: string, random: string)
    requires |random| == 5 && forall i :: 0 <= i < 5 ==> IsLowerAlnum(random[i])
    ensures |GenerateName(testrun) + random| <= 63
    ensures IsLabel(GenerateName(testrun) + random) <==> HasAlnum(testrun)
  {
    ConvertIsScan(testrun);
    ScanShape(testrun, false, false);
    var name := Convert(testrun);
    assert !EndsWithHyphen(name);
    var full := Truncate(name) + "-" + random;
    assert full == GenerateName(testrun) + random;
    assert full[|full| - 1] == random[4];
    if name != "" {
      assert full[0] == name[0];
    } else {
      assert full[0] == '-';
    }
  }
}
