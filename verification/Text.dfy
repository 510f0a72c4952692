/** The string operations that the sources use: `trim` and the emptiness test built on it. */
module Text {
  /** ECMAScript white space and line terminators. */
  predicate IsSpace(c: char) {
    || '\t' <= c <= '\r' || c == ' ' || c == '\U{00A0}' || c == '\U{1680}'
    || '\U{2000}' <= c <= '\U{200A}' || c == '\U{2028}' || c == '\U{2029}' || c == '\U{202F}'
    || c == '\U{205F}' || c == '\U{3000}' || c == '\U{FEFF}'
  }

  function TrimStart(s: string): string {
    if s != "" && IsSpace(s[0]) then TrimStart(s[1..]) else s
  }

  function TrimEnd(s: string): string {
    if s != "" && IsSpace(s[|s| - 1]) then TrimEnd(s[..|s| - 1]) else s
  }

  function Trim(s: string): string {
    TrimEnd(TrimStart(s))
  }

  predicate IsBlank(s: string) {
    Trim(s) == ""
  }

  lemma {:induction false} TrimStartBare(s: string)
    ensures TrimStart(s) == "" || !IsSpace(TrimStart(s)[0])
  {
    if s != "" && IsSpace(s[0]) {
      TrimStartBare(s[1..]);
    }
  }

  lemma {:induction false} TrimEndBare(s: string)
    ensures TrimEnd(s) <= s
    ensures TrimEnd(s) == "" || !IsSpace(TrimEnd(s)[|TrimEnd(s)| - 1])
  {
    if s != "" && IsSpace(s[|s| - 1]) {
      TrimEndBare(s[..|s| - 1]);
    }
  }

  /** Trimming twice is trimming once. */
  lemma TrimTwice(s: string)
    ensures Trim(Trim(s)) == Trim(s)
  {
    var t := TrimStart(s);
    TrimStartBare(s);
    TrimEndBare(t);
  }

  /** Upper case, of the ASCII letters only. */
  function UpperChar(c: char): char { if 'a' <= c <= 'z' then ((c as int) - 32) as char else c }

  function Upper(s: string): string { seq(|s|, i requires 0 <= i < |s| => UpperChar(s[i])) }

  lemma TrimBare(s: string)
    requires s == "" || (!IsSpace(s[0]) && !IsSpace(s[|s| - 1]))
    ensures Trim(s) == s
  {
  }

  /** Trimming and upper-casing twice is doing it once. */
  lemma UpperTrimTwice(s: string)
    ensures Upper(Trim(Upper(Trim(s)))) == Upper(Trim(s))
  {
    var t := Trim(s);
    TrimStartBare(s);
    TrimEndBare(TrimStart(s));
    TrimBare(Upper(t));
    assert forall i :: 0 <= i < |t| ==> Upper(Upper(t))[i] == Upper(t)[i];
  }

  predicate Blanks(s: string) { forall i :: 0 <= i < |s| ==> IsSpace(s[i]) }

  lemma {:induction false} TrimStartBlanks(before: string, s: string)
    requires Blanks(before) && (s == "" || !IsSpace(s[0]))
    ensures TrimStart(before + s) == s
  {
    if before == "" {
      assert before + s == s;
    } else {
      assert (before + s)[1..] == before[1..] + s;
      TrimStartBlanks(before[1..], s);
    }
  }

  lemma {:induction false} TrimEndBlanks(s: string, after: string)
    requires Blanks(after) && (s == "" || !IsSpace(s[|s| - 1]))
    ensures TrimEnd(s + after) == s
  {
    if after == "" {
      assert s + after == s;
    } else {
      var n := |after| - 1;
      assert (s + after)[..|s + after| - 1] == s + after[..n];
      TrimEndBlanks(s, after[..n]);
    }
  }

  /** What trimming gives: the string without the blanks around it. */
  lemma TrimTakesBlanks(before: string, s: string, after: string)
    requires Blanks(before) && Blanks(after) && (s == "" || (!IsSpace(s[0]) && !IsSpace(s[|s| - 1])))
    ensures Trim(before + s + after) == s
  {
    if s == "" {
      assert before + s + after == (before + after) + "";
      TrimStartBlanks(before + after, "");
    } else {
      assert before + s + after == before + (s + after);
      TrimStartBlanks(before, s + after);
      TrimEndBlanks(s, after);
    }
  }

  lemma {:induction false} StartSplits(s: string) returns (before: string)
    ensures Blanks(before) && s == before + TrimStart(s)
  {
    if s != "" && IsSpace(s[0]) {
      before := StartSplits(s[1..]);
      assert s == [s[0]] + s[1..];
      before := [s[0]] + before;
    } else {
      before := "";
    }
  }

  lemma {:induction false} EndSplits(s: string) returns (after: string)
    ensures Blanks(after) && s == TrimEnd(s) + after
  {
    if s != "" && IsSpace(s[|s| - 1]) {
      after := EndSplits(s[..|s| - 1]);
      assert s == s[..|s| - 1] + [s[|s| - 1]];
      after := after + [s[|s| - 1]];
    } else {
      after := "";
    }
  }

  /** A string is blank exactly when it holds nothing but blanks. */
  lemma IsBlankIff(s: string)
    ensures IsBlank(s) <==> Blanks(s)
  {
    if Blanks(s) {
      TrimTakesBlanks(s, "", "");
      assert s + "" + "" == s;
    }
    if IsBlank(s) {
      var before := StartSplits(s);
      var after := EndSplits(TrimStart(s));
      assert s == before + after;
    }
  }

  lemma UpperSplits(s: string, t: string)
    ensures |Upper(s)| == |s|
    ensures Upper(s) == t <==> |t| == |s| && forall i :: 0 <= i < |s| ==>
              if 'a' <= s[i] <= 'z' then t[i] as int - 'A' as int == s[i] as int - 'a' as int else t[i] == s[i]
  {
  }
}
