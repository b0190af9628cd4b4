/**
 * The page-ordering puzzle of src/day_5.c, as far as it goes: the rule
 * lines before the first empty line are split at '|' with strtok, every
 * piece is read with atoi into a container of src/array.c, and a line that
 * does not give exactly two numbers is reported. Both answers stay 0.
 */
module Day5 {
  import opened ErrorCodes
  import opened Wrappers
  import opened CText
  import Arrays

  /** The number of integers a well-formed rule line holds. */
  const DigitsCap: nat := 2

  /** The number of leading characters of s that are in the delimiter set (strspn). */
  function SkipDelims(s: string, delim: set<char>): (j: nat)
    ensures j <= |s|
  {
    if |s| > 0 && s[0] in delim then 1 + SkipDelims(s[1..], delim) else 0
  }

  /** The number of leading characters of s that are not in the delimiter set (strcspn). */
  function TokenEnd(s: string, delim: set<char>): (j: nat)
    ensures j <= |s|
  {
    if |s| > 0 && s[0] !in delim then 1 + TokenEnd(s[1..], delim) else 0
  }

  /** SkipDelims passes over delimiters only and stops at a character that is none. */
  lemma {:induction false} SkipDelimsSpec(s: string, delim: set<char>)
    ensures forall k | 0 <= k < SkipDelims(s, delim) :: s[k] in delim
    ensures SkipDelims(s, delim) < |s| ==> s[SkipDelims(s, delim)] !in delim
    decreases |s|
  {
    if |s| > 0 && s[0] in delim {
      SkipDelimsSpec(s[1..], delim);
    }
  }

  /** TokenEnd passes over non-delimiters only and stops at a delimiter or the end. */
  lemma {:induction false} TokenEndSpec(s: string, delim: set<char>)
    ensures forall k | 0 <= k < TokenEnd(s, delim) :: s[k] !in delim
    ensures TokenEnd(s, delim) < |s| ==> s[TokenEnd(s, delim)] in delim
    decreases |s|
  {
    if |s| > 0 && s[0] !in delim {
      TokenEndSpec(s[1..], delim);
    }
  }

  /** A token strtok returns, and the rest of the string its saved pointer then points to. */
  datatype Token = Token(text: string, rest: string)

  /**
   * One strtok call on the string its saved pointer points to: skip
   * delimiters and return the run up to the next delimiter. strtok
   * overwrites that delimiter with NUL and saves the position after it; at
   * the end of the string it saves the end. None is the NULL returned when
   * only delimiters are left.
   */
  function StrTok(s: string, delim: set<char>): (r: Option<Token>)
    ensures r.Some? ==> |r.value.text| > 0 && |r.value.rest| < |s|
    decreases |s|
  {
    if |s| == 0 then None
    else if s[0] in delim then StrTok(s[1..], delim)
    else
      var e := TokenEnd(s, delim);
      Some(Token(s[..e], if e < |s| then s[e + 1..] else []))
  }

  /** strtok returns NULL exactly when only delimiters are left. */
  lemma {:induction false} StrTokNone(s: string, delim: set<char>)
    ensures StrTok(s, delim).None? <==> forall k | 0 <= k < |s| :: s[k] in delim
    decreases |s|
  {
    if |s| > 0 && s[0] in delim {
      StrTokNone(s[1..], delim);
      assert forall k | 0 < k < |s| :: s[k] == s[1..][k - 1];
    }
  }

  /**
   * A token strtok returns is the delimiter-free run after the leading
   * delimiters (as many as strspn counts), ended by a delimiter the saved
   * pointer skips or by the end of the string.
   */
  lemma {:induction false} StrTokSome(s: string, delim: set<char>)
    requires StrTok(s, delim).Some?
    ensures var t := StrTok(s, delim).value;
      var j := SkipDelims(s, delim);
      var e := j + |t.text|;
      && e <= |s| && s[j..e] == t.text
      && (forall c | c in t.text :: c !in delim)
      && (e == |s| ==> t.rest == [])
      && (e < |s| ==> s[e] in delim && t.rest == s[e + 1..])
    decreases |s|
  {
    if s[0] in delim {
      StrTokSome(s[1..], delim);
      var j := SkipDelims(s[1..], delim);
      var e := j + |StrTok(s, delim).value.text|;
      assert s[1..][j..e] == s[j + 1..e + 1];
      if e < |s| - 1 {
        assert s[1..][e + 1..] == s[e + 2..];
      }
    } else {
      var e := TokenEnd(s, delim);
      TokenEndSpec(s, delim);
      assert s[0..e] == s[..e];
      forall c | c in s[..e]
        ensures c !in delim
      {
        var k :| 0 <= k < e && s[..e][k] == c;
      }
    }
  }

  /** The tokens successive strtok calls return, starting from s. */
  function Tokens(s: string, delim: set<char>): (ts: seq<string>)
    decreases |s|
  {
    match StrTok(s, delim)
    case None => []
    case Some(t) => [t.text] + Tokens(t.rest, delim)
  }

  /**
   * Tokens are non-empty and apart by at least one delimiter, so a string
   * of n characters yields at most (n + 1) / 2 of them.
   */
  lemma {:induction false} TokenCount(s: string, delim: set<char>)
    ensures 2 * |Tokens(s, delim)| <= |s| + 1
    decreases |s|
  {
    var r := StrTok(s, delim);
    if r.Some? {
      var t := r.value;
      StrTokSome(s, delim);
      TokenCount(t.rest, delim);
    }
  }

  /** Every token is non-empty and holds no delimiter. */
  lemma {:induction false} TokensShape(s: string, delim: set<char>)
    ensures forall t | t in Tokens(s, delim) :: |t| > 0 && forall c | c in t :: c !in delim
    decreases |s|
  {
    var r := StrTok(s, delim);
    if r.Some? {
      StrTokSome(s, delim);
      TokensShape(r.value.rest, delim);
    }
  }

  /** A string of delimiters only yields no token. */
  lemma NoTokens(s: string, delim: set<char>)
    requires forall k | 0 <= k < |s| :: s[k] in delim
    ensures Tokens(s, delim) == []
  {
    StrTokNone(s, delim);
  }

  /** A non-empty string without delimiters is one token. */
  lemma OneToken(s: string, delim: set<char>)
    requires |s| > 0 && forall k | 0 <= k < |s| :: s[k] !in delim
    ensures Tokens(s, delim) == [s]
  {
    TokenEndAll(s, delim);
    assert s[..|s|] == s;
  }

  /** A string without delimiters is one run for TokenEnd. */
  lemma {:induction false} TokenEndAll(s: string, delim: set<char>)
    requires forall k | 0 <= k < |s| :: s[k] !in delim
    ensures TokenEnd(s, delim) == |s|
    decreases |s|
  {
    if |s| > 0 {
      assert forall k | 0 <= k < |s| - 1 :: s[1..][k] == s[k + 1];
      TokenEndAll(s[1..], delim);
    }
  }

  /** A leading delimiter is skipped: strtok gives the same as on the string after it. */
  lemma SkipOne(s: string, delim: set<char>)
    requires |s| > 0 && s[0] in delim
    ensures StrTok(s, delim) == StrTok(s[1..], delim)
  {
  }

  /** Strings on which strtok agrees have the same tokens. */
  lemma SameTokens(s: string, s': string, delim: set<char>)
    requires StrTok(s, delim) == StrTok(s', delim)
    ensures Tokens(s, delim) == Tokens(s', delim)
  {
  }

  /** The run before the first delimiter of a + c is that of a when a itself holds a delimiter or c starts with one. */
  lemma {:induction false} TokenEndPrefix(a: string, c: string, delim: set<char>)
    requires TokenEnd(a, delim) < |a| || (|c| > 0 && c[0] in delim)
    ensures TokenEnd(a + c, delim) == TokenEnd(a, delim)
  {
    if |a| > 0 && a[0] !in delim {
      assert (a + c)[1..] == a[1..] + c;
      TokenEndPrefix(a[1..], c, delim);
    } else if |a| == 0 {
      assert a + c == c;
    }
  }

  /** The first token of a + [d] + b when a starts with a non-delimiter. */
  lemma HeadToken(a: string, d: char, b: string, delim: set<char>)
    requires |a| > 0 && a[0] !in delim && d in delim
    ensures var e := TokenEnd(a, delim);
      && StrTok(a, delim) == Some(Token(a[..e], if e < |a| then a[e + 1..] else []))
      && StrTok(a + [d] + b, delim) == Some(Token(a[..e], if e < |a| then a[e + 1..] + [d] + b else b))
  {
    var x := a + [d] + b;
    var e := TokenEnd(a, delim);
    TokenEndPrefix(a, [d] + b, delim);
    assert x == a + ([d] + b);
    assert x[..e] == a[..e];
    if e < |a| {
      assert x[e + 1..] == a[e + 1..] + [d] + b;
    } else {
      assert x[e + 1..] == b;
    }
  }

  /** One strtok call's token heads the token list. */
  lemma TokensStep(s: string, text: string, rest: string, delim: set<char>)
    requires StrTok(s, delim) == Some(Token(text, rest))
    ensures Tokens(s, delim) == [text] + Tokens(rest, delim)
  {
  }

  /** The token lists of a and a + [d] + b when a starts with a non-delimiter. */
  lemma HeadTokens(a: string, d: char, b: string, delim: set<char>)
    requires |a| > 0 && a[0] !in delim && d in delim
    ensures var e := TokenEnd(a, delim);
      e < |a| ==>
        && Tokens(a + [d] + b, delim) == [a[..e]] + Tokens(a[e + 1..] + [d] + b, delim)
        && Tokens(a, delim) == [a[..e]] + Tokens(a[e + 1..], delim)
    ensures TokenEnd(a, delim) == |a| ==>
      Tokens(a + [d] + b, delim) == [a] + Tokens(b, delim) && Tokens(a, delim) == [a]
  {
    var e := TokenEnd(a, delim);
    HeadToken(a, d, b, delim);
    if e < |a| {
      TokensStep(a + [d] + b, a[..e], a[e + 1..] + [d] + b, delim);
      TokensStep(a, a[..e], a[e + 1..], delim);
    } else {
      assert a[..e] == a;
      TokensStep(a + [d] + b, a, b, delim);
      TokensStep(a, a, [], delim);
      NoTokens([], delim);
    }
  }

  /**
   * A delimiter splits the string: the tokens of a + [d] + b are those of a
   * followed by those of b.
   */
  lemma {:induction false} Split(a: string, d: char, b: string, delim: set<char>)
    requires d in delim
    ensures Tokens(a + [d] + b, delim) == Tokens(a, delim) + Tokens(b, delim)
    decreases |a|, 2
  {
    if |a| == 0 {
      var x := a + [d] + b;
      assert x[1..] == b;
      SkipOne(x, delim);
      SameTokens(x, b, delim);
      NoTokens(a, delim);
    } else if a[0] in delim {
      SplitAfterDelim(a, d, b, delim);
    } else {
      SplitAfterToken(a, d, b, delim);
    }
  }

  /** Split when a starts with a delimiter: both sides skip it. */
  lemma {:induction false} SplitAfterDelim(a: string, d: char, b: string, delim: set<char>)
    requires d in delim && |a| > 0 && a[0] in delim
    ensures Tokens(a + [d] + b, delim) == Tokens(a, delim) + Tokens(b, delim)
    decreases |a|, 1
  {
    var x := a + [d] + b;
    assert x[1..] == a[1..] + [d] + b;
    SkipOne(x, delim);
    SameTokens(x, x[1..], delim);
    SkipOne(a, delim);
    SameTokens(a, a[1..], delim);
    Split(a[1..], d, b, delim);
  }

  /** Split when a starts with a token: both sides return it first. */
  lemma {:induction false} SplitAfterToken(a: string, d: char, b: string, delim: set<char>)
    requires d in delim && |a| > 0 && a[0] !in delim
    ensures Tokens(a + [d] + b, delim) == Tokens(a, delim) + Tokens(b, delim)
    decreases |a|, 1
  {
    HeadTokens(a, d, b, delim);
    var e := TokenEnd(a, delim);
    if e < |a| {
      var p, a' := [a[..e]], a[e + 1..];
      Split(a', d, b, delim);
      var ts', us := Tokens(a', delim), Tokens(b, delim);
      assert p + (ts' + us) == (p + ts') + us;
    }
  }

  /** Leading, trailing and repeated delimiters add no token. */
  lemma DelimitersCollapse(a: string, d: char, d': char, b: string, delim: set<char>)
    requires d in delim && d' in delim
    ensures Tokens([d] + b, delim) == Tokens(b, delim)
    ensures Tokens(a + [d], delim) == Tokens(a, delim)
    ensures Tokens(a + [d] + [d'] + b, delim) == Tokens(a + [d] + b, delim)
  {
    Split([], d, b, delim);
    NoTokens([], delim);
    assert [] + [d] + b == [d] + b;
    Split(a, d, [], delim);
    assert a + [d] + [] == a + [d];
    Split(a, d, [d'] + b, delim);
    assert a + [d] + ([d'] + b) == a + [d] + [d'] + b;
    Split(a, d, b, delim);
  }

  /** The delimiter set strtok reads from its second argument. */
  function DelimSet(delim: CString): (ds: set<char>)
    ensures forall c :: c in ds <==> c in delim
  {
    set c | c in delim
  }

  /** Every string of ts is a C string: none holds a NUL. */
  predicate CStrings(ts: seq<string>)
  {
    forall k, i | 0 <= k < |ts| && 0 <= i < |ts[k]| :: ts[k][i] != '\0'
  }

  /** Both parts of a list of C strings are lists of C strings. */
  lemma CStringsSplit(a: seq<string>, b: seq<string>)
    requires CStrings(a + b)
    ensures CStrings(a) && CStrings(b)
  {
    forall k, i | 0 <= k < |a| && 0 <= i < |a[k]|
      ensures a[k][i] != '\0'
    {
      assert a[k] == (a + b)[k];
    }
    forall k, i | 0 <= k < |b| && 0 <= i < |b[k]|
      ensures b[k][i] != '\0'
    {
      assert b[k] == (a + b)[|a| + k];
    }
  }

  /** The tokens of a C string are C strings. */
  lemma {:induction false} TokensNulFree(s: CString, delim: set<char>)
    ensures CStrings(Tokens(s, delim))
    decreases |s|
  {
    var r := StrTok(s, delim);
    if r.Some? {
      StrTokSome(s, delim);
      var t := r.value;
      TokensNulFree(t.rest, delim);
      TokensStep(s, t.text, t.rest, delim);
    }
  }

  /** atoi of every token, in order. */
  function Values(ts: seq<string>): (vs: seq<int>)
    requires CStrings(ts)
    ensures |vs| == |ts|
    ensures forall k | 0 <= k < |ts| :: vs[k] == Atoi(ts[k])
  {
    if |ts| == 0 then [] else Values(ts[..|ts| - 1]) + [Atoi(ts[|ts| - 1])]
  }

  /** One more token appends its atoi value. */
  lemma ValuesSnoc(ts: seq<string>, t: CString)
    requires CStrings(ts)
    ensures CStrings(ts + [t])
    ensures Values(ts + [t]) == Values(ts) + [Atoi(t)]
  {
    assert (ts + [t])[..|ts|] == ts;
  }

  /**
   * What extract_digits returns: NULL (None) for a NULL line or delimiter,
   * when array_initialization finds no memory (`initOk` false), or when the
   * append numbered failAt exists and finds none; otherwise the atoi values
   * of the tokens.
   */
  function Extracted(line: Option<CString>, delim: Option<CString>, initOk: bool, failAt: int): (r: Option<seq<int>>)
    ensures line.None? || delim.None? || !initOk ==> r.None?
    ensures r.Some? ==> |r.value| == |Tokens(line.value, DelimSet(delim.value))|
  {
    if line.None? || delim.None? || !initOk then None
    else
      var ts := Tokens(line.value, DelimSet(delim.value));
      TokensNulFree(line.value, DelimSet(delim.value));
      if 0 <= failAt < |ts| then None else Some(Values(ts))
  }

  /**
   * extract_digits: strtok over the line, atoi of each token, appended to a
   * fresh TYPE_INT container. The append numbered failAt, if any, finds
   * neither a larger list nor memory for the element; the container is then
   * destroyed and NULL returned.
   */
  method ExtractDigits(line: Option<CString>, delim: Option<CString>, initOk: bool, failAt: int) returns (digits: Arrays.Array?)
    ensures digits == null <==> Extracted(line, delim, initOk, failAt).None?
    ensures digits != null ==> fresh(digits) && fresh(digits.list) && digits.Valid()
    ensures digits != null ==> digits.eleType == Arrays.TypeInt && digits.Contents == Extracted(line, delim, initOk, failAt).value
  {
    if line.None? || delim.None? || !initOk {
      return null;
    }
    var s, d := line.value, DelimSet(delim.value);
    digits := new Arrays.Array(Arrays.TypeInt);
    var ok := AppendTokens(digits, s, d, failAt);
    if !ok {
      return null;
    }
  }

  /** One strtok step of the loop: the token moves from the remaining tokens to the done ones. */
  lemma Advance(all: seq<string>, done: seq<string>, rest: string, t: Token, d: set<char>)
    requires all == done + Tokens(rest, d) && StrTok(rest, d) == Some(t)
    requires CStrings(Tokens(rest, d)) && CStrings(done)
    ensures all == (done + [t.text]) + Tokens(t.rest, d) && |all| > |done|
    ensures CStrings([t.text]) && CStrings(Tokens(t.rest, d)) && CStrings(done + [t.text])
    ensures forall i | 0 <= i < |t.text| :: t.text[i] != '\0'
    ensures Values(done + [t.text]) == Values(done) + [Atoi(t.text)]
  {
    var p, more := [t.text], Tokens(t.rest, d);
    TokensStep(rest, t.text, t.rest, d);
    assert done + (p + more) == (done + p) + more;
    CStringsSplit(p, more);
    assert p[0] == t.text;
    ValuesSnoc(done, t.text);
  }

  /**
   * The strtok loop of extract_digits: atoi of each token of s, appended to
   * `digits` in order, until the append numbered failAt fails. `ok` is false
   * exactly when that append exists.
   */
  method AppendTokens(digits: Arrays.Array, s: CString, d: set<char>, failAt: int) returns (ok: bool)
    requires digits.Valid() && digits.eleType == Arrays.TypeInt && digits.Contents == []
    modifies digits, digits.list
    ensures digits.Valid() && digits.eleType == Arrays.TypeInt
    ensures digits.list == old(digits.list) || fresh(digits.list)
    ensures ok <==> !(0 <= failAt < |Tokens(s, d)|)
    ensures ok ==> CStrings(Tokens(s, d)) && digits.Contents == Values(Tokens(s, d))
  {
    ghost var all := Tokens(s, d);
    TokensNulFree(s, d);
    ghost var done: seq<string> := [];
    var rest: string := s;
    var token := StrTok(rest, d);
    var count := 0;
    while token.Some?
      invariant digits.Valid() && digits.eleType == Arrays.TypeInt
      invariant digits.list == old(digits.list) || fresh(digits.list)
      invariant token == StrTok(rest, d)
      invariant all == done + Tokens(rest, d)
      invariant CStrings(Tokens(rest, d)) && CStrings(done)
      invariant count == |done| && !(0 <= failAt < count)
      invariant digits.Contents == Values(done)
      decreases |rest|
    {
      var t := token.value;
      Advance(all, done, rest, t, d);
      var value := Atoi(t.text);
      var status := Arrays.Add(digits, value, count != failAt, count != failAt);
      if status != SUCCESS {
        return false;
      }
      done := done + [t.text];
      count := count + 1;
      rest := t.rest;
      token := StrTok(rest, d);
    }
    assert all == done;
    ok := true;
  }

  /** The rule lines: the lines before the first line that is exactly "\n". */
  function RuleLines(lines: seq<CString>): (rs: seq<CString>)
    ensures |rs| <= |lines| && rs == lines[..|rs|]
    ensures forall k | 0 <= k < |rs| :: rs[k] != "\n"
    ensures |rs| < |lines| ==> lines[|rs|] == "\n"
  {
    if |lines| == 0 || lines[0] == "\n" then [] else [lines[0]] + RuleLines(lines[1..])
  }

  /** For each rule line, whether day_5 reports it as not holding exactly two integers. */
  function Reports(rules: seq<CString>): (r: seq<bool>)
    ensures |r| == |rules|
    ensures forall k | 0 <= k < |rules| :: r[k] == (|Tokens(rules[k], {'|'})| != DigitsCap)
  {
    if |rules| == 0 then []
    else Reports(rules[..|rules| - 1]) + [|Tokens(rules[|rules| - 1], {'|'})| != DigitsCap]
  }

  /** The check of day_5 as written: it reads the element count through the pointer extract_digits returned. */
  function ReportAsWritten(rules: Option<seq<int>>): (report: bool)
    requires rules.Some?
    ensures report <==> |rules.value| != DigitsCap
  {
    DigitsCap != |rules.value|
  }

  /**
   * extract_digits returns NULL for an ordinary rule line when its first
   * append finds no memory, and day_5 as written then reads the count
   * through that NULL pointer: ReportAsWritten's precondition fails.
   */
  lemma NullRulesReachable()
    ensures Extracted(Some("47|53\n"), Some("|"), true, 0) == None
  {
    var s: CString := "47|53\n";
    assert DelimSet("|") == {'|'};
    assert s[0] !in {'|'};
  }

  /** strtok splits the rule "47|53\n" into "47" and "53\n". */
  lemma RuleTokens()
    ensures Tokens("47|53\n", {'|'}) == ["47", "53\n"]
  {
    assert "47|53\n" == "47" + ['|'] + "53\n";
    TwoTokens("47", '|', "53\n", {'|'});
  }

  /** Two delimiter-free runs joined by one delimiter are two tokens. */
  lemma TwoTokens(a: string, d: char, b: string, delim: set<char>)
    requires d in delim && |a| > 0 && |b| > 0
    requires forall k | 0 <= k < |a| :: a[k] !in delim
    requires forall k | 0 <= k < |b| :: b[k] !in delim
    ensures Tokens(a + [d] + b, delim) == [a, b]
  {
    Split(a, d, b, delim);
    OneToken(a, delim);
    OneToken(b, delim);
  }

  /** atoi reads 47 and 53 from those tokens: the trailing newline ends the digits. */
  lemma RuleValues()
    ensures Values(["47", "53\n"]) == [47, 53]
  {
    AtoiTwoDigits("47");
    AtoiTwoDigits("53\n");
  }

  /** "47|53\n" holds two integers, so day_5 does not report it. */
  lemma RuleNotReported()
    ensures Reports(["47|53\n"]) == [false]
  {
    RuleTokens();
  }

  /** atoi of a string that starts with exactly two decimal digits. */
  lemma AtoiTwoDigits(s: CString)
    requires 2 <= |s| && IsDigit(s[0]) && IsDigit(s[1]) && !IsDigit(At(s, 2))
    ensures Atoi(s) == 10 * DigitValue(s[0]) + DigitValue(s[1])
  {
    assert SkipSpaces(s, 0) == 0;
    assert DigitsEnd(s, 0) == 2;
    assert s[0..2][..1] == [s[0]];
    assert DigitsValue([s[0]]) == DigitValue(s[0]) by {
      assert [s[0]][..0] == [];
    }
  }

  /**
   * day_5 with the NULL check its callers evidently intend: `graphOk` says
   * whether graph_initialization finds memory; rule line failLine, if any, is
   * extracted with `initOk` and failAt, every other one with all its memory.
   * A NULL container ends the call with ERROR_OUT_OF_MEMORY. `reports`
   * lists, rule line by rule line, whether the wrong-count error is logged.
   */
  method Solve(lines: seq<CString>, graphOk: bool, failLine: int, initOk: bool, failAt: int)
    returns (status: int, part1: int, part2: int, reports: seq<bool>)
    ensures !graphOk ==> status == OUT_OF_MEMORY && reports == []
    ensures graphOk && Breaks(lines, failLine, initOk, failAt) ==>
      status == OUT_OF_MEMORY && reports == Reports(RuleLines(lines)[..failLine])
    ensures graphOk && !Breaks(lines, failLine, initOk, failAt) ==>
      status == SUCCESS && part1 == 0 && part2 == 0 && reports == Reports(RuleLines(lines))
  {
    status, part1, part2, reports := UNKNOWN, 0, 0, [];
    if !graphOk {
      return OUT_OF_MEMORY, 0, 0, [];
    }
    ghost var rules := RuleLines(lines);
    var n := 0;
    while n < |lines| && lines[n] != "\n"
      invariant n <= |rules| && reports == Reports(rules[..n])
      invariant !(0 <= failLine < n && Extracted(Some(rules[failLine]), Some("|"), initOk, failAt).None?)
    {
      assert n < |rules| && lines[n] == rules[n];
      var p := ExtractDigits(Some(lines[n]), Some("|"), n != failLine || initOk, if n == failLine then failAt else -1);
      if p == null {
        return OUT_OF_MEMORY, 0, 0, reports;
      }
      BarDelimiter();
      assert p.idx == |Tokens(rules[n], {'|'})|;
      assert rules[..n + 1] == rules[..n] + [rules[n]];
      reports := reports + [p.idx != DigitsCap];
      n := n + 1;
    }
    assert rules[..n] == rules;
    status := SUCCESS;
  }

  /** The delimiter string "|" day_5 passes to strtok is the set holding '|'. */
  lemma BarDelimiter()
    ensures DelimSet("|") == {'|'}
  {
  }

  /** Rule line failLine exists and extract_digits returns NULL for it. */
  predicate Breaks(lines: seq<CString>, failLine: int, initOk: bool, failAt: int)
  {
    0 <= failLine < |RuleLines(lines)| && Extracted(Some(RuleLines(lines)[failLine]), Some("|"), initOk, failAt).None?
  }
}
