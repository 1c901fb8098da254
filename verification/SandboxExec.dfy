/** pkg/pythonexec/k8s_executor.go: names for sandbox objects and the output limit. A run id is a
    sequence of runes and `lower` is the rune-wise lower-casing of Go's `strings.ToLower`; prefixes,
    labels and outputs are bytes. The SHA-256 suffix is any ten lower-case hex characters. */
module SandboxExec {
  import opened GoText

  // ---------------------------------------------------------------- labels

  predicate IsAlnum(c: char) {
    'a' <= c <= 'z' || '0' <= c <= '9'
  }

  predicate IsDash(c: char) {
    c == '-'
  }

  predicate IsLabelText(s: string) {
    forall i :: 0 <= i < |s| ==> IsAlnum(s[i]) || IsDash(s[i])
  }

  /** A label as section 2.3.4 of RFC 1035 and section 2.1 of RFC 1123 allow it, in lower case. */
  predicate IsLabel(s: string) {
    1 <= |s| <= 63 && IsLabelText(s) && IsAlnum(s[0]) && IsAlnum(s[|s| - 1])
  }

  function Lowered(value: string, lower: char -> char): string {
    MapRunes(TrimSpace(value), lower)
  }

  /** Rune by rune, the trimmed run id in lower case. */
  lemma LoweredRunes(value: string, lower: char -> char)
    ensures var text := TrimSpace(value);
      |Lowered(value, lower)| == |text| && forall i :: 0 <= i < |text| ==> Lowered(value, lower)[i] == lower(text[i])
  {
  }

  /** What the loop writes for the rest of a text. */
  function Collapse(s: string, lastDash: bool): string {
    if s == "" then ""
    else if IsAlnum(s[0]) then [s[0]] + Collapse(s[1..], false)
    else if lastDash then Collapse(s[1..], true)
    else "-" + Collapse(s[1..], true)
  }

  function Sanitized(value: string, lower: char -> char): string {
    Trim(Collapse(Lowered(value, lower), false), IsDash)
  }

  method SanitizeDNSLabel(value: string, lower: char -> char) returns (name: string)
    ensures name == Sanitized(value, lower)
  {
    hide Lowered, Trim;
    var text := Lowered(value, lower);
    var b := "";
    var lastDash := false;
    for i := 0 to |text|
      invariant b + Collapse(text[i..], lastDash) == Collapse(text, false)
    {
      CollapseStep(b, text, i, lastDash);
      hide Collapse;
      var r := text[i];
      if IsAlnum(r) {
        b := b + [r];
        lastDash := false;
      } else if !lastDash {
        b := b + "-";
        lastDash := true;
      }
    }
    assert text[|text|..] == "" && b + "" == b;
    return Trim(b, IsDash);
  }

  /** One rune: what is written, and what is left to write. */
  lemma CollapseStep(b: string, text: string, i: nat, lastDash: bool)
    requires i < |text|
    ensures b + Collapse(text[i..], lastDash) ==
      if IsAlnum(text[i]) then (b + [text[i]]) + Collapse(text[i + 1..], false)
      else if lastDash then b + Collapse(text[i + 1..], true)
      else (b + "-") + Collapse(text[i + 1..], true)
  {
    assert text[i..][1..] == text[i + 1..];
    Assoc(b, [text[i]], Collapse(text[i + 1..], false));
    Assoc(b, "-", Collapse(text[i + 1..], true));
  }

  lemma Assoc(a: string, b: string, c: string)
    ensures a + (b + c) == (a + b) + c
  {
  }

  /** `suffix` stands for the first ten hex characters of the digest of the value. */
  function KubernetesDNSLabel(prefix: string, value: string, lower: char -> char, suffix: string): string {
    var sanitized := Sanitized(value, lower);
    var normalized := if sanitized == "" then suffix else sanitized;
    var room := 63 - |prefix| - |suffix| - 2;
    var maxBase := if room < 1 then 1 else room;
    var cut := if |normalized| > maxBase then Trim(normalized[..maxBase], IsDash) else normalized;
    var base := if cut == "" then suffix else cut;
    prefix + "-" + base + "-" + suffix
  }

  function SafeLabelValue(value: string, lower: char -> char): string {
    var text := Sanitized(value, lower);
    if text == "" then "run"
    else if |text| > 63 then Trim(text[..63], IsDash)
    else text
  }

  // ---------------------------------------------------------------- the words of a run id

  /** The maximal runs of letters and digits. */
  function Words(s: string): (words: seq<string>)
    ensures s != "" && IsAlnum(s[0]) ==> words != []
  {
    if s == "" then []
    else if !IsAlnum(s[0]) then Words(s[1..])
    else if |s| > 1 && IsAlnum(s[1]) then
      var rest := Words(s[1..]);
      [[s[0]] + rest[0]] + rest[1..]
    else [[s[0]]] + Words(s[1..])
  }

  function Hyphenated(words: seq<string>): string {
    if |words| == 0 then ""
    else if |words| == 1 then words[0]
    else words[0] + "-" + Hyphenated(words[1..])
  }

  predicate AreWords(words: seq<string>) {
    forall i :: 0 <= i < |words| ==> words[i] != "" && forall j :: 0 <= j < |words[i]| ==> IsAlnum(words[i][j])
  }

  lemma {:induction false} WordsAreWords(s: string)
    ensures AreWords(Words(s))
  {
    if s != "" {
      WordsAreWords(s[1..]);
    }
  }

  lemma {:induction false} HyphenatedText(words: seq<string>)
    requires AreWords(words) && words != []
    ensures var t := Hyphenated(words);
      t != "" && IsLabelText(t) && IsAlnum(t[0]) && IsAlnum(t[|t| - 1])
  {
    if |words| > 1 {
      HyphenatedText(words[1..]);
      var rest := Hyphenated(words[1..]);
      var t := Hyphenated(words);
      assert t[|t| - 1] == rest[|rest| - 1];
      assert forall i :: |words[0]| + 1 <= i < |t| ==> t[i] == rest[i - |words[0]| - 1];
    }
  }

  function Edge(dash: bool): string {
    if dash then "-" else ""
  }

  function Shape(words: seq<string>, left: bool, right: bool): string {
    if words == [] then Edge(left) else Edge(left) + (Hyphenated(words) + Edge(right))
  }

  /** The loop writes the words joined by dashes, with at most one dash more at either end. */
  lemma {:induction false} CollapseShape(s: string, lastDash: bool)
    requires s != ""
    ensures Collapse(s, lastDash) == Shape(Words(s), !IsAlnum(s[0]) && !lastDash, !IsAlnum(s[|s| - 1]))
  {
    var t := s[1..];
    if t == "" {
      assert Words(t) == [] && Collapse(t, true) == Collapse(t, false) == "";
    } else if !IsAlnum(s[0]) {
      CollapseShape(t, true);
      assert Words(s) == Words(t);
      ShapeSkips(Words(t), lastDash, !IsAlnum(s[|s| - 1]));
    } else {
      CollapseShape(t, false);
      FirstWord(s);
      ShapeGrows(s);
    }
  }

  lemma ShapeSkips(words: seq<string>, lastDash: bool, right: bool)
    ensures Edge(!lastDash) + Shape(words, false, right) == Shape(words, !lastDash, right)
  {
  }

  lemma ShapeGrows(s: string)
    requires |s| > 1 && IsAlnum(s[0])
    ensures [s[0]] + Shape(Words(s[1..]), !IsAlnum(s[1]), !IsAlnum(s[|s| - 1])) == Shape(Words(s), false, !IsAlnum(s[|s| - 1]))
  {
    var t := s[1..];
    FirstWord(s);
    if Words(t) == [] {
      NoWordAtTheEnd(t);
    } else {
      hide Words, Hyphenated, Collapse;
      var rest, tail := Hyphenated(Words(t)), Edge(!IsAlnum(s[|s| - 1]));
      Assoc([s[0]], Edge(!IsAlnum(s[1])), rest + tail);
      Assoc([s[0]] + Edge(!IsAlnum(s[1])), rest, tail);
      assert [s[0]] + Edge(!IsAlnum(s[1])) == if IsAlnum(s[1]) then [s[0]] else [s[0]] + "-";
    }
  }

  /** A leading letter joins the next word, or stands before the next ones. */
  lemma FirstWord(s: string)
    requires |s| > 1 && IsAlnum(s[0])
    ensures Collapse(s, false) == Collapse(s, true) == [s[0]] + Collapse(s[1..], false)
    ensures Words(s) != []
    ensures Words(s[1..]) == [] ==> Words(s) == [[s[0]]]
    ensures Words(s[1..]) != [] ==>
      Hyphenated(Words(s)) == (if IsAlnum(s[1]) then [s[0]] else [s[0]] + "-") + Hyphenated(Words(s[1..]))
  {
    var rest := Words(s[1..]);
    if IsAlnum(s[1]) {
      var joined := [[s[0]] + rest[0]] + rest[1..];
      assert Words(s) == joined && joined[1..] == rest[1..];
      if |rest| > 1 {
        Assoc([s[0]], rest[0] + "-", Hyphenated(rest[1..]));
        Assoc([s[0]], rest[0], "-");
      }
    } else {
      assert Words(s) == [[s[0]]] + rest;
      assert ([[s[0]]] + rest)[1..] == rest;
    }
  }

  lemma {:induction false} NoWordAtTheEnd(s: string)
    requires s != "" && Words(s) == []
    ensures !IsAlnum(s[|s| - 1])
  {
    if |s| > 1 {
      NoWordAtTheEnd(s[1..]);
    }
  }

  lemma LeftEdge(t: string, left: bool)
    requires t != "" && !IsDash(t[0])
    ensures TrimLeft(Edge(left) + t, IsDash) == t
  {
    assert ("-" + t)[1..] == t && "" + t == t;
  }

  lemma RightEdge(t: string, right: bool)
    requires t != "" && !IsDash(t[|t| - 1])
    ensures TrimRight(t + Edge(right), IsDash) == t
  {
    assert (t + "-")[..|t|] == t && t + "" == t;
  }

  /** Trimming removes the extra dashes and nothing else. */
  lemma TrimEdges(core: string, left: bool, right: bool)
    requires core != "" && !IsDash(core[0]) && !IsDash(core[|core| - 1])
    ensures Trim(Edge(left) + (core + Edge(right)), IsDash) == core
  {
    hide TrimLeft, TrimRight, Edge;
    assert (core + Edge(right))[0] == core[0];
    LeftEdge(core + Edge(right), left);
    RightEdge(core, right);
  }

  lemma NoText()
    ensures Words("") == [] && Hyphenated([]) == Collapse("", false) == Trim("", IsDash) == Trim("-", IsDash) == ""
  {
  }

  /** A sanitized run id is its words, joined by single dashes. */
  lemma SanitizedIsWords(value: string, lower: char -> char)
    ensures Sanitized(value, lower) == Hyphenated(Words(Lowered(value, lower)))
  {
    hide Lowered, Words, Hyphenated, Collapse, Trim;
    var s := Lowered(value, lower);
    if s == "" {
      NoText();
    } else {
      CollapseShape(s, false);
      NoText();
      WordsAreWords(s);
      if Words(s) != [] {
        HyphenatedText(Words(s));
        TrimEdges(Hyphenated(Words(s)), !IsAlnum(s[0]), !IsAlnum(s[|s| - 1]));
      }
    }
  }

  predicate IsBase(s: string) {
    s == "" || (IsLabelText(s) && IsAlnum(s[0]) && IsAlnum(s[|s| - 1]))
  }

  lemma SanitizedIsBase(value: string, lower: char -> char)
    ensures IsBase(Sanitized(value, lower))
  {
    var words := Words(Lowered(value, lower));
    SanitizedIsWords(value, lower);
    WordsAreWords(Lowered(value, lower));
    if words != [] {
      HyphenatedText(words);
    }
  }

  /** Cutting a base and trimming it again gives a non-empty base. */
  lemma CutIsBase(s: string, n: nat)
    requires IsBase(s) && 1 <= n < |s|
    ensures var t := Trim(s[..n], IsDash); t != "" && t <= s && |t| <= n && IsBase(t)
  {
    var cut := s[..n];
    assert cut[0] == s[0];
    StartsClean(cut);
    FirstSurvives(cut);
    hide TrimLeft, TrimRight;
    var t := TrimRight(cut, IsDash);
    assert t <= cut <= s && t[0] == s[0] && t[|t| - 1] == s[|t| - 1];
  }

  /** The part of a cut text that trimming takes is dashes only, so what stays is the longest prefix within
      the room that ends in a letter or digit. */
  lemma {:induction false} TrimmedAreDashes(s: string)
    ensures var t := TrimRight(s, IsDash); t <= s && forall i :: |t| <= i < |s| ==> s[i] == '-'
  {
    if s != "" && IsDash(s[|s| - 1]) {
      TrimmedAreDashes(s[..|s| - 1]);
    }
  }

  lemma CutIsLongest(s: string, n: nat, j: nat)
    requires IsBase(s) && 1 <= n < |s| && j < n && IsAlnum(s[j])
    ensures var t := Trim(s[..n], IsDash); t <= s && j < |t| <= n && IsAlnum(t[|t| - 1])
  {
    CutIsBase(s, n);
    StartsClean(s[..n]);
    TrimmedAreDashes(s[..n]);
    hide TrimLeft, TrimRight;
    assert s[..n][j] == s[j];
  }

  lemma StartsClean(s: string)
    requires s != "" && !IsDash(s[0])
    ensures TrimLeft(s, IsDash) == s
  {
  }

  lemma {:induction false} FirstSurvives(s: string)
    requires s != "" && !IsDash(s[0])
    ensures TrimRight(s, IsDash) != ""
  {
    if IsDash(s[|s| - 1]) {
      FirstSurvives(s[..|s| - 1]);
    }
  }

  predicate IsHex(s: string) {
    |s| == 10 && forall i :: 0 <= i < |s| ==> '0' <= s[i] <= '9' || 'a' <= s[i] <= 'f'
  }

  /** For every run id and every lower-casing, the name is a label exactly when the prefix is not
      empty, starts with a letter or digit, has label characters only and is at most 50 bytes long. */
  lemma LabelIff(prefix: string, value: string, lower: char -> char, suffix: string)
    requires IsHex(suffix)
    ensures IsLabel(KubernetesDNSLabel(prefix, value, lower, suffix)) <==>
      1 <= |prefix| <= 50 && IsLabelText(prefix) && IsAlnum(prefix[0])
  {
    hide KubernetesDNSLabel, Sanitized;
    var base := BaseOf(prefix, value, lower, suffix);
    var rest := "-" + base + "-" + suffix;
    var name := prefix + rest;
    assert KubernetesDNSLabel(prefix, value, lower, suffix) == name;
    assert name[|name| - 1] == suffix[9] && name[0] == (if prefix == "" then '-' else prefix[0]);
    LabelTextJoins("-" + base + "-", suffix);
    LabelTextJoins("-" + base, "-");
    LabelTextJoins("-", base);
    LabelTextJoins(prefix, rest);
  }

  lemma LabelTextJoins(a: string, b: string)
    ensures IsLabelText(a + b) <==> IsLabelText(a) && IsLabelText(b)
  {
    var s := a + b;
    assert forall i :: 0 <= i < |a| ==> s[i] == a[i];
    assert forall i :: 0 <= i < |b| ==> s[|a| + i] == b[i];
    assert forall i :: |a| <= i < |s| ==> s[i] == b[i - |a|];
  }

  /** The middle of a name: a non-empty base no longer than the room left, or one byte when there is
      none, and the whole sanitized run id when that fits. */
  lemma BaseOf(prefix: string, value: string, lower: char -> char, suffix: string) returns (base: string)
    requires IsHex(suffix)
    ensures KubernetesDNSLabel(prefix, value, lower, suffix) == prefix + "-" + base + "-" + suffix
    ensures base != "" && IsBase(base) && |base| <= (if |prefix| <= 50 then 51 - |prefix| else 1)
    ensures var sanitized := Sanitized(value, lower);
      && base <= (if sanitized == "" then suffix else sanitized)
      && (1 <= |sanitized| <= 51 - |prefix| ==> base == sanitized)
    ensures var whole, room := if Sanitized(value, lower) == "" then suffix else Sanitized(value, lower), if |prefix| <= 50 then 51 - |prefix| else 1;
      forall j :: 0 <= j < room && j < |whole| && IsAlnum(whole[j]) ==> j < |base|
  {
    hide Sanitized, Trim;
    SanitizedIsBase(value, lower);
    var sanitized := Sanitized(value, lower);
    assert IsBase(suffix);
    var normalized := if sanitized == "" then suffix else sanitized;
    var maxBase := if 63 - |prefix| - |suffix| - 2 < 1 then 1 else 51 - |prefix|;
    base := normalized;
    if |normalized| > maxBase {
      CutIsBase(normalized, maxBase);
      base := Trim(normalized[..maxBase], IsDash);
      forall j | 0 <= j < maxBase && IsAlnum(normalized[j])
        ensures j < |base|
      {
        CutIsLongest(normalized, maxBase, j);
      }
    }
  }

  /** Every run id gives a valid label value, which is the sanitized run id when that fits. */
  lemma LabelValueIsLabel(value: string, lower: char -> char)
    ensures IsLabel(SafeLabelValue(value, lower))
    ensures Sanitized(value, lower) == "" ==> SafeLabelValue(value, lower) == "run"
    ensures 1 <= |Sanitized(value, lower)| <= 63 ==> SafeLabelValue(value, lower) == Sanitized(value, lower)
    ensures Sanitized(value, lower) != "" ==> SafeLabelValue(value, lower) <= Sanitized(value, lower)
    ensures forall j :: 0 <= j < 63 && j < |Sanitized(value, lower)| && IsAlnum(Sanitized(value, lower)[j]) ==>
      j < |SafeLabelValue(value, lower)|
  {
    hide Sanitized, Trim;
    SanitizedIsBase(value, lower);
    assert IsLabel("run");
    if |Sanitized(value, lower)| > 63 {
      CutIsBase(Sanitized(value, lower), 63);
      forall j | 0 <= j < 63 && IsAlnum(Sanitized(value, lower)[j])
        ensures j < |SafeLabelValue(value, lower)|
      {
        CutIsLongest(Sanitized(value, lower), 63, j);
      }
    }
  }

  // ---------------------------------------------------------------- the output limit

  function TruncateStringBytes(value: string, remaining: int, alreadyTruncated: bool): (string, int, bool) {
    if remaining <= 0 then ("", 0, if value != "" then true else alreadyTruncated)
    else if |value| <= remaining then (value, remaining - |value|, alreadyTruncated)
    else (value[..remaining], 0, true)
  }

  /** Together the three outputs are the first `maxBytes` bytes of the three inputs, an output holds
      something only when those before it are whole, and the flag says whether anything was cut. A
      limit that is not positive drops everything and sets the flag even when there is nothing. */
  method EnforceOutputLimit(stdout: string, stderr: string, resultJSON: string, maxBytes: int)
    returns (out: string, err: string, result: string, truncated: bool)
    ensures var all := stdout + stderr + resultJSON;
      maxBytes > 0 ==>
        && out + err + result == (if |all| <= maxBytes then all else all[..maxBytes])
        && (truncated <==> |all| > maxBytes)
    ensures out <= stdout && err <= stderr && result <= resultJSON
    ensures err != "" ==> out == stdout
    ensures result != "" ==> out == stdout && err == stderr
    ensures maxBytes <= 0 ==> out == err == result == "" && truncated
  {
    if maxBytes <= 0 {
      return "", "", "", true;
    }
    var remaining := maxBytes;
    truncated := false;
    var first := TruncateStringBytes(stdout, remaining, truncated);
    out, remaining, truncated := first.0, first.1, first.2;
    var second := TruncateStringBytes(stderr, remaining, truncated);
    err, remaining, truncated := second.0, second.1, second.2;
    result := resultJSON;
    if |resultJSON| > remaining {
      if remaining < 0 {
        remaining := 0;
      }
      result := resultJSON[..remaining];
      truncated := true;
    }
  }
}
