/** pkg/agentaudit/audit.go: redaction of audit summaries. The text redactor, a chain of regular
    expressions and a digest, is a parameter, and so is rune-wise lower-casing. */
module AuditRedaction {
  import opened GoText

  const MARKER := "[REDACTED]"

  /** A Go value in a summary. `Strings` is []string; `Opaque` is any type that goes through
      json.Marshal and back, with what it decodes to, or nothing when that fails. */
  datatype Value =
    | Null
    | Bool(b: bool)
    | Number(digits: string)
    | Text(text: string)
    | Strings(texts: seq<string>)
    | List(items: seq<Value>)
    | Object(fields: map<string, Value>)
    | Opaque(decoded: Option<Value>)

  datatype Env = Env(lower: char -> char, plainText: string -> string)

  function Underscored(c: char): char {
    if c == '-' || c == '.' then '_' else c
  }

  function NormalizedKey(env: Env, key: string): string {
    MapRunes(MapRunes(TrimSpace(key), env.lower), Underscored)
  }

  predicate IsSensitiveKey(env: Env, key: string) {
    NamesSecret(NormalizedKey(env, key))
  }

  predicate NamesSecret(normalized: string) {
    || Contains(normalized, "password")
    || Contains(normalized, "token")
    || Contains(normalized, "secret")
    || Contains(normalized, "credential")
    || Contains(normalized, "authorization")
    || Contains(normalized, "api_key")
    || Contains(normalized, "apikey")
    || Contains(normalized, "access_key")
    || Contains(normalized, "private_key")
    || Contains(normalized, "cookie")
    || Contains(normalized, "session")
  }

  /** What a key must not contain. */
  const SECRETS: set<string> := {
    "password", "token", "secret", "credential", "authorization", "api_key", "apikey", "access_key",
    "private_key", "cookie", "session" }

  /** From position i the trimmed key spells the word, in any case, with dashes and dots for underscores. */
  predicate SpellsAt(env: Env, key: string, word: string, i: nat) {
    var text := TrimSpace(key);
    i + |word| <= |text| && forall j :: 0 <= j < |word| ==> Spells(env.lower(text[i + j]), word[j])
  }

  predicate Spells(c: char, letter: char) {
    c == letter || (letter == '_' && (c == '-' || c == '.'))
  }

  lemma NormalizedRunes(env: Env, key: string)
    ensures var n, text := NormalizedKey(env, key), TrimSpace(key);
      |n| == |text| && forall i :: 0 <= i < |n| ==> n[i] == Underscored(env.lower(text[i]))
  {
    hide TrimSpace;
  }

  predicate OccursAt(n: string, word: string, i: nat) {
    i + |word| <= |n| && forall j :: 0 <= j < |word| ==> word[j] == n[i + j]
  }

  lemma OccursIff(n: string, word: string)
    ensures Contains(n, word) <==> exists i: nat :: OccursAt(n, word, i)
  {
    if Contains(n, word) {
      var i :| 0 <= i <= |n| && word <= n[i..];
      assert forall j :: 0 <= j < |word| ==> word[j] == n[i..][j] == n[i + j];
      assert OccursAt(n, word, i);
    }
    if i: nat :| OccursAt(n, word, i) {
      assert forall j :: 0 <= j < |word| ==> n[i..][j] == word[j];
      assert word <= n[i..];
    }
  }

  lemma SpelledIff(env: Env, key: string, word: string)
    requires forall j :: 0 <= j < |word| ==> word[j] != '-' && word[j] != '.'
    ensures Contains(NormalizedKey(env, key), word) <==> exists i: nat :: SpellsAt(env, key, word, i)
  {
    var n := NormalizedKey(env, key);
    NormalizedRunes(env, key);
    OccursIff(n, word);
    forall i: nat
      ensures SpellsAt(env, key, word, i) <==> OccursAt(n, word, i)
    {
      hide Contains, NormalizedKey, TrimSpace;
    }
    hide SpellsAt, OccursAt, Contains, NormalizedKey;
  }

  lemma NamesSecretIff(n: string)
    ensures NamesSecret(n) <==> exists word :: word in SECRETS && Contains(n, word)
  {
    hide Contains;
  }

  lemma SecretLetters(word: string)
    requires word in SECRETS
    ensures forall j :: 0 <= j < |word| ==> word[j] != '-' && word[j] != '.'
  {
  }

  /** A key is sensitive exactly when somewhere it spells one of the eleven words. */
  lemma SensitiveIff(env: Env, key: string)
    ensures IsSensitiveKey(env, key) <==> exists word, i: nat :: word in SECRETS && SpellsAt(env, key, word, i)
  {
    NamesSecretIff(NormalizedKey(env, key));
    forall word | word in SECRETS
      ensures Contains(NormalizedKey(env, key), word) <==> exists i: nat :: SpellsAt(env, key, word, i)
    {
      SecretLetters(word);
      SpelledIff(env, key, word);
    }
    hide NamesSecret, Contains, SpellsAt, SECRETS, NormalizedKey;
  }

  /** The redacted value, or None for the error a value that is not JSON gives. */
  function Redacted(env: Env, key: string, value: Value): Option<Value>
    decreases value
  {
    if IsSensitiveKey(env, key) then Some(Text(MARKER))
    else
      match value
      case Null => Some(value)
      case Bool(_) => Some(value)
      case Number(_) => Some(value)
      case Text(text) => Some(Text(env.plainText(text)))
      case Strings(texts) => Some(List(seq(|texts|, i requires 0 <= i < |texts| => Text(env.plainText(texts[i])))))
      case List(items) =>
        if exists i :: 0 <= i < |items| && Redacted(env, "", items[i]).None? then None
        else Some(List(seq(|items|, i requires 0 <= i < |items| => Redacted(env, "", items[i]).value)))
      case Object(fields) =>
        if exists k :: k in fields && Redacted(env, k, fields[k]).None? then None
        else Some(Object(map k | k in fields :: Redacted(env, k, fields[k]).value))
      case Opaque(None) => None
      case Opaque(Some(decoded)) => Redacted(env, key, decoded)
  }

  // ---------------------------------------------------------------- the code

  method RedactAny(env: Env, key: string, value: Value) returns (r: Option<Value>)
    ensures r == Redacted(env, key, value)
    decreases value, 1
  {
    hide IsSensitiveKey;
    if IsSensitiveKey(env, key) {
      return Some(Text(MARKER));
    }
    match value {
      case Null => return Some(value);
      case Bool(_) => return Some(value);
      case Number(_) => return Some(value);
      case Text(text) => return Some(Text(env.plainText(text)));
      case Strings(texts) =>
        var items := RedactStrings(env, texts);
        return Some(List(items));
      case List(items) => r := RedactList(env, key, items, value);
      case Object(fields) => r := RedactMap(env, key, fields, value);
      case Opaque(None) => return None;
      case Opaque(Some(decoded)) => r := RedactAny(env, key, decoded);
    }
  }

  method RedactStrings(env: Env, texts: seq<string>) returns (items: seq<Value>)
    ensures items == seq(|texts|, i requires 0 <= i < |texts| => Text(env.plainText(texts[i])))
  {
    items := [];
    for i := 0 to |texts|
      invariant |items| == i && forall j :: 0 <= j < i ==> items[j] == Text(env.plainText(texts[j]))
    {
      items := items + [Text(env.plainText(texts[i]))];
    }
  }

  method RedactList(env: Env, key: string, typed: seq<Value>, ghost whole: Value) returns (r: Option<Value>)
    requires whole == List(typed) && !IsSensitiveKey(env, key)
    ensures r == Redacted(env, key, whole)
    decreases whole, 0
  {
    hide IsSensitiveKey;
    var items: seq<Value> := [];
    for i := 0 to |typed|
      invariant |items| == i
      invariant forall j :: 0 <= j < i ==> Redacted(env, "", typed[j]) == Some(items[j])
    {
      var redacted := RedactAny(env, "", typed[i]);
      if redacted.None? {
        return None;
      }
      items := items + [redacted.value];
    }
    assert forall j :: 0 <= j < |typed| ==> Redacted(env, "", typed[j]).Some?;
    assert Redacted(env, key, whole).value.items == items;
    return Some(List(items));
  }

  /** The keys come in any order. */
  method RedactMap(env: Env, key: string, fields: map<string, Value>, ghost whole: Value) returns (r: Option<Value>)
    requires whole == Object(fields) && !IsSensitiveKey(env, key)
    ensures r == Redacted(env, key, whole)
    decreases whole, 0
  {
    hide IsSensitiveKey;
    var result: map<string, Value> := map[];
    var todo := fields.Keys;
    while todo != {}
      invariant todo <= fields.Keys && result.Keys == fields.Keys - todo
      invariant forall k :: k in result ==> Redacted(env, k, fields[k]) == Some(result[k])
      decreases todo
    {
      var k :| k in todo;
      var redacted := RedactAny(env, k, fields[k]);
      if redacted.None? {
        return None;
      }
      result := result[k := redacted.value];
      todo := todo - {k};
    }
    assert forall k :: k in fields ==> k in result && Redacted(env, k, fields[k]).Some?;
    assert Redacted(env, key, whole).value.fields == result;
    return Some(Object(result));
  }

  type Summary = map<string, Value>

  function RedactSummary(env: Env, summary: Summary): Option<Summary> {
    if summary == map[] then Some(map[])
    else
      match Redacted(env, "", Object(summary))
      case Some(Object(fields)) => Some(fields)
      case _ => None
  }

  function Clone(env: Env, summary: Summary): Summary {
    match RedactSummary(env, summary)
    case Some(cloned) => cloned
    case None => map[]
  }

  // ---------------------------------------------------------------- paths into a value

  datatype Step = Key(name: string) | Index(i: nat)

  function Opened(value: Value): Value {
    if value.Opaque? && value.decoded.Some? then Opened(value.decoded.value) else value
  }

  function Child(value: Value, step: Step): Option<Value> {
    match Opened(value)
    case Strings(texts) => if step.Index? && step.i < |texts| then Some(Text(texts[step.i])) else None
    case List(items) => if step.Index? && step.i < |items| then Some(items[step.i]) else None
    case Object(fields) => if step.Key? && step.name in fields then Some(fields[step.name]) else None
    case _ => None
  }

  function At(value: Value, path: seq<Step>): Option<Value>
    decreases path
  {
    if path == [] then Some(Opened(value))
    else
      match Child(value, path[0])
      case None => None
      case Some(child) => At(child, path[1..])
  }

  predicate Hides(env: Env, step: Step) {
    step.Key? && IsSensitiveKey(env, step.name)
  }

  predicate Shown(env: Env, path: seq<Step>) {
    forall i :: 0 <= i < |path| ==> !Hides(env, path[i])
  }

  function KeyOf(step: Step): string {
    if step.Key? then step.name else ""
  }

  /** A node that is not hidden: scalars are equal, texts are redacted, objects keep their keys and
      lists their length. */
  predicate SameNode(env: Env, a: Value, r: Value) {
    match a
    case Null => r == a
    case Bool(_) => r == a
    case Number(_) => r == a
    case Text(text) => r == Text(env.plainText(text))
    case Strings(texts) => r.List? && |r.items| == |texts|
    case List(items) => r.List? && |r.items| == |items|
    case Object(fields) => r.Object? && r.fields.Keys == fields.Keys
    case Opaque(_) => false
  }

  lemma EmptyKeyIsPlain(env: Env)
    ensures !IsSensitiveKey(env, "")
  {
    ShortKeyIsPlain(env, "");
  }

  lemma ShortKeyIsPlain(env: Env, key: string)
    requires |key| <= 4
    ensures !IsSensitiveKey(env, key)
  {
    TrimShrinks(key);
    ShortNameIsPlain(NormalizedKey(env, key));
    hide NamesSecret;
  }

  lemma TooShort(s: string, sub: string)
    requires |s| < |sub|
    ensures !Contains(s, sub)
  {
  }

  lemma ShortNameIsPlain(n: string)
    requires |n| <= 4
    ensures !NamesSecret(n)
  {
    hide Contains;
    forall sub: string | |sub| >= 5
      ensures !Contains(n, sub)
    {
      TooShort(n, sub);
    }
  }

  lemma TrimShrinks(s: string)
    ensures |TrimSpace(s)| <= |s|
  {
  }

  // ---------------------------------------------------------------- what redaction does along every path

  lemma {:induction false} OpenedRedacts(env: Env, key: string, v: Value)
    ensures Redacted(env, key, v) == Redacted(env, key, Opened(v))
    decreases v
  {
    if v.Opaque? && v.decoded.Some? {
      OpenedRedacts(env, key, v.decoded.value);
    }
  }

  /** A redacted value is made of plain JSON. */
  lemma {:induction false} ResultIsOpen(env: Env, key: string, v: Value)
    requires Redacted(env, key, v).Some?
    ensures Opened(Redacted(env, key, v).value) == Redacted(env, key, v).value
    ensures !Redacted(env, key, v).value.Strings? && !Redacted(env, key, v).value.Opaque?
    decreases v
  {
    hide IsSensitiveKey;
    if v.Opaque? && !IsSensitiveKey(env, key) {
      ResultIsOpen(env, key, v.decoded.value);
    }
  }

  /** Children correspond, and each child of the result is the redacted child. */
  lemma ChildRedacted(env: Env, key: string, v: Value, step: Step)
    requires !IsSensitiveKey(env, key) && Redacted(env, key, v).Some?
    ensures var r := Redacted(env, key, v).value;
      && (Child(v, step).Some? <==> Child(r, step).Some?)
      && (Child(v, step).Some? ==> Redacted(env, KeyOf(step), Child(v, step).value) == Some(Child(r, step).value))
  {
    hide IsSensitiveKey;
    OpenedRedacts(env, key, v);
    ResultIsOpen(env, key, v);
    EmptyKeyIsPlain(env);
  }

  lemma NodeRedacted(env: Env, key: string, v: Value)
    requires !IsSensitiveKey(env, key) && Redacted(env, key, v).Some?
    ensures SameNode(env, Opened(v), Redacted(env, key, v).value)
  {
    hide IsSensitiveKey;
    OpenedRedacts(env, key, v);
    OpenedIsOpen(v);
  }

  lemma {:induction false} OpenedIsOpen(v: Value)
    ensures Opened(v).Opaque? ==> Opened(v) == Opaque(None)
  {
    if v.Opaque? && v.decoded.Some? {
      OpenedIsOpen(v.decoded.value);
    }
  }

  /** What is found at a path in the result: the corresponding node when no key on the path is
      sensitive, the marker when the last key is, and nothing below a sensitive key. */
  ghost predicate Masked(env: Env, v: Value, r: Value, path: seq<Step>) {
    if Shown(env, path) then
      && (At(v, path).Some? <==> At(r, path).Some?)
      && (At(v, path).Some? ==> SameNode(env, At(v, path).value, At(r, path).value))
    else if Shown(env, path[..|path| - 1]) then
      At(r, path) == if Opens(v, path) then Some(Text(MARKER)) else None
    else
      At(r, path).None?
  }

  predicate Opens(v: Value, path: seq<Step>) {
    At(v, path).Some?
  }

  lemma {:induction false} RedactedAt(env: Env, key: string, v: Value, path: seq<Step>)
    requires !IsSensitiveKey(env, key) && Redacted(env, key, v).Some?
    ensures Masked(env, v, Redacted(env, key, v).value, path)
    decreases path
  {
    hide IsSensitiveKey, Redacted, SameNode;
    var r := Redacted(env, key, v).value;
    if path == [] {
      NodeRedacted(env, key, v);
      ResultIsOpen(env, key, v);
    } else {
      var step, rest := path[0], path[1..];
      assert path == [step] + rest;
      ChildRedacted(env, key, v, step);
      EmptyKeyIsPlain(env);
      if Child(v, step).Some? {
        var c, d := Child(v, step).value, Child(r, step).value;
        if Hides(env, step) {
          HiddenStep(env, key, v, path);
        } else {
          RedactedAt(env, KeyOf(step), c, rest);
          ShownStep(env, v, c, r, d, path);
        }
      }
    }
  }

  /** Below a sensitive first key there is the marker and nothing else. */
  lemma HiddenStep(env: Env, key: string, v: Value, path: seq<Step>)
    requires !IsSensitiveKey(env, key) && Redacted(env, key, v).Some?
    requires path != [] && Hides(env, path[0]) && Child(v, path[0]).Some?
    ensures Masked(env, v, Redacted(env, key, v).value, path)
  {
    hide IsSensitiveKey, Redacted, SameNode;
    var r, step, rest := Redacted(env, key, v).value, path[0], path[1..];
    ChildRedacted(env, key, v, step);
    BehindMarker(env, KeyOf(step), Child(v, step).value, rest);
    assert At(r, path) == At(Text(MARKER), rest) && At(v, path) == At(Child(v, step).value, rest);
    if rest != [] {
      assert path[..|path| - 1][0] == step;
    }
  }

  /** A first step that is not hidden passes the question on to the child. */
  lemma ShownStep(env: Env, v: Value, c: Value, r: Value, d: Value, path: seq<Step>)
    requires path != [] && !Hides(env, path[0]) && Child(v, path[0]) == Some(c) && Child(r, path[0]) == Some(d)
    requires Masked(env, c, d, path[1..])
    ensures Masked(env, v, r, path)
  {
    hide SameNode, Child, Hides;
    var step, rest := path[0], path[1..];
    assert At(v, path) == At(c, rest) && At(r, path) == At(d, rest);
    ShownRest(env, path);
    hide At;
  }

  lemma ShownRest(env: Env, path: seq<Step>)
    requires path != [] && !Hides(env, path[0])
    ensures var rest := path[1..];
      && (Shown(env, path) <==> Shown(env, rest))
      && (rest != [] ==> (Shown(env, path[..|path| - 1]) <==> Shown(env, rest[..|rest| - 1])))
  {
    hide Hides;
    var rest := path[1..];
    assert path == [path[0]] + rest;
    if rest != [] {
      assert path[..|path| - 1] == [path[0]] + rest[..|rest| - 1];
    }
  }

  lemma BehindMarker(env: Env, key: string, v: Value, path: seq<Step>)
    requires IsSensitiveKey(env, key)
    ensures Redacted(env, key, v) == Some(Text(MARKER))
    ensures At(Text(MARKER), path) == if path == [] then Some(Text(MARKER)) else None
  {
  }

  /** Where redaction fails: at a value that is not JSON and that no sensitive key hides. */
  lemma {:induction false} Offender(env: Env, key: string, v: Value) returns (path: seq<Step>)
    requires Redacted(env, key, v).None?
    ensures Shown(env, path) && At(v, path) == Some(Opaque(None))
    decreases v
  {
    hide IsSensitiveKey;
    EmptyKeyIsPlain(env);
    match v {
      case Opaque(None) => path := [];
      case Opaque(Some(decoded)) =>
        path := Offender(env, key, decoded);
        SameInside(v, path);
      case List(items) =>
        var i :| 0 <= i < |items| && Redacted(env, "", items[i]).None?;
        var rest := Offender(env, "", items[i]);
        path := [Index(i)] + rest;
        assert path[1..] == rest;
      case Object(fields) =>
        var k :| k in fields && Redacted(env, k, fields[k]).None?;
        var rest := Offender(env, k, fields[k]);
        path := [Key(k)] + rest;
        assert path[1..] == rest;
    }
  }

  lemma SameInside(v: Value, path: seq<Step>)
    requires v.Opaque? && v.decoded.Some?
    ensures At(v, path) == At(v.decoded.value, path)
  {
  }

  /** Redaction fails exactly when some value that no sensitive key hides is not JSON. */
  lemma FailsIff(env: Env, key: string, v: Value)
    requires !IsSensitiveKey(env, key)
    ensures Redacted(env, key, v).None? <==> exists path :: Shown(env, path) && At(v, path) == Some(Opaque(None))
  {
    hide IsSensitiveKey;
    if Redacted(env, key, v).None? {
      var path := Offender(env, key, v);
    } else {
      forall path | Shown(env, path)
        ensures At(v, path) != Some(Opaque(None))
      {
        RedactedAt(env, key, v, path);
      }
    }
  }

  /** Every summary: the same paths without sensitive keys, the marker at the first sensitive key of
      any depth, nothing below it; and an error exactly when a visible value is not JSON. */
  lemma SummaryRedacted(env: Env, summary: Summary, path: seq<Step>)
    ensures RedactSummary(env, summary).None? <==>
      exists p :: Shown(env, p) && At(Object(summary), p) == Some(Opaque(None))
    ensures RedactSummary(env, summary).Some? ==>
      Masked(env, Object(summary), Object(RedactSummary(env, summary).value), path)
  {
    hide IsSensitiveKey, Masked, Shown, At;
    EmptyKeyIsPlain(env);
    SummaryIsObject(env, summary);
    FailsIff(env, "", Object(summary));
    if RedactSummary(env, summary).Some? {
      RedactedAt(env, "", Object(summary), path);
    }
  }

  lemma SummaryIsObject(env: Env, summary: Summary)
    ensures var r := Redacted(env, "", Object(summary));
      && (r.Some? ==> r.value.Object? && RedactSummary(env, summary) == Some(r.value.fields))
      && (r.None? ==> RedactSummary(env, summary).None?)
  {
    hide IsSensitiveKey;
    EmptyKeyIsPlain(env);
    if summary == map[] {
      assert Redacted(env, "", Object(summary)).value.fields == map[];
    }
  }

  // ---------------------------------------------------------------- redacting twice

  predicate Stable(env: Env, text: string) {
    env.plainText(env.plainText(text)) == env.plainText(text)
  }

  ghost predicate Idempotent(env: Env) {
    forall text :: Stable(env, text)
  }

  /** Nothing left to redact. */
  predicate Clean(env: Env, key: string, v: Value)
    decreases v
  {
    if IsSensitiveKey(env, key) then v == Text(MARKER)
    else
      match v
      case Text(text) => env.plainText(text) == text
      case List(items) => forall i :: 0 <= i < |items| ==> Clean(env, "", items[i])
      case Object(fields) => forall k :: k in fields ==> Clean(env, k, fields[k])
      case Strings(_) => false
      case Opaque(_) => false
      case _ => true
  }

  /** The fixed points of redaction are the clean values. */
  lemma {:induction false} FixedIffClean(env: Env, key: string, v: Value)
    ensures Redacted(env, key, v) == Some(v) <==> Clean(env, key, v)
    decreases v
  {
    hide IsSensitiveKey;
    if !IsSensitiveKey(env, key) {
      match v {
        case List(items) =>
          forall i | 0 <= i < |items|
            ensures Redacted(env, "", items[i]) == Some(items[i]) <==> Clean(env, "", items[i])
          {
            FixedIffClean(env, "", items[i]);
          }
          if Clean(env, key, v) {
            assert Redacted(env, key, v).value.items == items;
          }
        case Object(fields) =>
          forall k | k in fields
            ensures Redacted(env, k, fields[k]) == Some(fields[k]) <==> Clean(env, k, fields[k])
          {
            FixedIffClean(env, k, fields[k]);
          }
          if Clean(env, key, v) {
            assert Redacted(env, key, v).value.fields == fields;
          }
        case Opaque(_) =>
          if Redacted(env, key, v).Some? {
            ResultIsOpen(env, key, v);
          }
        case _ =>
      }
    }
  }

  lemma {:induction false} ResultIsClean(env: Env, key: string, v: Value)
    requires Idempotent(env) && Redacted(env, key, v).Some?
    ensures Clean(env, key, Redacted(env, key, v).value)
    decreases v
  {
    hide IsSensitiveKey, Idempotent;
    EmptyKeyIsPlain(env);
    if !IsSensitiveKey(env, key) {
      match v {
        case Text(text) => StableText(env, text);
        case Strings(texts) =>
          forall i | 0 <= i < |texts|
            ensures Stable(env, texts[i])
          {
            StableText(env, texts[i]);
          }
        case List(items) =>
          forall i | 0 <= i < |items|
            ensures Clean(env, "", Redacted(env, "", items[i]).value)
          {
            ResultIsClean(env, "", items[i]);
          }
        case Object(fields) =>
          forall k | k in fields
            ensures Clean(env, k, Redacted(env, k, fields[k]).value)
          {
            ResultIsClean(env, k, fields[k]);
          }
        case Opaque(_) => ResultIsClean(env, key, v.decoded.value);
        case _ =>
      }
    }
  }

  lemma StableText(env: Env, text: string)
    requires Idempotent(env)
    ensures Stable(env, text)
  {
  }

  predicate ClonesOnce(env: Env, summary: Summary) {
    Clone(env, Clone(env, summary)) == Clone(env, summary)
  }

  lemma CloneTwice(env: Env, summary: Summary)
    requires Idempotent(env)
    ensures ClonesOnce(env, summary)
  {
    hide IsSensitiveKey, Idempotent, Redacted;
    SummaryIsObject(env, summary);
    var r := Redacted(env, "", Object(summary));
    if r.Some? {
      ResultIsClean(env, "", Object(summary));
      FixedIffClean(env, "", r.value);
      SummaryIsObject(env, r.value.fields);
    }
  }

  /** A clone of a clone is the clone, for every summary, exactly when redacting text twice is
      redacting it once. */
  lemma CloneTwiceIff(env: Env)
    ensures (forall summary :: ClonesOnce(env, summary)) <==> Idempotent(env)
  {
    if Idempotent(env) {
      forall summary
        ensures ClonesOnce(env, summary)
      {
        CloneTwice(env, summary);
      }
    } else {
      var text :| !Stable(env, text);
      CloneOfText(env, text);
      CloneOfText(env, env.plainText(text));
      assert !ClonesOnce(env, map["x" := Text(text)]);
    }
  }

  lemma CloneOfText(env: Env, text: string)
    ensures Clone(env, map["x" := Text(text)]) == map["x" := Text(env.plainText(text))]
    ensures Clone(env, map["x" := Text(text)])["x"] == Text(env.plainText(text))
  {
    hide IsSensitiveKey;
    var summary := map["x" := Text(text)];
    assert "x" in summary;
    EmptyKeyIsPlain(env);
    ShortKeyIsPlain(env, "x");
    assert Redacted(env, "x", summary["x"]) == Some(Text(env.plainText(text)));
    var r := Redacted(env, "", Object(summary));
    assert r.Some? by {
      assert forall k :: k in summary ==> k == "x";
    }
    assert r.value.fields == map["x" := Text(env.plainText(text))];
    SummaryIsObject(env, summary);
  }

  /** A clone is empty when a visible value is not JSON, and otherwise the redacted summary along every path. */
  lemma CloneShows(env: Env, summary: Summary, path: seq<Step>)
    ensures (exists p :: Shown(env, p) && At(Object(summary), p) == Some(Opaque(None))) ==> Clone(env, summary) == map[]
    ensures !(exists p :: Shown(env, p) && At(Object(summary), p) == Some(Opaque(None))) ==>
      Masked(env, Object(summary), Object(Clone(env, summary)), path)
  {
    hide RedactSummary, Masked, Shown, At;
    SummaryRedacted(env, summary, path);
  }
}
