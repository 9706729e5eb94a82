/** The translation lookup of lib/i18n.ts: dotted keys into nested string
    tables, `{{name}}` interpolation, and the per-locale table with its English
    fallback. */
module I18n {
  import opened Wrappers
  import opened JsString
  import opened Assoc

  /** A translation table: leaves are strings, inner nodes are named groups
      (kept in file order). */
  datatype Entry = Text(s: string) | Group(members: seq<(string, Entry)>)

  // ---------------------------------------------------------------------------
  // Dotted paths

  /** `path.split('.')` */
  function SplitOnDot(s: string): (r: seq<string>)
    ensures |r| >= 1
    ensures forall i :: 0 <= i < |r| ==> '.' !in r[i]
    decreases |s|
  {
    if s == [] then [""]
    else if s[0] == '.' then [""] + SplitOnDot(s[1..])
    else
      var t := SplitOnDot(s[1..]);
      [[s[0]] + t[0]] + t[1..]
  }

  /** Splitting and joining with "." gives back the path. */
  lemma {:induction false} JoinSplitOnDot(s: string)
    ensures Join(SplitOnDot(s), ".") == s
    decreases |s|
  {
    if s != [] {
      JoinSplitOnDot(s[1..]);
      var t := SplitOnDot(s[1..]);
      if s[0] == '.' {
        assert Join([""] + t, ".") == "" + "." + Join(t, ".");
      } else {
        var r := [[s[0]] + t[0]] + t[1..];
        if |t| == 1 {
          assert Join(r, ".") == [s[0]] + t[0];
        } else {
          assert Join(t, ".") == t[0] + "." + Join(t[1..], ".");
          assert r[1..] == t[1..];
          assert Join(r, ".") == [s[0]] + t[0] + "." + Join(t[1..], ".");
        }
      }
    }
  }

  lemma {:induction false} SplitDotFree(a: string)
    requires '.' !in a
    ensures SplitOnDot(a) == [a]
    decreases |a|
  {
    if a != [] {
      assert a[0] in a;
      assert forall c :: c in a[1..] ==> c in a;
      SplitDotFree(a[1..]);
      assert SplitOnDot(a) == [[a[0]] + a[1..]];
      assert [a[0]] + a[1..] == a;
    }
  }

  /** A dot-free segment followed by "." and the rest splits off first. */
  lemma {:induction false} SplitSegment(a: string, rest: string)
    requires '.' !in a
    ensures SplitOnDot(a + "." + rest) == [a] + SplitOnDot(rest)
    decreases |a|
  {
    var s := a + "." + rest;
    if a == [] {
      assert s == "." + rest && s[0] == '.';
      assert s[1..] == rest;
      assert SplitOnDot(s) == [""] + SplitOnDot(rest);
    } else {
      assert a[0] in a && s[0] == a[0];
      assert forall c :: c in a[1..] ==> c in a;
      assert s[1..] == a[1..] + "." + rest;
      SplitSegment(a[1..], rest);
      var t := SplitOnDot(s[1..]);
      assert t == [a[1..]] + SplitOnDot(rest);
      assert SplitOnDot(s) == [[a[0]] + t[0]] + t[1..];
      assert [a[0]] + a[1..] == a;
    }
  }

  /** Joining dot-free keys with "." and splitting again gives back the keys. */
  lemma {:induction false} SplitJoinOnDot(keys: seq<string>)
    requires |keys| >= 1 && forall i :: 0 <= i < |keys| ==> '.' !in keys[i]
    ensures SplitOnDot(Join(keys, ".")) == keys
    decreases |keys|
  {
    if |keys| == 1 {
      SplitDotFree(keys[0]);
    } else {
      SplitSegment(keys[0], Join(keys[1..], "."));
      SplitJoinOnDot(keys[1..]);
    }
  }

  // ---------------------------------------------------------------------------
  // getNestedValue

  /** The reduction `keys.reduce((current, key) => current?.[key], obj)`. Indexing
      a string leaf yields undefined here. */
  function Walk(e: Option<Entry>, keys: seq<string>): (r: Option<Entry>)
    ensures keys == [] ==> r == e
    ensures keys != [] && !(e.Some? && e.value.Group?) ==> r.None?
    decreases |keys|
  {
    if keys == [] then e
    else match e
      case Some(Group(ms)) => Walk(Lookup(ms, keys[0]), keys[1..])
      case _ => None
  }

  /** The reduction folds left: walking a path in two parts is walking the
      first part and then the second from where it ended. */
  lemma {:induction false} WalkAppend(e: Option<Entry>, a: seq<string>, b: seq<string>)
    ensures Walk(e, a + b) == Walk(Walk(e, a), b)
    decreases |a|
  {
    if a == [] {
      assert a + b == b;
    } else {
      assert (a + b)[0] == a[0] && (a + b)[1..] == a[1..] + b;
      match e
      case Some(Group(ms)) => WalkAppend(Lookup(ms, a[0]), a[1..], b);
      case _ =>
    }
  }

  /** A dotted path walks its first segment, then the rest of the path from
      the entry that segment reached. */
  lemma WalkDottedPath(e: Option<Entry>, a: string, rest: string)
    requires '.' !in a
    ensures Walk(e, SplitOnDot(a + "." + rest)) == Walk(Walk(e, [a]), SplitOnDot(rest))
  {
    SplitSegment(a, rest);
    WalkAppend(e, [a], SplitOnDot(rest));
  }

  /** Once the walk has left the table (a missing key or a text leaf met
      before the end), it stays out: no later key brings it back. */
  lemma WalkPastLeaf(e: Option<Entry>, a: seq<string>, b: seq<string>)
    requires Walk(e, a).None? || (Walk(e, a).Some? && Walk(e, a).value.Text?)
    requires b != []
    ensures Walk(e, a + b).None?
  {
    WalkAppend(e, a, b);
  }

  /** `getNestedValue(obj, path)`: the entry at the dotted path if it is truthy (a
      non-empty string or a group), and otherwise the path itself. */
  function GetNestedValue(table: Entry, path: string): (r: Entry)
    ensures r.Text? && r.s != path ==> r.s != ""
    ensures r.Group? <==> Walk(Some(table), SplitOnDot(path)).Some? && Walk(Some(table), SplitOnDot(path)).value.Group?
    ensures r.Group? ==> Walk(Some(table), SplitOnDot(path)) == Some(r)
  {
    match Walk(Some(table), SplitOnDot(path))
    case Some(Text(s)) => if s != "" then Text(s) else Text(path)
    case Some(Group(ms)) => Group(ms)
    case None => Text(path)
  }

  /** A key naming a non-empty string finds it. */
  lemma GetNestedValueFinds(table: Entry, keys: seq<string>, s: string)
    requires |keys| >= 1 && forall i :: 0 <= i < |keys| ==> '.' !in keys[i]
    requires Walk(Some(table), keys) == Some(Text(s)) && s != ""
    ensures GetNestedValue(table, Join(keys, ".")) == Text(s)
  {
    SplitJoinOnDot(keys);
  }

  /** A key that names nothing, or an empty string, is shown as the key itself. */
  lemma GetNestedValueMissing(table: Entry, path: string)
    requires Walk(Some(table), SplitOnDot(path)).None? || Walk(Some(table), SplitOnDot(path)) == Some(Text(""))
    ensures GetNestedValue(table, path) == Text(path)
  {
  }

  // ---------------------------------------------------------------------------
  // interpolate

  /** A variable value: `string | number` (numbers are integers here). */
  datatype VarValue = VStr(s: string) | VNum(n: int)

  predicate Truthy(v: VarValue) {
    match v
    case VStr(s) => s != ""
    case VNum(n) => n != 0
  }

  /** `String(v)` */
  function VarString(v: VarValue): string {
    match v
    case VStr(s) => s
    case VNum(n) => IntToString(n)
  }

  /** The length of the run of characters other than '}' that starts s. */
  function NonBraceRun(s: string): (n: nat)
    ensures n <= |s| && '}' !in s[..n]
    ensures n < |s| ==> s[n] == '}'
  {
    if s != [] && s[0] != '}' then
      var n := 1 + NonBraceRun(s[1..]);
      assert s[..n] == [s[0]] + s[1..][..n - 1];
      n
    else 0
  }

  /** A match of /\{\{([^}]+)\}\}/ at the start of s: its length and the
      captured key. The greedy run can only be followed by "}}" at its end, so
      the match is unique. */
  function PlaceholderAt(s: string): (r: Option<(nat, string)>)
    ensures r.Some? ==> (5 <= r.value.0 <= |s| && r.value.1 != ""
                         && s[..r.value.0] == "{{" + r.value.1 + "}}" && '}' !in r.value.1)
  {
    if StartsWith(s, "{{") then
      var n := NonBraceRun(s[2..]);
      if n >= 1 && StartsWith(s[2 + n..], "}}") then
        var key := s[2..2 + n];
        assert s[..2 + n + 2] == s[..2] + key + s[2 + n..2 + n + 2];
        Some((2 + n + 2, key))
      else None
    else None
  }

  /** The replacement for one match: `String(variables[key.trim()] || match)`. */
  function Replacement(match_: string, key: string, variables: map<string, VarValue>): string {
    var k := Trim(key);
    if k in variables && Truthy(variables[k]) then VarString(variables[k]) else match_
  }

  /** `template.replace(/\{\{([^}]+)\}\}/g, ...)`: matches are replaced left to
      right, the scan resumes after each match and replaced text is not rescanned. */
  function Substitute(s: string, variables: map<string, VarValue>): string
    decreases |s|
  {
    if s == [] then []
    else match PlaceholderAt(s)
      case Some((n, key)) => Replacement(s[..n], key, variables) + Substitute(s[n..], variables)
      case None => [s[0]] + Substitute(s[1..], variables)
  }

  /** `interpolate(template, variables)`: no variables leaves the template alone. */
  function Interpolate(template: string, variables: Option<map<string, VarValue>>): (r: string)
    ensures variables.None? ==> r == template
  {
    match variables
    case None => template
    case Some(vs) => Substitute(template, vs)
  }

  /** A template without "{{" is left unchanged. */
  lemma {:induction false} SubstituteNoPlaceholder(s: string, variables: map<string, VarValue>)
    requires !Contains(s, "{{")
    ensures Substitute(s, variables) == s
    decreases |s|
  {
    if s != [] {
      SubstituteNoPlaceholder(s[1..], variables);
    }
  }

  /** When no variable is truthy every placeholder stays as written. */
  lemma {:induction false} SubstituteAllFalsy(s: string, variables: map<string, VarValue>)
    requires forall k :: k in variables ==> !Truthy(variables[k])
    ensures Substitute(s, variables) == s
    decreases |s|
  {
    if s != [] {
      var n := SubstituteStep(s, variables);
      SubstituteAllFalsy(s[n..], variables);
      assert s[..n] + s[n..] == s;
    }
  }

  /** One step of the scan when no variable is truthy: the first n characters
      are copied, whether they are a placeholder or a single character. */
  lemma SubstituteStep(s: string, variables: map<string, VarValue>) returns (n: nat)
    requires s != []
    requires forall k :: k in variables ==> !Truthy(variables[k])
    ensures 1 <= n <= |s|
    ensures Substitute(s, variables) == s[..n] + Substitute(s[n..], variables)
  {
    match PlaceholderAt(s)
    case Some((m, key)) =>
      n := m;
    case None =>
      n := 1;
      assert s[..1] == [s[0]];
  }

  /** A placeholder whose trimmed key names a truthy variable is replaced by the
      variable's text, verbatim: the inserted text is not scanned again. */
  lemma SubstitutePlaceholder(key: string, rest: string, variables: map<string, VarValue>)
    requires key != "" && '}' !in key
    requires Trim(key) in variables && Truthy(variables[Trim(key)])
    ensures Substitute("{{" + key + "}}" + rest, variables) == VarString(variables[Trim(key)]) + Substitute(rest, variables)
  {
    var s := "{{" + key + "}}" + rest;
    PlaceholderAtPlaceholder(key, rest);
    var n := |key| + 4;
    assert s[..n] == "{{" + key + "}}" && s[n..] == rest;
    assert Substitute(s, variables) == Replacement(s[..n], key, variables) + Substitute(s[n..], variables);
  }

  /** A placeholder whose trimmed key is missing or names a falsy value (0, "")
      stays as written, whatever the other variables are. */
  lemma SubstituteKeepsPlaceholder(key: string, rest: string, variables: map<string, VarValue>)
    requires key != "" && '}' !in key
    requires !(Trim(key) in variables && Truthy(variables[Trim(key)]))
    ensures Substitute("{{" + key + "}}" + rest, variables) == "{{" + key + "}}" + Substitute(rest, variables)
  {
    var s := "{{" + key + "}}" + rest;
    PlaceholderAtPlaceholder(key, rest);
    var n := |key| + 4;
    assert s[..n] == "{{" + key + "}}" && s[n..] == rest;
    assert Substitute(s, variables) == Replacement(s[..n], key, variables) + Substitute(s[n..], variables);
  }

  lemma PlaceholderAtPlaceholder(key: string, rest: string)
    requires key != "" && '}' !in key
    ensures PlaceholderAt("{{" + key + "}}" + rest) == Some((|key| + 4, key))
  {
    var s := "{{" + key + "}}" + rest;
    assert s[..2] == "{{";
    assert s[2..] == key + ("}}" + rest);
    NonBraceRunOf(key, "}}" + rest);
    assert s[2 + |key|..] == "}}" + rest;
    assert s[2..2 + |key|] == key;
  }

  lemma {:induction false} NonBraceRunOf(a: string, rest: string)
    requires '}' !in a && (rest == [] || rest[0] == '}')
    ensures NonBraceRun(a + rest) == |a|
    decreases |a|
  {
    if a != [] {
      assert a[0] in a;
      assert forall c :: c in a[1..] ==> c in a;
      assert (a + rest)[1..] == a[1..] + rest;
      NonBraceRunOf(a[1..], rest);
    }
  }

  /** Text before the first '{' is copied as it is. */
  lemma {:induction false} SubstitutePlainPrefix(a: string, rest: string, variables: map<string, VarValue>)
    requires forall i :: 0 <= i < |a| ==> a[i] != '{'
    ensures Substitute(a + rest, variables) == a + Substitute(rest, variables)
    decreases |a|
  {
    if a == [] {
      assert a + rest == rest;
    } else {
      var s := a + rest;
      SubstituteCopiesChar(s, variables);
      assert s[1..] == a[1..] + rest;
      SubstitutePlainPrefix(a[1..], rest, variables);
      ConsAppend(a, Substitute(rest, variables));
    }
  }

  lemma ConsAppend(a: string, t: string)
    requires a != []
    ensures [a[0]] + (a[1..] + t) == a + t
  {
    assert [a[0]] + a[1..] == a;
  }

  /** A character other than '{' starts no placeholder and is copied. */
  lemma SubstituteCopiesChar(s: string, variables: map<string, VarValue>)
    requires s != [] && s[0] != '{'
    ensures Substitute(s, variables) == [s[0]] + Substitute(s[1..], variables)
  {
    assert !StartsWith(s, "{{") by { if |s| >= 2 { assert s[..2][0] == s[0]; } }
  }

  // ---------------------------------------------------------------------------
  // The locale tables and t

  /** The statically imported tables, keyed by locale. */
  datatype Catalog = Catalog(en: Entry, zh: Entry)

  /** `translations[locale] || translations.en` */
  function GetTranslations(catalog: Catalog, locale: string): (table: Entry)
    ensures locale == "zh" ==> table == catalog.zh
    ensures locale != "zh" ==> table == catalog.en
  {
    if locale == "zh" then catalog.zh else catalog.en
  }

  const ReplaceNotAFunction := "template.replace is not a function"

  /** `t(key, variables)` under the router's locale: the looked-up text with its
      placeholders filled; a key naming a group returns the group itself without
      variables and throws with them. */
  function T(catalog: Catalog, locale: string, key: string, variables: Option<map<string, VarValue>>): (r: Result<Entry, string>)
    ensures variables.None? ==> r == Ok(GetNestedValue(GetTranslations(catalog, locale), key))
    ensures r.Err? <==> variables.Some? && GetNestedValue(GetTranslations(catalog, locale), key).Group?
    ensures r.Ok? && r.value.Text? && variables.Some? ==>
      GetNestedValue(GetTranslations(catalog, locale), key).Text?
      && r.value.s == Substitute(GetNestedValue(GetTranslations(catalog, locale), key).s, variables.value)
  {
    var value := GetNestedValue(GetTranslations(catalog, locale), key);
    match variables
    case None => Ok(value)
    case Some(vs) =>
      match value
      case Text(s) => Ok(Text(Interpolate(s, variables)))
      case Group(_) => Err(ReplaceNotAFunction)
  }

  /** A locale with no table of its own reads the English one. */
  lemma TFallsBackToEnglish(catalog: Catalog, locale: string, key: string, variables: Option<map<string, VarValue>>)
    requires locale != "zh"
    ensures T(catalog, locale, key, variables) == T(catalog, "en", key, variables)
  {
  }

  /** An unknown key is shown as itself, after interpolation. */
  lemma TMissingKey(catalog: Catalog, locale: string, key: string, variables: Option<map<string, VarValue>>)
    requires Walk(Some(GetTranslations(catalog, locale)), SplitOnDot(key)).None?
    ensures T(catalog, locale, key, variables) == Ok(Text(Interpolate(key, variables)))
  {
  }
}
