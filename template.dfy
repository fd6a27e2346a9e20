/**
 * `interpolate`: strict `{{key}}` substitution, as `template.replace` does it
 * with the global regular expression `\{\{(.+?)\}\}` and a replacer function
 * that throws when a key has no value.
 */
module Template {
  import opened Wrappers
  import opened Strings

  /** The characters the regular expression `.` does not match. */
  predicate IsLineTerminator(c: char) {
    c == '\n' || c == '\r' || c == '\U{2028}' || c == '\U{2029}'
  }

  /** `s[..n]` can be the key of a placeholder whose "{{" comes just before `s`:
      at least one character, none a line terminator, and "}}" right after. */
  predicate KeyAt(s: string, n: nat) {
    1 <= n && n + 2 <= |s| && s[n] == '}' && s[n + 1] == '}'
    && forall i :: 0 <= i < n ==> !IsLineTerminator(s[i])
  }

  /** The length of the key the lazy `(.+?)` takes: the shortest possible one. */
  function KeyLength(s: string): (r: Option<nat>)
    ensures r.Some? ==> KeyAt(s, r.value)
    ensures r.Some? ==> forall n :: 1 <= n < r.value ==> !KeyAt(s, n)
    ensures r.None? ==> forall n :: !KeyAt(s, n)
  {
    KeyLengthFrom(s, 1)
  }

  function KeyLengthFrom(s: string, n: nat): (r: Option<nat>)
    requires 1 <= n
    requires forall i :: 0 <= i < n - 1 && i < |s| ==> !IsLineTerminator(s[i])
    ensures r.Some? ==> n <= r.value && KeyAt(s, r.value)
    ensures r.Some? ==> forall m :: n <= m < r.value ==> !KeyAt(s, m)
    ensures r.None? ==> forall m :: n <= m ==> !KeyAt(s, m)
    decreases |s| - n
  {
    if n + 2 > |s| then None
    else if IsLineTerminator(s[n - 1]) then None
    else if s[n] == '}' && s[n + 1] == '}' then Some(n)
    else KeyLengthFrom(s, n + 1)
  }

  /** A placeholder starts at the beginning of `t`. */
  predicate PlaceholderAt(t: string) {
    |t| >= 2 && t[0] == '{' && t[1] == '{' && KeyLength(t[2..]).Some?
  }

  /** `interpolate(template, valueMap)`: each placeholder is replaced by the value of
      its key, left to right, and scanning resumes after its "}}"; a key without a
      value (undefined or null, here: absent from the map) is thrown. */
  function Interpolate(t: string, values: map<string, string>): Result<string, string>
    decreases |t|
  {
    if t == [] then Ok([])
    else if PlaceholderAt(t) then
      var n := KeyLength(t[2..]).value;
      var key := t[2..2 + n];
      if key !in values then Err(key)
      else
        match Interpolate(t[n + 4..], values)
        case Ok(rest) => Ok(values[key] + rest)
        case Err(k) => Err(k)
    else
      match Interpolate(t[1..], values)
      case Ok(rest) => Ok([t[0]] + rest)
      case Err(k) => Err(k)
  }

  /** The keys of the placeholders of `t`, in the order the scan meets them. */
  function Placeholders(t: string): seq<string>
    decreases |t|
  {
    if t == [] then []
    else if PlaceholderAt(t) then
      var n := KeyLength(t[2..]).value;
      [t[2..2 + n]] + Placeholders(t[n + 4..])
    else Placeholders(t[1..])
  }

  /** Strictness: interpolation fails exactly when some placeholder's key has no
      value, and what it throws is the first such key in template order. */
  lemma {:induction false} InterpolateFailsOnFirstMissingKey(t: string, values: map<string, string>)
    ensures var i := FirstAbsent(Placeholders(t), values.Keys);
            (Interpolate(t, values).Err? <==> i >= 0)
            && (i >= 0 ==> Interpolate(t, values) == Err(Placeholders(t)[i]))
    decreases |t|
  {
    if t == [] {
    } else if PlaceholderAt(t) {
      var n := KeyLength(t[2..]).value;
      InterpolateFailsOnFirstMissingKey(t[n + 4..], values);
    } else {
      InterpolateFailsOnFirstMissingKey(t[1..], values);
    }
  }

  /** A placeholder at the start of `t` is the text "{{" + key + "}}". */
  lemma PlaceholderSplit(t: string)
    requires PlaceholderAt(t)
    ensures var n := KeyLength(t[2..]).value;
            n + 4 <= |t| && t == "{{" + t[2..2 + n] + "}}" + t[n + 4..]
  {
    var n := KeyLength(t[2..]).value;
    assert KeyAt(t[2..], n);
    assert t[n + 2] == '}' && t[n + 3] == '}';
    assert t[..2] == "{{" && t[n + 2..n + 4] == "}}";
    assert t == t[..2] + t[2..2 + n] + t[n + 2..n + 4] + t[n + 4..];
  }

  /** Text outside placeholders is kept as it is, and a placeholder is exactly the
      text "{{" + key + "}}": mapping every key to its own placeholder gives the
      template back. */
  lemma {:induction false} InterpolateEcho(t: string, values: map<string, string>)
    requires forall k :: k in Placeholders(t) ==> k in values && values[k] == "{{" + k + "}}"
    ensures Interpolate(t, values) == Ok(t)
    decreases |t|
  {
    if t == [] {
    } else if PlaceholderAt(t) {
      var n := KeyLength(t[2..]).value;
      var key := t[2..2 + n];
      assert Placeholders(t) == [key] + Placeholders(t[n + 4..]);
      InterpolateEcho(t[n + 4..], values);
      PlaceholderSplit(t);
    } else {
      InterpolateEcho(t[1..], values);
      assert t == [t[0]] + t[1..];
    }
  }

  /** A template without placeholders is returned unchanged, whatever the values. */
  lemma NoPlaceholdersUnchanged(t: string, values: map<string, string>)
    requires Placeholders(t) == []
    ensures Interpolate(t, values) == Ok(t)
  {
    InterpolateEcho(t, values);
  }

  /** A key the scan reads back as written: non-empty, no line terminator, no "}". */
  predicate PlainKey(key: string) {
    |key| >= 1 && forall i :: 0 <= i < |key| ==> key[i] != '}' && !IsLineTerminator(key[i])
  }

  /** A value is inserted as it is and never scanned again: interpolation of
      "{{key}}" + rest is the key's value followed by the interpolation of rest. */
  lemma InterpolatePlaceholder(key: string, rest: string, values: map<string, string>)
    requires PlainKey(key)
    ensures var t := "{{" + key + "}}" + rest;
            Interpolate(t, values) ==
              if key !in values then Err(key)
              else match Interpolate(rest, values)
                   case Ok(r) => Ok(values[key] + r)
                   case Err(k) => Err(k)
  {
    var t := "{{" + key + "}}" + rest;
    var s := t[2..];
    assert s == key + "}}" + rest;
    assert KeyAt(s, |key|);
    forall n | 1 <= n < |key| ensures !KeyAt(s, n) {
      assert s[n] == key[n];
    }
    assert KeyLength(s) == Some(|key|);
    assert t[2..2 + |key|] == key;
    assert t[|key| + 4..] == rest;
  }

  /** A character that does not open a placeholder is copied to the output. */
  lemma InterpolateLiteralChar(c: char, rest: string, values: map<string, string>)
    requires c != '{'
    ensures Interpolate([c] + rest, values) ==
              match Interpolate(rest, values)
              case Ok(r) => Ok([c] + r)
              case Err(k) => Err(k)
  {
    assert ([c] + rest)[1..] == rest;
  }

  /** Text without "{" before the rest of a template is copied to the output. */
  lemma {:induction false} InterpolateLiteralPrefix(a: string, b: string, values: map<string, string>)
    requires forall i :: 0 <= i < |a| ==> a[i] != '{'
    ensures Interpolate(a + b, values) ==
              match Interpolate(b, values)
              case Ok(r) => Ok(a + r)
              case Err(k) => Err(k)
    decreases |a|
  {
    if a == [] {
      assert a + b == b;
      match Interpolate(b, values)
      case Ok(r) => assert a + r == r;
      case Err(k) =>
    } else {
      InterpolateLiteralPrefix(a[1..], b, values);
      assert a + b == [a[0]] + (a[1..] + b);
      InterpolateLiteralChar(a[0], a[1..] + b, values);
      match Interpolate(b, values)
      case Ok(r) => assert [a[0]] + (a[1..] + r) == a + r;
      case Err(k) =>
    }
  }

  /** The example of the source's comment: 'a {{color}} cat' with color 'red'. */
  lemma InterpolateExample(t: string, values: map<string, string>)
    requires t == "a {{color}} cat" && values == map["color" := "red"]
    ensures Interpolate(t, values) == Ok("a red cat")
  {
    ExampleText(t);
    ColorCat(t[2..], values);
    InterpolateLiteralPrefix(t[..2], t[2..], values);
    assert t == t[..2] + t[2..];
  }

  lemma ExampleText(t: string)
    requires t == "a {{color}} cat"
    ensures t[..2] == "a " && t[2..] == "{{color}} cat" && "a " + "red cat" == "a red cat"
  {
  }

  lemma ColorCat(u: string, values: map<string, string>)
    requires u == "{{color}} cat" && values == map["color" := "red"]
    ensures Interpolate(u, values) == Ok("red cat")
  {
    ColorCatText(u);
    InterpolatePlaceholder("color", " cat", values);
    NoPlaceholdersUnchangedIfNoBraces(" cat", values);
  }

  lemma ColorCatText(u: string)
    requires u == "{{color}} cat"
    ensures u == "{{" + "color" + "}}" + " cat" && "red" + " cat" == "red cat"
  {
  }

  /** Text without "{" is its own interpolation. */
  lemma {:induction false} NoPlaceholdersUnchangedIfNoBraces(t: string, values: map<string, string>)
    requires forall i :: 0 <= i < |t| ==> t[i] != '{'
    ensures Interpolate(t, values) == Ok(t)
    decreases |t|
  {
    if t != [] {
      NoPlaceholdersUnchangedIfNoBraces(t[1..], values);
      assert t == [t[0]] + t[1..];
    }
  }

  /** A value that looks like a placeholder is not expanded again. */
  lemma InterpolateDoesNotRescan()
    ensures Interpolate("{{a}}", map["a" := "{{a}}"]) == Ok("{{a}}")
  {
    var values := map["a" := "{{a}}"];
    InterpolatePlaceholder("a", "", values);
    assert Interpolate("", values) == Ok("");
    assert "{{a}}" + "" == "{{a}}";
    assert "{{a}}" == "{{" + "a" + "}}" + "";
  }
}
