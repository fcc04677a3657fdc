/** Template substitution (`render`): every `{{key}}` of the template is replaced by the
    key's value, one key after the other, in the order of the data object's keys. */
module Templates {
  import opened Json

  predicate IsIdentifierStart(c: char) {
    'a' <= c <= 'z' || 'A' <= c <= 'Z' || c == '_'
  }

  /** A key that reads literally inside `new RegExp('{{' + key + '}}', 'g')`: the app's
      keys are identifiers; a key holding a regular-expression metacharacter, or only
      digits (`{{1}}` is a quantifier), would not match its own placeholder. */
  predicate PlainKey(key: string) {
    |key| > 0 && IsIdentifierStart(key[0])
    && forall i :: 0 <= i < |key| ==> IsIdentifierStart(key[i]) || '0' <= key[i] <= '9'
  }

  /** The placeholder `{{key}}`. */
  function Placeholder(key: string): (p: string)
    ensures |p| == |key| + 4
    ensures p[..2] == "{{" && p[2..|p| - 2] == key && p[|p| - 2..] == "}}"
  {
    "{{" + key + "}}"
  }

  /** `pattern` occurs in `s` starting at index `i`. */
  predicate OccursAt(s: string, pattern: string, i: int) {
    0 <= i && i + |pattern| <= |s| && s[i..i + |pattern|] == pattern
  }

  /** An occurrence in the tail of `s` is an occurrence in `s`, one place further. */
  lemma TailOccurrence(s: string, pattern: string)
    requires |s| > 0
    ensures forall i :: OccursAt(s[1..], pattern, i) ==> OccursAt(s, pattern, i + 1)
  {
    forall i | OccursAt(s[1..], pattern, i)
      ensures OccursAt(s, pattern, i + 1)
    {
      assert s[1..][i..i + |pattern|] == s[i + 1..i + 1 + |pattern|];
    }
  }

  /** `s.replace(/pattern/g, value)` for a literal pattern: occurrences are replaced from
      left to right, and the scan resumes after each replaced occurrence. A string without
      the pattern is left as it is. */
  function ReplaceAll(s: string, pattern: string, value: string): (r: string)
    requires |pattern| > 0
    ensures (forall i :: !OccursAt(s, pattern, i)) ==> r == s
    decreases |s|
  {
    if |s| < |pattern| then s
    else if s[..|pattern|] == pattern then
      assert OccursAt(s, pattern, 0);
      value + ReplaceAll(s[|pattern|..], pattern, value)
    else
      TailOccurrence(s, pattern);
      assert s == [s[0]] + s[1..];
      [s[0]] + ReplaceAll(s[1..], pattern, value)
  }

  /** The first occurrence is replaced: text before it is copied, the occurrence becomes
      `value`, and the replacement goes on after it. */
  lemma {:induction false} ReplaceAllAtOccurrence(x: string, pattern: string, y: string, value: string)
    requires |pattern| > 0
    requires forall i :: 0 <= i < |x| ==> !OccursAt(x + pattern, pattern, i)
    ensures ReplaceAll(x + pattern + y, pattern, value) == x + value + ReplaceAll(y, pattern, value)
    decreases |x|
  {
    var s := x + pattern + y;
    if x == [] {
      assert s[..|pattern|] == pattern && s[|pattern|..] == y;
    } else {
      var x' := x[1..];
      assert OccursAt(x + pattern, pattern, 0) <==> s[..|pattern|] == pattern;
      assert s[1..] == x' + pattern + y;
      calc {
        ReplaceAll(s, pattern, value);
        [s[0]] + ReplaceAll(s[1..], pattern, value);
        { TailOccurrenceInPrefix(x, pattern); ReplaceAllAtOccurrence(x', pattern, y, value); }
        [x[0]] + (x' + value + ReplaceAll(y, pattern, value));
        { assert x == [x[0]] + x'; }
        x + value + ReplaceAll(y, pattern, value);
      }
    }
  }

  /** Dropping the first character of `x` keeps `x + pattern` free of early occurrences. */
  lemma TailOccurrenceInPrefix(x: string, pattern: string)
    requires |x| > 0
    requires forall i :: 0 <= i < |x| ==> !OccursAt(x + pattern, pattern, i)
    ensures forall i :: 0 <= i < |x| - 1 ==> !OccursAt(x[1..] + pattern, pattern, i)
  {
    assert x[1..] + pattern == (x + pattern)[1..];
    TailOccurrence(x + pattern, pattern);
  }

  /** `data[key] || ''`, converted to a string by `replace`. */
  function ValueText(v: Json): string {
    if Truthy(v) then Text(v) else ""
  }

  /** The template after substituting the keys of `data` in order. */
  function Substitute(html: string, data: seq<(string, Json)>): string
    requires forall i :: 0 <= i < |data| ==> PlainKey(data[i].0)
  {
    if data == [] then html
    else
      var last := data[|data| - 1];
      ReplaceAll(Substitute(html, data[..|data| - 1]), Placeholder(last.0), ValueText(last.1))
  }

  /** The template table after `loadTemplates` walks the page's templates `found`, given
      as (id, innerHTML) in document order: every id is registered, and a later template
      with the same id replaces an earlier one. */
  function Registered(templates: map<string, string>, found: seq<(string, string)>): (r: map<string, string>)
    ensures forall id :: id in r <==> id in templates || exists i :: 0 <= i < |found| && found[i].0 == id
    ensures forall i :: 0 <= i < |found| && (forall j :: i < j < |found| ==> found[j].0 != found[i].0) ==>
      found[i].0 in r && r[found[i].0] == found[i].1
    ensures forall id :: id in templates && (forall i :: 0 <= i < |found| ==> found[i].0 != id) ==>
      id in r && r[id] == templates[id]
  {
    if found == [] then templates
    else
      var front := found[..|found| - 1];
      var last := found[|found| - 1];
      assert forall i :: 0 <= i < |found| - 1 ==> found[i] == front[i];
      Registered(templates, front)[last.0 := last.1]
  }

  /** What `render(templateId, data)` returns: `''` for a missing or empty template. */
  function Rendered(templates: map<string, string>, templateId: string, data: seq<(string, Json)>): (r: string)
    requires forall i :: 0 <= i < |data| ==> PlainKey(data[i].0)
    ensures templateId !in templates || templates[templateId] == "" ==> r == ""
    ensures data == [] ==> r == if templateId in templates then templates[templateId] else ""
  {
    if templateId !in templates || templates[templateId] == "" then ""
    else Substitute(templates[templateId], data)
  }

  /** `render(templateId, data)`: one global replacement per key of `data`, in order. */
  method Render(templates: map<string, string>, templateId: string, data: seq<(string, Json)>) returns (html: string)
    requires forall i :: 0 <= i < |data| ==> PlainKey(data[i].0)
    ensures html == Rendered(templates, templateId, data)
  {
    if templateId !in templates || templates[templateId] == "" {
      return "";
    }
    html := templates[templateId];
    for i := 0 to |data|
      invariant html == Substitute(templates[templateId], data[..i])
    {
      assert data[..i + 1][..i] == data[..i];
      html := ReplaceAll(html, Placeholder(data[i].0), ValueText(data[i].1));
    }
    assert data[..|data|] == data;
  }

  /** A template holding none of the data's placeholders renders unchanged. */
  lemma {:induction false} SubstituteWithoutPlaceholders(html: string, data: seq<(string, Json)>)
    requires forall i :: 0 <= i < |data| ==> PlainKey(data[i].0)
    requires forall i, j :: 0 <= i < |data| ==> !OccursAt(html, Placeholder(data[i].0), j)
    ensures Substitute(html, data) == html
  {
    if data != [] {
      var front := data[..|data| - 1];
      SubstituteWithoutPlaceholders(html, front);
    }
  }

  /** Rendering one key: the text before the key's first placeholder is copied, that
      placeholder becomes the value's text, and the rest of the template is rendered the
      same way. */
  lemma RenderedFillsPlaceholder(templates: map<string, string>, templateId: string,
                                 x: string, key: string, y: string, value: Json)
    requires PlainKey(key)
    requires templateId in templates && templates[templateId] == x + Placeholder(key) + y
    requires forall i :: 0 <= i < |x| ==> !OccursAt(x + Placeholder(key), Placeholder(key), i)
    ensures Rendered(templates, templateId, [(key, value)])
         == x + ValueText(value) + ReplaceAll(y, Placeholder(key), ValueText(value))
  {
    var p := Placeholder(key);
    var t := ValueText(value);
    calc {
      Rendered(templates, templateId, [(key, value)]);
      Substitute(x + p + y, [(key, value)]);
      { assert [(key, value)][..0] == []; }
      ReplaceAll(x + p + y, p, t);
      { ReplaceAllAtOccurrence(x, p, y, t); }
      x + t + ReplaceAll(y, p, t);
    }
  }
}
