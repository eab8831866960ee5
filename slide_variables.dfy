/**
 * The slide variables of the older slide app (`SlideVariables` of src/schema/types.ts) and
 * `resolveVariable` of src/schema/renderer.tsx, which fills `{{name}}` and `{{name.field}}`
 * placeholders in a template string from them.
 */
module SchemaVariables {
  import opened Wrappers
  import opened Strings
  import opened Sequences

  /** The values a variable path can reach. */
  datatype VarValue =
    | VUndefined
    | VNull
    | VText(s: string)
    | VList(items: seq<string>)
    | VObject(fields: map<string, VarValue>)
    | VNumber(n: nat)

  datatype QrCode = QrCode(url: string, labelText: string)

  /** `SlideVariables`; `screenshot: string | null`, the optional fields are `Option`s. */
  datatype SlideVariables = SlideVariables(
    title: string, subtitle: string, screenshot: Option<string>, screenshot2: Option<string>,
    qrcode1: Option<QrCode>, qrcode2: Option<QrCode>, tags: Option<seq<string>>)

  function Nullable(s: Option<string>): VarValue
  {
    if s.Some? then VText(s.value) else VNull
  }

  function QrObject(q: QrCode): VarValue
  {
    VObject(map["url" := VText(q.url), "label" := VText(q.labelText)])
  }

  /** The variables as the plain object `resolveVariable` walks; absent optionals have no key. */
  function VariablesObject(v: SlideVariables): VarValue
  {
    VObject(map["title" := VText(v.title), "subtitle" := VText(v.subtitle),
                "screenshot" := Nullable(v.screenshot), "screenshot2" := Nullable(v.screenshot2)]
            + (if v.qrcode1.Some? then map["qrcode1" := QrObject(v.qrcode1.value)] else map[])
            + (if v.qrcode2.Some? then map["qrcode2" := QrObject(v.qrcode2.value)] else map[])
            + (if v.tags.Some? then map["tags" := VList(v.tags.value)] else map[]))
  }

  /**
   * A key JavaScript reads as an array index: a numeral without leading zeros. (The bound
   * of 2^32 - 1 on indices never matters here, since an index must also be below a length.)
   */
  predicate IsIndexKey(part: string)
  {
    |part| > 0 && AllDigits(part) && (part == "0" || part[0] != '0')
  }

  /**
   * `value[part]` on a value that is not null or undefined: an object's own property; an
   * element of a list or a character of a string at an index key; the `length` of either;
   * undefined otherwise.
   */
  function Prop(v: VarValue, part: string): (r: VarValue)
    ensures v.VObject? ==> r == if part in v.fields then v.fields[part] else VUndefined
    ensures v.VList? && IsIndexKey(part) && DecimalValue(part) < |v.items| ==> r == VText(v.items[DecimalValue(part)])
    ensures v.VText? && IsIndexKey(part) && DecimalValue(part) < |v.s| ==> r == VText([v.s[DecimalValue(part)]])
    ensures v.VList? && part == "length" ==> r == VNumber(|v.items|)
    ensures v.VText? && part == "length" ==> r == VNumber(|v.s|)
  {
    match v
    case VObject(fields) => if part in fields then fields[part] else VUndefined
    case VList(items) =>
      if part == "length" then VNumber(|items|)
      else if IsIndexKey(part) && DecimalValue(part) < |items| then VText(items[DecimalValue(part)])
      else VUndefined
    case VText(t) =>
      if part == "length" then VNumber(|t|)
      else if IsIndexKey(part) && DecimalValue(part) < |t| then VText([t[DecimalValue(part)]])
      else VUndefined
    case _ => VUndefined
  }

  /** A rendered natural number is an index key, and reads back as that number. */
  lemma {:induction false} NatToStringIndexKey(n: nat)
    ensures IsIndexKey(NatToString(n)) && DecimalValue(NatToString(n)) == n
    decreases n
  {
    DecimalRoundTrip(n);
    if n >= 10 {
      NatToStringIndexKey(n / 10);
      assert NatToString(n)[0] == NatToString(n / 10)[0];
    } else if n > 0 {
      assert DigitValue(NatToString(n)[0]) == n;
    }
  }

  predicate Nullish(v: VarValue)
  {
    v.VUndefined? || v.VNull?
  }

  /** The value a dotted path reaches; a null or undefined value met before a part ends the walk. */
  function PathValue(v: VarValue, parts: seq<string>): VarValue
    decreases |parts|
  {
    if |parts| == 0 then v
    else if Nullish(v) then VUndefined
    else PathValue(Prop(v, parts[0]), parts[1..])
  }

  /** `String(value ?? '')`, as the replace callback's result is inserted. */
  function Text(v: VarValue): (t: string)
    ensures Nullish(v) ==> t == ""
    ensures v.VText? ==> t == v.s
  {
    match v
    case VUndefined => ""
    case VNull => ""
    case VText(s) => s
    case VList(items) => Join(items, ',')
    case VObject(_) => "[object Object]"
    case VNumber(n) => NatToString(n)
  }

  /** The callback's loop over the parts of the key. */
  method Lookup(variables: VarValue, parts: seq<string>) returns (text: string)
    ensures text == Text(PathValue(variables, parts))
  {
    var value := variables;
    var i := 0;
    while i < |parts|
      invariant 0 <= i <= |parts|
      invariant PathValue(variables, parts) == PathValue(value, parts[i..])
    {
      if value.VNull? || value.VUndefined? {
        return "";
      }
      assert parts[i..][1..] == parts[i + 1..];
      value := Prop(value, parts[i]);
      i := i + 1;
    }
    text := Text(value);
  }

  /** A one-part path reads the variable itself, a two-part path a field of an object variable. */
  lemma PathValueParts(v: SlideVariables, name: string, field: string)
    ensures PathValue(VariablesObject(v), [name]) == Prop(VariablesObject(v), name)
    ensures PathValue(VariablesObject(v), [name, field]) ==
      if Nullish(Prop(VariablesObject(v), name)) then VUndefined
      else Prop(Prop(VariablesObject(v), name), field)
  {
    var obj := VariablesObject(v);
    assert [name][1..] == [];
    assert [name, field][1..] == [field];
    assert [field][1..] == [];
    assert PathValue(obj, [name, field]) == PathValue(Prop(obj, name), [field]);
  }

  /** `{{title}}` reads the title. */
  lemma TitlePath(v: SlideVariables)
    ensures Text(PathValue(VariablesObject(v), ["title"])) == v.title
  {
    PathValueParts(v, "title", "");
    assert VariablesObject(v).fields["title"] == VText(v.title);
  }

  /** `{{screenshot}}` reads the screenshot, and a null screenshot gives ''. */
  lemma ScreenshotPath(v: SlideVariables)
    ensures Text(PathValue(VariablesObject(v), ["screenshot"])) == if v.screenshot.Some? then v.screenshot.value else ""
  {
    PathValueParts(v, "screenshot", "");
    assert VariablesObject(v).fields["screenshot"] == Nullable(v.screenshot);
  }

  /**
   * `{{tags.k}}` reads the k-th tag, `{{tags.length}}` the number of tags, and both give ''
   * when the slide has no tags; a bare `{{tags}}` joins the tags with commas.
   */
  lemma TagsPath(v: SlideVariables, k: nat)
    ensures Text(PathValue(VariablesObject(v), ["tags", NatToString(k)])) ==
      if v.tags.Some? && k < |v.tags.value| then v.tags.value[k]
      else ""
    ensures Text(PathValue(VariablesObject(v), ["tags", "length"])) ==
      if v.tags.Some? then NatToString(|v.tags.value|) else ""
    ensures Text(PathValue(VariablesObject(v), ["tags"])) == if v.tags.Some? then Join(v.tags.value, ',') else ""
  {
    var obj := VariablesObject(v);
    PathValueParts(v, "tags", NatToString(k));
    PathValueParts(v, "tags", "length");
    NatToStringIndexKey(k);
    if v.tags.Some? {
      assert obj.fields["tags"] == VList(v.tags.value);
    } else {
      assert "tags" !in obj.fields;
    }
  }

  /** `{{qrcode1.url}}` reads the first QR code's URL, and gives '' when there is none. */
  lemma QrCodePath(v: SlideVariables)
    ensures Text(PathValue(VariablesObject(v), ["qrcode1", "url"])) == if v.qrcode1.Some? then v.qrcode1.value.url else ""
  {
    PathValueParts(v, "qrcode1", "url");
    var obj := VariablesObject(v);
    if v.qrcode1.Some? {
      assert obj.fields["qrcode1"] == QrObject(v.qrcode1.value);
    } else {
      assert "qrcode1" !in obj.fields;
    }
  }

  /** The length of the leading run of `\w` characters. */
  function WordRun(s: string): (n: nat)
    ensures n <= |s|
    ensures forall i :: 0 <= i < n ==> IsWordChar(s[i])
    ensures n < |s| ==> !IsWordChar(s[n])
    decreases |s|
  {
    if |s| > 0 && IsWordChar(s[0]) then 1 + WordRun(s[1..]) else 0
  }

  /**
   * `/\{\{(\w+(?:\.\w+)?)\}\}/` anchored at the start of `s`: the captured key and the match
   * length. The word runs are maximal and the optional field needs at least one character,
   * so the pattern has at most one way to match.
   */
  function Placeholder(s: string): (m: Option<(string, nat)>)
    ensures m.Some? ==> 5 <= m.value.1 <= |s| && m.value.0 == s[2..m.value.1 - 2]
  {
    if |s| < 2 || s[0] != '{' || s[1] != '{' then None else KeyThenClose(s[2..])
  }

  /** The rest of the pattern after `{{`: the key, then `}}`; lengths count the `{{`. */
  function KeyThenClose(t: string): (m: Option<(string, nat)>)
    ensures m.Some? ==> 5 <= m.value.1 <= |t| + 2 && m.value.0 == t[..m.value.1 - 4]
  {
    var n1 := WordRun(t);
    if n1 == 0 then None
    else if n1 < |t| && t[n1] == '.' && WordRun(t[n1 + 1..]) > 0 then FieldThenClose(t, n1)
    else if OccursAt(t, "}}", n1) then Some((t[..n1], n1 + 4))
    else None
  }

  /** After `name.`: the field's word run, then `}}`. */
  function FieldThenClose(t: string, n1: nat): (m: Option<(string, nat)>)
    requires 0 < n1 < |t|
    ensures m.Some? ==> 5 <= m.value.1 <= |t| + 2 && m.value.0 == t[..m.value.1 - 4]
  {
    var n2 := WordRun(t[n1 + 1..]);
    if OccursAt(t, "}}", n1 + 1 + n2) then Some((t[..n1 + 1 + n2], n1 + n2 + 5))
    else None
  }

  /**
   * The global replace: placeholders are replaced left to right by the lookup of their key
   * split at '.', other characters copied.
   */
  function Substitute(s: string, variables: VarValue): string
    decreases |s|
  {
    if |s| == 0 then ""
    else match Placeholder(s)
      case Some((key, n)) => Text(PathValue(variables, Split(key, '.'))) + Substitute(s[n..], variables)
      case None => [s[0]] + Substitute(s[1..], variables)
  }

  /** `resolveVariable(template, variables)`; an empty template gives ''. */
  function ResolveVariable(template: string, v: SlideVariables): string
  {
    if template == "" then "" else Substitute(template, VariablesObject(v))
  }

  /** An empty template resolves to the empty string. */
  lemma ResolveEmpty(v: SlideVariables)
    ensures ResolveVariable("", v) == ""
  {
  }

  predicate BraceFree(s: string)
  {
    forall i :: 0 <= i < |s| ==> s[i] != '{'
  }

  /** A character other than `{` starts no placeholder and is copied. */
  lemma SubstituteCons(c: char, r: string, variables: VarValue)
    requires c != '{'
    ensures Substitute([c] + r, variables) == [c] + Substitute(r, variables)
  {
    var s := [c] + r;
    assert s[0] == c && s[1..] == r;
  }

  /** Text without `{` passes through unchanged, and in front of other text it is copied as is. */
  lemma {:induction false} SubstituteBraceFree(a: string, t: string, variables: VarValue)
    requires BraceFree(a)
    ensures Substitute(a + t, variables) == a + Substitute(t, variables)
    decreases |a|
  {
    if |a| > 0 {
      var r := a[1..] + t;
      ConsSplit(a, t);
      SubstituteCons(a[0], r, variables);
      SubstituteBraceFree(a[1..], t, variables);
      ConsJoin(a, Substitute(t, variables));
    } else {
      assert a + t == t;
    }
  }

  /** A template without any `{` resolves to itself. */
  lemma ResolveBraceFree(s: string, v: SlideVariables)
    requires BraceFree(s)
    ensures ResolveVariable(s, v) == s
  {
    SubstituteBraceFree(s, "", VariablesObject(v));
    assert s + "" == s;
  }

  /** `{{name}}` for a non-empty word `name` is one placeholder whose key is `name`. */
  lemma PlaceholderWord(name: string, rest: string)
    requires |name| > 0 && forall i :: 0 <= i < |name| ==> IsWordChar(name[i])
    ensures Placeholder("{{" + name + "}}" + rest) == Some((name, |name| + 4))
  {
    var s := "{{" + name + "}}" + rest;
    assert s[2..2 + |name|] == name;
    PlaceholderOnePart(s, |name|);
  }

  /** Braces, a word of `n` characters and closing braces at the start of `s` are a placeholder. */
  lemma PlaceholderOnePart(s: string, n: nat)
    requires 0 < n && n + 4 <= |s| && s[0] == '{' && s[1] == '{'
    requires forall i :: 2 <= i < 2 + n ==> IsWordChar(s[i])
    requires s[2 + n] == '}' && s[3 + n] == '}'
    ensures Placeholder(s) == Some((s[2..2 + n], n + 4))
  {
    var t := s[2..];
    WordRunExact(t, n);
    assert t[n..n + 2] == "}}";
    assert t[..n] == s[2..2 + n];
  }

  /**
   * `{{name.field}}` is one placeholder whose key is `name.field`: braces, a word of `n1`
   * characters, '.', a word of `n2` characters and closing braces at the start of `s`.
   */
  lemma PlaceholderField(s: string, n1: nat, n2: nat)
    requires 0 < n1 && 0 < n2 && n1 + n2 + 5 <= |s|
    requires s[0] == '{' && s[1] == '{' && s[2 + n1] == '.'
    requires forall i :: 2 <= i < 2 + n1 ==> IsWordChar(s[i])
    requires forall i :: 3 + n1 <= i < 3 + n1 + n2 ==> IsWordChar(s[i])
    requires s[3 + n1 + n2] == '}' && s[4 + n1 + n2] == '}'
    ensures Placeholder(s) == Some((s[2..3 + n1 + n2], n1 + n2 + 5))
  {
    var t := s[2..];
    WordRunExact(t, n1);
    WordRunExact(t[n1 + 1..], n2);
    assert t[n1 + 1 + n2..n1 + 3 + n2] == "}}";
    PlaceholderTwoParts(s, t, n1, n2);
    assert t[..n1 + 1 + n2] == s[2..3 + n1 + n2];
  }

  /** A `{{name.field}}` placeholder is replaced by the field `field` of the variable `name`. */
  lemma SubstituteField(s: string, n1: nat, n2: nat, variables: VarValue)
    requires 0 < n1 && 0 < n2 && n1 + n2 + 5 <= |s|
    requires s[0] == '{' && s[1] == '{' && s[2 + n1] == '.'
    requires forall i :: 2 <= i < 2 + n1 ==> IsWordChar(s[i])
    requires forall i :: 3 + n1 <= i < 3 + n1 + n2 ==> IsWordChar(s[i])
    requires s[3 + n1 + n2] == '}' && s[4 + n1 + n2] == '}'
    ensures Substitute(s, variables) ==
      Text(PathValue(variables, [s[2..2 + n1], s[3 + n1..3 + n1 + n2]])) + Substitute(s[n1 + n2 + 5..], variables)
  {
    PlaceholderField(s, n1, n2);
    SubstituteMatch(s, s[2..3 + n1 + n2], n1 + n2 + 5, variables);
    FieldKeySplit(s, n1, n2);
  }

  /** Where a placeholder starts, it is replaced by the lookup of its key. */
  lemma SubstituteMatch(s: string, key: string, n: nat, variables: VarValue)
    requires |s| > 0 && Placeholder(s) == Some((key, n))
    ensures Substitute(s, variables) == Text(PathValue(variables, Split(key, '.'))) + Substitute(s[n..], variables)
  {
  }

  /** The key between the braces of `{{name.field}}` splits into `name` and `field`. */
  lemma FieldKeySplit(s: string, n1: nat, n2: nat)
    requires n1 + n2 + 3 <= |s| && s[2 + n1] == '.'
    requires forall i :: 2 <= i < 2 + n1 ==> IsWordChar(s[i])
    requires forall i :: 3 + n1 <= i < 3 + n1 + n2 ==> IsWordChar(s[i])
    ensures Split(s[2..3 + n1 + n2], '.') == [s[2..2 + n1], s[3 + n1..3 + n1 + n2]]
  {
    var name, field := s[2..2 + n1], s[3 + n1..3 + n1 + n2];
    assert s[2..3 + n1 + n2] == name + "." + field;
    KeySplit(name, field);
  }

  /** A run of `n` word characters followed by a non-word character has length `n`. */
  lemma {:induction false} WordRunExact(t: string, n: nat)
    requires n < |t| && !IsWordChar(t[n])
    requires forall i :: 0 <= i < n ==> IsWordChar(t[i])
    ensures WordRun(t) == n
    decreases n
  {
    if n > 0 {
      WordRunExact(t[1..], n - 1);
    }
  }

  /** The key of a placeholder splits at '.' into the variable's name and the field. */
  lemma KeySplit(name: string, field: string)
    requires forall i :: 0 <= i < |name| ==> IsWordChar(name[i])
    requires forall i :: 0 <= i < |field| ==> IsWordChar(field[i])
    ensures Split(name, '.') == [name]
    ensures Split(name + "." + field, '.') == [name, field]
  {
    assert '.' !in name by {
      forall i | 0 <= i < |name| ensures name[i] != '.' {
        assert IsWordChar(name[i]);
      }
    }
    assert '.' !in field by {
      forall i | 0 <= i < |field| ensures field[i] != '.' {
        assert IsWordChar(field[i]);
      }
    }
    SplitFree(name, '.');
    SplitFree(field, '.');
    SplitFirst(name, field, '.');
  }

  /** `{{` followed by a word run, '.', a word run and `}}` is a placeholder with a two-part key. */
  lemma PlaceholderTwoParts(s: string, t: string, n1: nat, n2: nat)
    requires 2 <= |s| && s[0] == '{' && s[1] == '{' && s[2..] == t
    requires WordRun(t) == n1 > 0 && n1 < |t| && t[n1] == '.'
    requires WordRun(t[n1 + 1..]) == n2 > 0 && OccursAt(t, "}}", n1 + 1 + n2)
    ensures Placeholder(s) == Some((t[..n1 + 1 + n2], n1 + n2 + 5))
  {
    PlaceholderAfterBraces(s, t);
    KeyWithField(t, n1);
    FieldClosed(t, n1, n2);
  }

  lemma PlaceholderAfterBraces(s: string, t: string)
    requires 2 <= |s| && s[0] == '{' && s[1] == '{' && s[2..] == t
    ensures Placeholder(s) == KeyThenClose(t)
  {
  }

  lemma KeyWithField(t: string, n1: nat)
    requires WordRun(t) == n1 > 0 && n1 < |t| && t[n1] == '.' && WordRun(t[n1 + 1..]) > 0
    ensures KeyThenClose(t) == FieldThenClose(t, n1)
  {
  }

  lemma FieldClosed(t: string, n1: nat, n2: nat)
    requires 0 < n1 < |t| && WordRun(t[n1 + 1..]) == n2 && OccursAt(t, "}}", n1 + 1 + n2)
    ensures FieldThenClose(t, n1) == Some((t[..n1 + 1 + n2], n1 + n2 + 5))
  {
  }

  /**
   * A single placeholder between brace-free text is replaced by its lookup and nothing else
   * changes: `a{{name}}b` resolves to `a`, the text of `name`, then `b`.
   */
  lemma ResolveOne(a: string, name: string, b: string, v: SlideVariables)
    requires BraceFree(a) && BraceFree(b)
    requires |name| > 0 && forall i :: 0 <= i < |name| ==> IsWordChar(name[i])
    ensures ResolveVariable(a + "{{" + name + "}}" + b, v) ==
      a + Text(Prop(VariablesObject(v), name)) + b
  {
    var vars := VariablesObject(v);
    var p := "{{" + name + "}}" + b;
    assert a + "{{" + name + "}}" + b == a + p;
    SubstituteBraceFree(a, p, vars);
    PlaceholderWord(name, b);
    assert p[|name| + 4..] == b;
    SubstituteBraceFree(b, "", vars);
    assert b + "" == b;
    KeySplit(name, "");
    PathValueParts(v, name, "");
  }

  /** Braces around something that is not a word, such as `{{ x }}`, are copied literally. */
  lemma NotAPlaceholder(rest: string, variables: VarValue)
    requires |rest| > 0 && !IsWordChar(rest[0]) && rest[0] != '{'
    ensures Substitute("{{" + rest, variables) == "{{" + Substitute(rest, variables)
  {
    BracesCopied(rest, variables);
    BraceCopied(rest, variables);
    BracesPrefix(rest, Substitute(rest, variables));
  }

  lemma BracesCopied(rest: string, variables: VarValue)
    requires |rest| > 0 && !IsWordChar(rest[0])
    ensures Substitute("{{" + rest, variables) == "{" + Substitute("{" + rest, variables)
  {
    var s := "{{" + rest;
    assert s[0] == '{' && s[1..] == "{" + rest;
    DropPrefix("{{", rest);
    NoWordAfterBraces(s, rest);
    SubstituteCopies(s, variables);
  }

  lemma BraceCopied(rest: string, variables: VarValue)
    requires |rest| > 0 && rest[0] != '{'
    ensures Substitute("{" + rest, variables) == "{" + Substitute(rest, variables)
  {
    var s1 := "{" + rest;
    assert s1[0] == '{' && s1[1..] == rest && s1[1] == rest[0];
    SubstituteCopies(s1, variables);
  }

  lemma BracesPrefix(rest: string, x: string)
    ensures "{" + ("{" + x) == "{{" + x
  {
  }

  /** `{{` followed by a non-word character starts no placeholder. */
  lemma NoWordAfterBraces(s: string, rest: string)
    requires 2 <= |s| && s[2..] == rest && |rest| > 0 && !IsWordChar(rest[0])
    ensures Placeholder(s) == None
  {
    assert WordRun(s[2..]) == 0;
  }

  /** Where no placeholder starts, the first character is copied. */
  lemma SubstituteCopies(s: string, variables: VarValue)
    requires |s| > 0 && Placeholder(s) == None
    ensures Substitute(s, variables) == [s[0]] + Substitute(s[1..], variables)
  {
  }
}
