/** Rendering JSON templates and looking values up by path (template_engine.py). Python's
    None is JSON's null. How a value is printed by str() and how a string is read by int()
    are parameters. */
module Template {
  import opened Prelude

  /** Objects keep their insertion order; their keys are distinct. */
  datatype Json = Null | Bool(b: bool) | Number(n: real) | Text(s: string) | Arr(items: seq<Json>) | Obj(fields: seq<Field>)
  datatype Field = Field(key: string, value: Json)

  datatype Error = KeyError | IndexError | ValueError
  datatype Result = Ok(value: Json) | Err(error: Error)

  // ----- strings -----

  const OPENING := "{{"
  const CLOSING := "}}"

  predicate StartsWith(s: string, p: string) {
    |p| <= |s| && s[..|p|] == p
  }

  predicate EndsWith(s: string, p: string) {
    |p| <= |s| && s[|s| - |p|..] == p
  }

  /** str.count: occurrences that do not overlap, from the left. */
  function Count(s: string, p: string): nat
    requires p != []
  {
    if |s| < |p| then 0
    else if StartsWith(s, p) then 1 + Count(s[|p|..], p)
    else Count(s[1..], p)
  }

  /** str.replace: every occurrence that does not overlap an earlier one. */
  function Replace(s: string, p: string, to: string): string
    requires p != []
  {
    if |s| < |p| then s
    else if StartsWith(s, p) then to + Replace(s[|p|..], p, to)
    else [s[0]] + Replace(s[1..], p, to)
  }

  predicate IsSpace(c: char) {
    || '\t' <= c <= '\r' || '\U{1c}' <= c <= ' ' || c == '\U{85}' || c == '\U{a0}' || c == '\U{1680}'
    || '\U{2000}' <= c <= '\U{200a}' || c == '\U{2028}' || c == '\U{2029}' || c == '\U{202f}'
    || c == '\U{205f}' || c == '\U{3000}'
  }

  function StripLeft(s: string): string {
    if s != [] && IsSpace(s[0]) then StripLeft(s[1..]) else s
  }

  function StripRight(s: string): string {
    if s != [] && IsSpace(s[|s| - 1]) then StripRight(s[..|s| - 1]) else s
  }

  function Strip(s: string): string {
    StripRight(StripLeft(s))
  }

  /** str.split("."): never empty. */
  function Split(s: string): (parts: seq<string>)
    ensures parts != []
  {
    if s == [] then [[]]
    else if s[0] == '.' then [[]] + Split(s[1..])
    else
      var rest := Split(s[1..]);
      [[s[0]] + rest[0]] + rest[1..]
  }

  // ----- template_value -----

  function Get(fields: seq<Field>, key: string): Option<Json> {
    if fields == [] then None
    else if fields[0].key == key then Some(fields[0].value)
    else Get(fields[1..], key)
  }

  function Follow(current: Json, parts: seq<string>): Json
    decreases |parts|
  {
    if parts == [] then current
    else if current.Obj? && Get(current.fields, parts[0]).Some? then Follow(Get(current.fields, parts[0]).value, parts[1..])
    else Null
  }

  function TemplateValue(key: string, variables: seq<Field>): Json {
    Follow(Obj(variables), Split(key))
  }

  method TemplateValueLoop(key: string, variables: seq<Field>) returns (current: Json)
    ensures current == TemplateValue(key, variables)
  {
    current := Obj(variables);
    var parts := Split(key);
    for k := 0 to |parts|
      invariant Follow(current, parts[k..]) == TemplateValue(key, variables)
    {
      assert parts[k..][1..] == parts[k + 1..];
      if current.Obj? && Get(current.fields, parts[k]).Some? {
        current := Get(current.fields, parts[k]).value;
      } else {
        return Null;
      }
    }
  }

  // ----- render -----

  predicate IsPlaceholder(s: string) {
    StartsWith(s, OPENING) && EndsWith(s, CLOSING) && Count(s, OPENING) == 1
  }

  /** node[2:-2].strip(); a slice whose ends cross is empty. */
  function KeyOf(s: string): string
    requires |s| >= 2
  {
    Strip(if |s| < 4 then [] else s[2..|s| - 2])
  }

  function Marker(key: string): string {
    OPENING + key + CLOSING
  }

  /** The variables are replaced one after another, so what one inserts the next may replace. */
  function Substitute(s: string, variables: seq<Field>, show: Json -> string): string
    decreases |variables|
  {
    if variables == [] then s
    else Substitute(Replace(s, Marker(variables[0].key), show(variables[0].value)), variables[1..], show)
  }

  function RenderText(s: string, variables: seq<Field>, show: Json -> string): Json {
    if IsPlaceholder(s) then
      var value := TemplateValue(KeyOf(s), variables);
      if value != Null then value else Text(s)
    else Text(Substitute(s, variables, show))
  }

  function Render(node: Json, variables: seq<Field>, show: Json -> string): Json
    decreases node
  {
    match node
    case Obj(fields) =>
      Obj(seq(|fields|, i requires 0 <= i < |fields| => Field(fields[i].key, Render(fields[i].value, variables, show))))
    case Arr(items) => Arr(seq(|items|, i requires 0 <= i < |items| => Render(items[i], variables, show)))
    case Text(s) => RenderText(s, variables, show)
    case _ => node
  }

  method SubstituteLoop(s: string, variables: seq<Field>, show: Json -> string) returns (value: string)
    ensures value == Substitute(s, variables, show)
  {
    value := s;
    for k := 0 to |variables|
      invariant Substitute(value, variables[k..], show) == Substitute(s, variables, show)
    {
      assert variables[k..][1..] == variables[k + 1..];
      value := Replace(value, Marker(variables[k].key), show(variables[k].value));
    }
  }

  // ----- json_path -----

  /** list[index]: a negative index counts from the end. */
  function At(items: seq<Json>, index: Option<int>): Result {
    if index.None? then Err(ValueError)
    else if 0 <= index.value < |items| then Ok(items[index.value])
    else if -|items| <= index.value < 0 then Ok(items[|items| + index.value])
    else Err(IndexError)
  }

  function Child(current: Json, part: string, parse: string -> Option<int>): Result {
    match current
    case Arr(items) => At(items, parse(part))
    case Obj(fields) => if Get(fields, part).Some? then Ok(Get(fields, part).value) else Err(KeyError)
    case _ => Err(KeyError)
  }

  function Walk(current: Json, parts: seq<string>, parse: string -> Option<int>): Result
    decreases |parts|
  {
    if parts == [] then Ok(current)
    else
      var child := Child(current, parts[0], parse);
      if child.Err? then child else Walk(child.value, parts[1..], parse)
  }

  function PartsOf(path: Option<string>): seq<string> {
    if path == None || path.value == [] then [] else Split(path.value)
  }

  function JsonPath(value: Json, path: Option<string>, parse: string -> Option<int>): Result {
    Walk(value, PartsOf(path), parse)
  }

  method JsonPathLoop(value: Json, path: Option<string>, parse: string -> Option<int>) returns (r: Result)
    ensures r == JsonPath(value, path, parse)
  {
    if path == None || path.value == [] { return Ok(value); }
    var current := value;
    var parts := Split(path.value);
    for k := 0 to |parts|
      invariant Walk(current, parts[k..], parse) == JsonPath(value, path, parse)
    {
      assert parts[k..][1..] == parts[k + 1..];
      match current
      case Arr(items) =>
        var item := At(items, parse(parts[k]));
        if item.Err? { return item; }
        current := item.value;
      case Obj(fields) =>
        if Get(fields, parts[k]).None? { return Err(KeyError); }
        current := Get(fields, parts[k]).value;
      case _ => return Err(KeyError);
    }
    r := Ok(current);
  }

  // ----- rendering commutes with path lookup -----

  datatype Descent = Reached(node: Json, rest: seq<string>) | Lost(error: Error)

  /** Follows the path through the template's own objects and lists, as far as they go: to its
      end, or to a leaf with some of the path left. */
  function Descend(node: Json, parts: seq<string>, parse: string -> Option<int>): (d: Descent)
    ensures d.Reached? && d.rest != [] ==> !d.node.Arr? && !d.node.Obj?
    decreases |parts|
  {
    if parts == [] || !(node.Arr? || node.Obj?) then Reached(node, parts)
    else
      var child := Child(node, parts[0], parse);
      if child.Err? then Lost(child.error) else Descend(child.value, parts[1..], parse)
  }

  lemma {:induction false} GetRendered(fields: seq<Field>, key: string, variables: seq<Field>, show: Json -> string)
    ensures var rendered := Render(Obj(fields), variables, show).fields;
            Get(rendered, key) == if Get(fields, key).Some? then Some(Render(Get(fields, key).value, variables, show)) else None
    decreases |fields|
  {
    if fields != [] {
      GetRendered(fields[1..], key, variables, show);
      var rendered := Render(Obj(fields), variables, show).fields;
      assert rendered[1..] == Render(Obj(fields[1..]), variables, show).fields;
    }
  }

  lemma ChildRendered(node: Json, part: string, variables: seq<Field>, show: Json -> string, parse: string -> Option<int>)
    requires node.Arr? || node.Obj?
    ensures var child := Child(node, part, parse);
            Child(Render(node, variables, show), part, parse)
            == if child.Ok? then Ok(Render(child.value, variables, show)) else child
  {
    if node.Obj? {
      GetRendered(node.fields, part, variables, show);
    }
  }

  /** Looking a path up in a rendered template is rendering what the path reaches in the
      template itself, and going on from there with what is left of the path. */
  lemma {:induction false} LookupInRendered(
    node: Json, parts: seq<string>, variables: seq<Field>, show: Json -> string, parse: string -> Option<int>)
    ensures Walk(Render(node, variables, show), parts, parse)
            == match Descend(node, parts, parse)
               case Lost(e) => Err(e)
               case Reached(leaf, rest) => Walk(Render(leaf, variables, show), rest, parse)
    decreases |parts|
  {
    if parts != [] && (node.Arr? || node.Obj?) {
      ChildRendered(node, parts[0], variables, show, parse);
      var child := Child(node, parts[0], parse);
      if child.Ok? { LookupInRendered(child.value, parts[1..], variables, show, parse); }
    }
  }

  lemma {:induction false} LookupInTemplate(node: Json, parts: seq<string>, parse: string -> Option<int>)
    ensures Walk(node, parts, parse)
            == match Descend(node, parts, parse)
               case Lost(e) => Err(e)
               case Reached(leaf, rest) => if rest == [] then Ok(leaf) else Err(KeyError)
    decreases |parts|
  {
    if parts != [] && (node.Arr? || node.Obj?) {
      var child := Child(node, parts[0], parse);
      if child.Ok? { LookupInTemplate(child.value, parts[1..], parse); }
    }
  }

  /** Rendering commutes with path lookup, errors included, unless the path runs past a string
      of the template; then it goes on inside whatever that string was rendered to. */
  lemma RenderCommutes(node: Json, path: Option<string>, variables: seq<Field>, show: Json -> string, parse: string -> Option<int>)
    ensures var reached := Descend(node, PartsOf(path), parse);
            var inTemplate := JsonPath(node, path, parse);
            JsonPath(Render(node, variables, show), path, parse)
            == if reached.Reached? && reached.node.Text? && reached.rest != []
               then Walk(RenderText(reached.node.s, variables, show), reached.rest, parse)
               else if inTemplate.Ok? then Ok(Render(inTemplate.value, variables, show))
               else inTemplate
  {
    LookupInRendered(node, PartsOf(path), variables, show, parse);
    LookupInTemplate(node, PartsOf(path), parse);
  }

  // ----- what rendering keeps -----

  /** Same keys in the same order and the same lengths at every level, and the same leaves
      except where the template has a string. */
  ghost predicate SameShape(a: Json, b: Json)
    decreases a
  {
    match a
    case Text(_) => true
    case Arr(items) => b.Arr? && |b.items| == |items| && forall i :: 0 <= i < |items| ==> SameShape(items[i], b.items[i])
    case Obj(fields) =>
      b.Obj? && |b.fields| == |fields|
      && forall i :: 0 <= i < |fields| ==> b.fields[i].key == fields[i].key && SameShape(fields[i].value, b.fields[i].value)
    case _ => a == b
  }

  lemma {:induction false} RenderKeepsShape(node: Json, variables: seq<Field>, show: Json -> string)
    ensures SameShape(node, Render(node, variables, show))
    decreases node
  {
    match node
    case Obj(fields) =>
      forall i | 0 <= i < |fields| ensures SameShape(fields[i].value, Render(fields[i].value, variables, show)) {
        RenderKeepsShape(fields[i].value, variables, show);
      }
    case Arr(items) =>
      forall i | 0 <= i < |items| ensures SameShape(items[i], Render(items[i], variables, show)) {
        RenderKeepsShape(items[i], variables, show);
      }
    case _ =>
  }

  predicate Contains(s: string, p: string) {
    StartsWith(s, p) || (s != [] && Contains(s[1..], p))
  }

  ghost predicate Plain(node: Json)
    decreases node
  {
    match node
    case Text(s) => !Contains(s, OPENING)
    case Arr(items) => forall i :: 0 <= i < |items| ==> Plain(items[i])
    case Obj(fields) => forall i :: 0 <= i < |fields| ==> Plain(fields[i].value)
    case _ => true
  }

  /** Python's white space, by code point. */
  lemma WhiteSpaceIs(c: char)
    ensures var n := c as int;
            IsSpace(c) <==>
              || 9 <= n < 14 || 28 <= n < 33 || n in {133, 160, 5760} || 8192 <= n < 8203 || n in {8232, 8233, 8239, 8287, 12288}
  {
  }

  predicate IsAt(s: string, p: string, k: nat) {
    k + |p| <= |s| && s[k..k + |p|] == p
  }

  /** The first occurrence is the one replaced and counted, and what follows it is done in the
      same way; with NothingToReplace that says what becomes of every text. */
  lemma {:induction false} FirstIsReplaced(before: string, p: string, after: string, to: string)
    requires p != [] && forall k :: 0 <= k < |before| ==> !IsAt(before + p + after, p, k)
    ensures Replace(before + p + after, p, to) == before + to + Replace(after, p, to)
    ensures Count(before + p + after, p) == 1 + Count(after, p)
    decreases |before|
  {
    var s := before + p + after;
    if before == [] {
      assert s[..|p|] == p && s[|p|..] == after;
    } else {
      assert !IsAt(s, p, 0);
      assert s[1..] == before[1..] + p + after;
      forall k | 0 <= k < |before| - 1 ensures !IsAt(before[1..] + p + after, p, k) {
        assert !IsAt(s, p, k + 1);
        assert k + 1 + |p| <= |s| ==> s[k + 1..k + 1 + |p|] == s[1..][k..k + |p|];
      }
      FirstIsReplaced(before[1..], p, after, to);
      assert [s[0]] + (before[1..] + to + Replace(after, p, to)) == before + to + Replace(after, p, to);
    }
  }

  /** A list index from the front or, negative, from the end; beyond either end is an index
      error, and what is no number at all a value error. */
  lemma IndexSelects(items: seq<Json>, index: Option<int>)
    ensures index == None ==> At(items, index) == Err(ValueError)
    ensures index != None ==>
              var n := index.value;
              && (At(items, index).Ok? <==> -|items| <= n <= |items| - 1)
              && (At(items, index).Err? ==> At(items, index) == Err(IndexError))
              && (0 <= n <= |items| - 1 ==> At(items, index) == Ok(items[n]))
              && (-|items| <= n <= -1 ==> At(items, index) == Ok(items[|items| + n]))
  {
  }

  lemma {:induction false} NothingToReplace(s: string, p: string, to: string)
    requires |p| >= 2 && !Contains(s, p[..2])
    ensures Replace(s, p, to) == s
    decreases |s|
  {
    if |s| >= |p| {
      assert s[..2] == s[..|p|][..2];
      NothingToReplace(s[1..], p, to);
    }
  }

  lemma {:induction false} NothingToSubstitute(s: string, variables: seq<Field>, show: Json -> string)
    requires !Contains(s, OPENING)
    ensures Substitute(s, variables, show) == s
    decreases |variables|
  {
    if variables != [] {
      var marker := Marker(variables[0].key);
      assert marker[..2] == OPENING;
      NothingToReplace(s, marker, show(variables[0].value));
      NothingToSubstitute(s, variables[1..], show);
    }
  }

  /** A template without placeholders renders to itself. */
  lemma {:induction false} PlainIsUnchanged(node: Json, variables: seq<Field>, show: Json -> string)
    requires Plain(node)
    ensures Render(node, variables, show) == node
    decreases node
  {
    match node
    case Obj(fields) =>
      forall i | 0 <= i < |fields| ensures Render(fields[i].value, variables, show) == fields[i].value {
        PlainIsUnchanged(fields[i].value, variables, show);
      }
      assert Render(node, variables, show).fields == fields;
    case Arr(items) =>
      forall i | 0 <= i < |items| ensures Render(items[i], variables, show) == items[i] {
        PlainIsUnchanged(items[i], variables, show);
      }
      assert Render(node, variables, show).items == items;
    case Text(s) =>
      NothingToSubstitute(s, variables, show);
    case _ =>
  }

  // ----- placeholders -----

  lemma {:induction false} NoMoreOpenings(s: string)
    requires '{' !in s
    ensures Count(s, OPENING) == 0
    decreases |s|
  {
    if |s| >= 2 {
      assert s[..2][0] == s[0];
      NoMoreOpenings(s[1..]);
    }
  }

  lemma {:induction false} StripLeftDrops(pad: string, s: string)
    requires (forall i :: 0 <= i < |pad| ==> IsSpace(pad[i])) && s != [] && !IsSpace(s[0])
    ensures StripLeft(pad + s) == s
    decreases |pad|
  {
    if pad == [] {
      assert pad + s == s;
    } else {
      assert (pad + s)[1..] == pad[1..] + s;
      StripLeftDrops(pad[1..], s);
    }
  }

  lemma {:induction false} StripRightDrops(s: string, pad: string)
    requires (forall i :: 0 <= i < |pad| ==> IsSpace(pad[i])) && s != [] && !IsSpace(s[|s| - 1])
    ensures StripRight(s + pad) == s
    decreases |pad|
  {
    if pad == [] {
      assert s + pad == s;
    } else {
      assert (s + pad)[..|s + pad| - 1] == s + pad[..|pad| - 1];
      StripRightDrops(s, pad[..|pad| - 1]);
    }
  }

  /** Text that is not exactly one placeholder from end to end has its variables replaced, and
      stays text. */
  lemma OtherTextIsSubstituted(s: string, variables: seq<Field>, show: Json -> string)
    requires |s| < 2 || s[..2] != "{{" || s[|s| - 2..] != "}}" || Count(s, "{{") != 1
    ensures Render(Text(s), variables, show) == Text(Substitute(s, variables, show))
  {
  }

  lemma MarkerIsPlaceholder(inner: string)
    requires '{' !in inner
    ensures IsPlaceholder(Marker(inner)) && KeyOf(Marker(inner)) == Strip(inner)
  {
    var s := Marker(inner);
    assert s[2..] == inner + CLOSING;
    NoMoreOpenings(inner + CLOSING);
    assert s[..2] == OPENING && s[|s| - 2..] == CLOSING;
    assert s[2..|s| - 2] == inner;
  }

  lemma PaddingIsStripped(left: string, key: string, right: string)
    requires forall i :: 0 <= i < |left| ==> IsSpace(left[i])
    requires forall i :: 0 <= i < |right| ==> IsSpace(right[i])
    requires key != [] && !IsSpace(key[0]) && !IsSpace(key[|key| - 1])
    ensures Strip(left + key + right) == key
  {
    assert left + key + right == left + (key + right);
    StripLeftDrops(left, key + right);
    StripRightDrops(key, right);
  }

  /** A string that is one whole placeholder, however padded, renders to the variable's value
      itself, not to its text; only when there is no such value does it stay as it is. */
  lemma PlaceholderGivesTheValue(left: string, key: string, right: string, variables: seq<Field>, show: Json -> string)
    requires forall i :: 0 <= i < |left| ==> IsSpace(left[i])
    requires forall i :: 0 <= i < |right| ==> IsSpace(right[i])
    requires key != [] && '{' !in key && !IsSpace(key[0]) && !IsSpace(key[|key| - 1])
    ensures var s := Marker(left + key + right);
            var value := TemplateValue(key, variables);
            Render(Text(s), variables, show) == if value == Null then Text(s) else value
  {
    forall i | 0 <= i < |left| ensures left[i] != '{' { assert IsSpace(left[i]); }
    forall i | 0 <= i < |right| ensures right[i] != '{' { assert IsSpace(right[i]); }
    MarkerIsPlaceholder(left + key + right);
    PaddingIsStripped(left, key, right);
  }
}
