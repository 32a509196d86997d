/** Header transformations: how their list is read from the configuration and what it does to a
    header map (src/config/headers.rs). */
module Headers {
  import opened Wrappers

  /** The values of each header, in order, under its lower-case name: names are compared without
      regard to case (section 5.1 of RFC 9110). */
  type HeaderValues = map<string, Values>

  type Values = s: seq<string> | s != [] witness [""]

  datatype HeaderAction = Add(name: string) | Update(name: string) | Drop(name: string)

  datatype HeaderTransform = HeaderTransform(action: HeaderAction, value: Option<string>)

  function LowerChar(c: char): char {
    if 'A' <= c <= 'Z' then c - 'A' + 'a' else c
  }

  function Lower(s: string): string {
    seq(|s|, i requires 0 <= i < |s| => LowerChar(s[i]))
  }

  predicate IsLetter(c: char) {
    'a' <= c <= 'z' || 'A' <= c <= 'Z'
  }

  /** Names are one name if they differ at most in the case of ASCII letters. */
  lemma NamesMatch(s: string, t: string)
    ensures Lower(s) == Lower(t) <==>
            && |s| == |t|
            && forall i :: 0 <= i < |s| ==>
                             s[i] == t[i] || (IsLetter(s[i]) && IsLetter(t[i]) && (s[i] as int - t[i] as int) % 32 == 0)
    ensures forall i :: 0 <= i < |Lower(s)| ==> !('A' <= Lower(s)[i] <= 'Z')
  {
    if |s| == |t| {
      forall i | 0 <= i < |s|
        ensures LowerChar(s[i]) == LowerChar(t[i]) <==>
                s[i] == t[i] || (IsLetter(s[i]) && IsLetter(t[i]) && (s[i] as int - t[i] as int) % 32 == 0)
      {
        LettersMatch(s[i], t[i]);
      }
      assert forall i :: 0 <= i < |s| ==> Lower(s)[i] == LowerChar(s[i]) && Lower(t)[i] == LowerChar(t[i]);
    }
  }

  lemma LettersMatch(a: char, b: char)
    ensures LowerChar(a) == LowerChar(b) <==>
            a == b || (IsLetter(a) && IsLetter(b) && (a as int - b as int) % 32 == 0)
  {
    if 'A' <= a <= 'Z' {
      assert LowerChar(a) as int == a as int + 32;
    }
    if 'A' <= b <= 'Z' {
      assert LowerChar(b) as int == b as int + 32;
    }
  }

  /** A header name: one or more token characters (section 5.6.2 of RFC 9110). */
  predicate ValidName(s: string) {
    s != "" && forall i :: 0 <= i < |s| ==> TokenChar(s[i])
  }

  predicate TokenChar(c: char) {
    'a' <= c <= 'z' || 'A' <= c <= 'Z' || '0' <= c <= '9' || c in "!#$%&'*+-.^_`|~"
  }

  /** A text that can be made a header value: no control character but the tab (section 5.5 of RFC 9110). */
  predicate ValidValue(s: string) {
    forall i :: 0 <= i < |s| ==> s[i] == '\t' || (' ' <= s[i] && s[i] != '\U{7F}')
  }

  /** A header value that can be read as text: visible ASCII, spaces and tabs. */
  predicate IsText(s: string) {
    forall i :: 0 <= i < |s| ==> s[i] == '\t' || ' ' <= s[i] <= '~'
  }

  class HeaderMap {
    var values: HeaderValues

    constructor (values: HeaderValues)
      ensures this.values == values
    {
      this.values := values;
    }

    method Contains(name: string) returns (found: bool)
      ensures found == (Lower(name) in values)
    {
      found := Lower(name) in values;
    }

    /** All values the name had are replaced by the one given. */
    method Insert(name: string, value: string)
      modifies this
      ensures values == old(values)[Lower(name) := [value]]
    {
      values := values[Lower(name) := [value]];
    }

    method Remove(name: string)
      modifies this
      ensures values == old(values) - {Lower(name)}
    {
      values := values - {Lower(name)};
    }

    method Clear()
      modifies this
      ensures values == map[]
    {
      values := map[];
    }
  }

  /** Setting a header; it fails where the program panics: no value, an impossible name or value. */
  function SetHeader(h: HeaderValues, name: string, value: Option<string>,
                     expand: string -> string): Option<HeaderValues>
  {
    if value.Some? && ValidName(name) && ValidValue(expand(value.value)) then
      Some(h[Lower(name) := [expand(value.value)]])
    else None
  }

  function ApplyOne(t: HeaderTransform, h: HeaderValues, expand: string -> string): Option<HeaderValues> {
    match t.action
    case Add(name) => if Lower(name) in h then Some(h) else SetHeader(h, name, t.value, expand)
    case Update(name) => if Lower(name) in h then SetHeader(h, name, t.value, expand) else Some(h)
    case Drop(name) => Some(if name == "*" then map[] else h - {Lower(name)})
  }

  /** What each action does to the map: `add` only what is not there, `update` only what is, and neither
      anything else; `drop` takes out one header or all. */
  lemma ActionsMean(t: HeaderTransform, h: HeaderValues, expand: string -> string)
    requires ApplyOne(t, h, expand).Some?
    ensures var h' := ApplyOne(t, h, expand).value;
            var n := Lower(t.action.name);
            match t.action
            case Add(_) =>
              && (n in h ==> h' == h)
              && (n !in h ==> h'.Keys == h.Keys + {n} && t.value.Some? && h'[n] == [expand(t.value.value)])
              && (forall m :: m in h ==> h'[m] == h[m])
            case Update(_) =>
              && h'.Keys == h.Keys
              && (n in h ==> t.value.Some? && h'[n] == [expand(t.value.value)])
              && (forall m :: m in h && m != n ==> h'[m] == h[m])
            case Drop(name) =>
              && h'.Keys == (if name == "*" then {} else h.Keys - {n})
              && (forall m :: m in h' ==> h'[m] == h[m])
  {
  }

  /** An action panics exactly if it sets a header and has no value, or name or value are impossible. */
  lemma ActionPanics(t: HeaderTransform, h: HeaderValues, expand: string -> string)
    ensures var n := Lower(t.action.name);
            ApplyOne(t, h, expand).None? <==>
            && ((t.action.Add? && n !in h) || (t.action.Update? && n in h))
            && (t.value.None? || !ValidName(t.action.name) || !ValidValue(expand(t.value.value)))
  {
  }

  /** The effect of a transformation list, in list order; None where the program panics. */
  function ApplyAll(ts: seq<HeaderTransform>, h: HeaderValues, expand: string -> string): Option<HeaderValues> {
    if ts == [] then Some(h)
    else
      match ApplyOne(ts[0], h, expand)
      case None => None
      case Some(h') => ApplyAll(ts[1..], h', expand)
  }

  /** The interpreter: it changes the header map in place. `expand` is the expansion of context
      variables in a value. */
  method Transform(ts: seq<HeaderTransform>, headers: HeaderMap, expand: string -> string) returns (completed: bool)
    modifies headers
    ensures completed <==> ApplyAll(ts, old(headers.values), expand).Some?
    ensures completed ==> Some(headers.values) == ApplyAll(ts, old(headers.values), expand)
  {
    for i := 0 to |ts|
      invariant ApplyAll(ts[i..], headers.values, expand) == ApplyAll(ts, old(headers.values), expand)
    {
      assert ts[i..][0] == ts[i] && ts[i..][1..] == ts[i + 1..];
      match ts[i].action
      case Add(name) =>
        var found := headers.Contains(name);
        if !found {
          if ts[i].value.None? || !ValidName(name) || !ValidValue(expand(ts[i].value.value)) {
            return false;
          }
          headers.Insert(name, expand(ts[i].value.value));
        }
      case Update(name) =>
        var found := headers.Contains(name);
        if found {
          if ts[i].value.None? || !ValidName(name) || !ValidValue(expand(ts[i].value.value)) {
            return false;
          }
          headers.Insert(name, expand(ts[i].value.value));
        }
      case Drop(name) =>
        if name == "*" {
          headers.Clear();
        } else {
          headers.Remove(name);
        }
    }
    return true;
  }

  // ----- what the list does to one header -----

  /** The values of one header, given by its lower-case name. */
  function ValuesOf(h: HeaderValues, n: string): Option<seq<string>> {
    if n in h then Some(h[n]) else None
  }

  predicate Concerns(t: HeaderTransform, n: string) {
    Lower(t.action.name) == n || t.action == Drop("*")
  }

  /** The part of a list that names the header or drops everything. */
  function Concerning(ts: seq<HeaderTransform>, n: string): seq<HeaderTransform> {
    if ts == [] then []
    else (if Concerns(ts[0], n) then [ts[0]] else []) + Concerning(ts[1..], n)
  }

  /** One transformation that concerns a header, on that header alone. */
  function PlayOne(t: HeaderTransform, values: Option<seq<string>>, expand: string -> string): Option<seq<string>> {
    match t.action
    case Add(_) => if values.Some? then values else Assigned(t, expand)
    case Update(_) => if values.Some? then Assigned(t, expand) else None
    case Drop(_) => None
  }

  /** That part of a list played on the header alone. */
  function Play(ts: seq<HeaderTransform>, values: Option<seq<string>>, expand: string -> string): Option<seq<string>> {
    if ts == [] then values else Play(ts[1..], PlayOne(ts[0], values, expand), expand)
  }

  function Assigned(t: HeaderTransform, expand: string -> string): Option<seq<string>> {
    if t.value.Some? then Some([expand(t.value.value)]) else None
  }

  lemma OneStep(t: HeaderTransform, h: HeaderValues, expand: string -> string, n: string)
    requires ApplyOne(t, h, expand).Some?
    ensures ValuesOf(ApplyOne(t, h, expand).value, n) ==
            if Concerns(t, n) then PlayOne(t, ValuesOf(h, n), expand) else ValuesOf(h, n)
  {
  }

  /** The final values of a header depend on nothing but its own initial values and the part of
      the list that concerns it. */
  lemma {:induction false} HeadersAreIndependent(ts: seq<HeaderTransform>, h: HeaderValues,
                                                 expand: string -> string, n: string)
    requires ApplyAll(ts, h, expand).Some?
    ensures ValuesOf(ApplyAll(ts, h, expand).value, n) == Play(Concerning(ts, n), ValuesOf(h, n), expand)
  {
    if ts != [] {
      var h' := ApplyOne(ts[0], h, expand).value;
      HeadersAreIndependent(ts[1..], h', expand, n);
      OneStep(ts[0], h, expand, n);
      var rest := Concerning(ts[1..], n);
      assert ([ts[0]] + rest)[1..] == rest && [] + rest == rest;
    }
  }

  lemma {:induction false} ConcerningAppend(a: seq<HeaderTransform>, b: seq<HeaderTransform>, n: string)
    ensures Concerning(a + b, n) == Concerning(a, n) + Concerning(b, n)
  {
    if a == [] {
      assert a + b == b;
      assert [] + Concerning(b, n) == Concerning(b, n);
    } else {
      assert (a + b)[1..] == a[1..] + b;
      ConcerningAppend(a[1..], b, n);
      var head := if Concerns(a[0], n) then [a[0]] else [];
      assert head + (Concerning(a[1..], n) + Concerning(b, n)) == head + Concerning(a[1..], n) + Concerning(b, n);
    }
  }

  lemma {:induction false} PlayAppend(a: seq<HeaderTransform>, b: seq<HeaderTransform>, values: Option<seq<string>>,
                                      expand: string -> string)
    ensures Play(a + b, values, expand) == Play(b, Play(a, values, expand), expand)
  {
    if a == [] {
      assert a + b == b;
    } else {
      assert (a + b)[1..] == a[1..] + b;
      PlayAppend(a[1..], b, PlayOne(a[0], values, expand), expand);
    }
  }

  /** One of the two adds the header and the other updates it, with one value. */
  predicate AddAndUpdate(first: HeaderTransform, second: HeaderTransform, n: string, value: string) {
    && ((first.action.Add? && second.action.Update?) || (first.action.Update? && second.action.Add?))
    && Lower(first.action.name) == Lower(second.action.name) == n
    && first.value == second.value == Some(value)
  }

  lemma PlayPair(first: HeaderTransform, second: HeaderTransform, values: Option<seq<string>>, n: string, value: string,
                 expand: string -> string)
    requires AddAndUpdate(first, second, n, value)
    ensures Play([first, second], values, expand) == Some([expand(value)])
  {
    var after := PlayOne(first, values, expand);
    assert [first, second][1..] == [second];
    assert Play([first, second], values, expand) == Play([second], after, expand);
    assert [second][1..] == [];
    assert Play([second], after, expand) == Play([], PlayOne(second, after, expand), expand);
  }

  /** Add and update of one header with one value, in either order and with nothing else about
      that header between or after them, force the value whatever came before. */
  lemma AddAndUpdateForce(pre: seq<HeaderTransform>, first: HeaderTransform, between: seq<HeaderTransform>,
                          second: HeaderTransform, post: seq<HeaderTransform>, n: string, value: string,
                          h: HeaderValues, expand: string -> string)
    requires AddAndUpdate(first, second, n, value)
    requires Concerning(between, n) == Concerning(post, n) == []
    requires ApplyAll(pre + [first] + between + [second] + post, h, expand).Some?
    ensures ValuesOf(ApplyAll(pre + [first] + between + [second] + post, h, expand).value, n) == Some([expand(value)])
  {
    var ts := pre + [first] + between + [second] + post;
    HeadersAreIndependent(ts, h, expand, n);
    ConcerningAppend(pre + [first] + between + [second], post, n);
    ConcerningAppend(pre + [first] + between, [second], n);
    ConcerningAppend(pre + [first], between, n);
    ConcerningAppend(pre, [first], n);
    assert Concerning(ts, n) == Concerning(pre, n) + [first, second];
    PlayAppend(Concerning(pre, n), [first, second], ValuesOf(h, n), expand);
    PlayPair(first, second, Play(Concerning(pre, n), ValuesOf(h, n), expand), n, value, expand);
  }

  lemma {:induction false} ApplyAppend(a: seq<HeaderTransform>, b: seq<HeaderTransform>, h: HeaderValues,
                                       expand: string -> string)
    requires ApplyAll(a, h, expand).Some?
    ensures ApplyAll(a + b, h, expand) == ApplyAll(b, ApplyAll(a, h, expand).value, expand)
  {
    if a == [] {
      assert a + b == b;
    } else {
      assert (a + b)[1..] == a[1..] + b;
      ApplyAppend(a[1..], b, ApplyOne(a[0], h, expand).value, expand);
    }
  }

  /** After `drop "*"` nothing is left of the request's headers: the outcome is that of the rest
      of the list on an empty map. */
  lemma DropAllForgets(pre: seq<HeaderTransform>, t: HeaderTransform, post: seq<HeaderTransform>, h: HeaderValues,
                       expand: string -> string)
    requires t.action == Drop("*")
    requires ApplyAll(pre, h, expand).Some?
    ensures ApplyAll(pre + [t] + post, h, expand) == ApplyAll(post, map[], expand)
  {
    ApplyAppend(pre, [t] + post, h, expand);
    assert pre + [t] + post == pre + ([t] + post);
    assert ([t] + post)[1..] == post;
  }

  /** A transformation that can always be carried out: a value where one is used, and legal text. */
  predicate Legal(t: HeaderTransform, expand: string -> string) {
    t.action.Drop? || (t.value.Some? && ValidName(t.action.name) && ValidValue(expand(t.value.value)))
  }

  lemma {:induction false} LegalNeverPanics(ts: seq<HeaderTransform>, h: HeaderValues, expand: string -> string)
    requires forall t :: t in ts ==> Legal(t, expand)
    ensures ApplyAll(ts, h, expand).Some?
  {
    if ts != [] {
      assert ts[0] in ts;
      LegalNeverPanics(ts[1..], ApplyOne(ts[0], h, expand).value, expand);
    }
  }

  // ----- reading a transformation from its configuration object -----

  datatype Field = DropField | AddField | UpdateField | ValueField

  datatype ReadError = DuplicateField(field: Field) | MissingValue | UnexpectedValue | MissingAction

  function ActionOf(field: Field, text: string): HeaderAction
    requires !field.ValueField?
  {
    match field
    case DropField => Drop(text)
    case AddField => Add(text)
    case UpdateField => Update(text)
  }

  /** Field `i` is the only one of its kind, where all three actions are one kind. */
  predicate OnlyOfKind(fields: seq<(Field, string)>, i: nat)
    requires i < |fields|
  {
    forall j :: 0 <= j < |fields| && j != i ==> fields[j].0.ValueField? != fields[i].0.ValueField?
  }

  /** The fields say `t`: one action, and one value exactly when the action needs it. */
  ghost predicate Says(fields: seq<(Field, string)>, t: HeaderTransform) {
    && (exists i :: 0 <= i < |fields| && OnlyOfKind(fields, i)
                    && match fields[i].0
                       case AddField => t.action == Add(fields[i].1)
                       case UpdateField => t.action == Update(fields[i].1)
                       case DropField => t.action == Drop(fields[i].1)
                       case ValueField => false)
    && (match t.value
        case None => forall i :: 0 <= i < |fields| ==> !fields[i].0.ValueField?
        case Some(text) =>
          exists i :: 0 <= i < |fields| && OnlyOfKind(fields, i) && fields[i].0.ValueField? && text == fields[i].1)
    && (t.value.Some? <==> !t.action.Drop?)
  }

  /** Reading the fields in the order given. Whatever is accepted carries the value the
      interpreter will use; whatever is a transformation is accepted. */
  method VisitMap(fields: seq<(Field, string)>) returns (r: Result<HeaderTransform, ReadError>)
    ensures r.Success? ==> Says(fields, r.value)
    ensures r.Failure? ==> forall t :: !Says(fields, t)
    ensures r.Success? ==> (r.value.value.Some? <==> !r.value.action.Drop?)
  {
    var action: Option<HeaderAction> := None;
    var value: Option<string> := None;
    ghost var a, v: nat := 0, 0;
    for i := 0 to |fields|
      invariant action.None? ==> forall j :: 0 <= j < i ==> fields[j].0.ValueField?
      invariant action.Some? ==>
          && a < i && !fields[a].0.ValueField? && action.value == ActionOf(fields[a].0, fields[a].1)
          && forall j :: 0 <= j < i && j != a ==> fields[j].0.ValueField?
      invariant value.None? ==> forall j :: 0 <= j < i ==> !fields[j].0.ValueField?
      invariant value.Some? ==>
          && v < i && fields[v].0.ValueField? && value.value == fields[v].1
          && forall j :: 0 <= j < i && j != v ==> !fields[j].0.ValueField?
    {
      var (field, text) := fields[i];
      match field
      case ValueField =>
        if value.Some? {
          return Failure(DuplicateField(field));
        }
        value, v := Some(text), i;
      case _ =>
        if action.Some? {
          return Failure(DuplicateField(field));
        }
        action, a := Some(ActionOf(field, text)), i;
    }
    if action.None? {
      return Failure(MissingAction);
    }
    match action.value {
      case Drop(_) =>
        if value.Some? {
          return Failure(UnexpectedValue);
        }
      case _ =>
        if value.None? {
          return Failure(MissingValue);
        }
    }
    assert OnlyOfKind(fields, a);
    assert value.Some? ==> OnlyOfKind(fields, v);
    return Success(HeaderTransform(action.value, value));
  }

  /** What the fields say is unambiguous. */
  lemma SaysOne(fields: seq<(Field, string)>, t: HeaderTransform, u: HeaderTransform)
    requires Says(fields, t) && Says(fields, u)
    ensures t == u
  {
  }
}
