/** Python's `template.format(**params)` restricted to keyword replacement fields
    `{name}` and the escapes `{{` and `}}`: the only kind of field the templates of
    this system use and the only kind of argument their callers pass. */
module Formatting {
  import opened Wrappers
  import opened Text

  /** Why `format` raises. */
  datatype FormatError =
    | SingleBrace                     // ValueError: a single '{' at the end, or a single '}'
    | UnclosedField                   // ValueError: expected '}' before end of string
    | BraceInField                    // ValueError: a '{' inside a replacement field
    | PositionalField(name: string)   // IndexError: `{}` or `{0}`, but no positional arguments are given
    | UnsupportedField(name: string)  // a conversion, format spec, attribute or index (not modelled)
    | MissingKey(name: string)        // KeyError: no keyword argument of that name

  /** The keyword arguments of the call. */
  type Params = map<string, string>

  function Prepend(s: string, r: Result<string, FormatError>): Result<string, FormatError>
  {
    match r
    case Success(v) => Success(s + v)
    case Failure(e) => Failure(e)
  }

  lemma PrependPrepend(a: string, b: string, r: Result<string, FormatError>)
    ensures Prepend(a, Prepend(b, r)) == Prepend(a + b, r)
  {
    if r.Success? {
      assert a + (b + r.value) == (a + b) + r.value;
    }
  }

  /** Length of the text before the first brace of `t`. */
  function NameLength(t: string): (n: nat)
    ensures n <= |t|
    ensures forall i :: 0 <= i < n ==> t[i] != '{' && t[i] != '}'
    ensures n < |t| ==> t[n] == '{' || t[n] == '}'
  {
    if t == [] || t[0] == '{' || t[0] == '}' then 0 else 1 + NameLength(t[1..])
  }

  predicate IsFieldSyntax(c: char)
  {
    c == '.' || c == '[' || c == ':' || c == '!'
  }

  /** The argument name of a field: what precedes its first `.`, `[`, `:` or `!`. */
  function ArgName(name: string): (head: string)
    ensures |head| <= |name| && head == name[..|head|]
    ensures forall i :: 0 <= i < |head| ==> !IsFieldSyntax(name[i])
    ensures |head| < |name| ==> IsFieldSyntax(name[|head|])
  {
    if name == [] || IsFieldSyntax(name[0]) then [] else [name[0]] + ArgName(name[1..])
  }

  predicate AllDigits(s: string)
  {
    forall i :: 0 <= i < |s| ==> IsDigit(s[i])
  }

  /** The value of the replacement field `{name}`. */
  function Lookup(name: string, params: Params): Result<string, FormatError>
  {
    var arg := ArgName(name);
    if arg == "" || AllDigits(arg) then Failure(PositionalField(name))
    else if arg !in params then Failure(MissingKey(arg))
    else if arg != name then Failure(UnsupportedField(name))
    else Success(params[arg])
  }

  /** `t.format(**params)`, scanning from left to right and raising at the first fault. */
  function Format(t: string, params: Params): Result<string, FormatError>
    decreases |t|
  {
    if t == [] then Success("")
    else if t[0] == '{' then
      if |t| >= 2 && t[1] == '{' then Prepend("{", Format(t[2..], params))
      else if |t| == 1 then Failure(SingleBrace)
      else
        var n := NameLength(t[1..]);
        if 1 + n == |t| then Failure(UnclosedField)
        else if t[1 + n] == '{' then Failure(BraceInField)
        else
          match Lookup(t[1..1 + n], params)
          case Failure(e) => Failure(e)
          case Success(v) => Prepend(v, Format(t[2 + n..], params))
    else if t[0] == '}' then
      if |t| >= 2 && t[1] == '}' then Prepend("}", Format(t[2..], params)) else Failure(SingleBrace)
    else Prepend([t[0]], Format(t[1..], params))
  }

  /** A template in parsed form: literal text and keyword fields. */
  datatype Piece = Literal(text: string) | Field(name: string)

  /** A field name that `format` looks up as a keyword argument and nothing else. */
  predicate SimpleName(name: string)
  {
    && name != ""
    && !AllDigits(name)
    && forall i :: 0 <= i < |name| ==> name[i] != '{' && name[i] != '}' && !IsFieldSyntax(name[i])
  }

  predicate SimplePieces(ps: seq<Piece>)
  {
    forall i :: 0 <= i < |ps| && ps[i].Field? ==> SimpleName(ps[i].name)
  }

  /** Literal text written inside a template: every brace doubled. */
  function Escape(s: string): (r: string)
    ensures |r| >= |s|
  {
    if s == [] then []
    else (if s[0] == '{' || s[0] == '}' then [s[0], s[0]] else [s[0]]) + Escape(s[1..])
  }

  /** The template string of a parsed template. */
  function Render(ps: seq<Piece>): string
  {
    if ps == [] then ""
    else
      match ps[0]
      case Literal(s) => Escape(s) + Render(ps[1..])
      case Field(name) => "{" + name + "}" + Render(ps[1..])
  }

  /** The names of the fields of a parsed template. */
  function FieldNames(ps: seq<Piece>): set<string>
  {
    if ps == [] then {}
    else (if ps[0].Field? then {ps[0].name} else {}) + FieldNames(ps[1..])
  }

  /** Filling in a parsed template, leftmost missing argument first. */
  function Substitute(ps: seq<Piece>, params: Params): Result<string, FormatError>
  {
    if ps == [] then Success("")
    else
      match ps[0]
      case Literal(s) => Prepend(s, Substitute(ps[1..], params))
      case Field(name) =>
        if name in params then Prepend(params[name], Substitute(ps[1..], params))
        else Failure(MissingKey(name))
  }

  /** Substitution succeeds exactly when every field has an argument. */
  lemma {:induction false} SubstituteSucceeds(ps: seq<Piece>, params: Params)
    ensures Substitute(ps, params).Success? <==> FieldNames(ps) <= params.Keys
  {
    if ps != [] {
      SubstituteSucceeds(ps[1..], params);
    }
  }

  lemma FormatDoubledBrace(c: char, tail: string, params: Params)
    requires c == '{' || c == '}'
    ensures Format([c, c] + tail, params) == Prepend([c], Format(tail, params))
  {
    var t := [c, c] + tail;
    assert t[2..] == tail;
  }

  lemma FormatOrdinaryChar(c: char, tail: string, params: Params)
    requires c != '{' && c != '}'
    ensures Format([c] + tail, params) == Prepend([c], Format(tail, params))
  {
    var t := [c] + tail;
    assert t[1..] == tail;
  }

  /** One character of literal text, written with its brace doubled. */
  lemma FormatEscapedChar(c: char, tail: string, params: Params)
    ensures Format(Escape([c]) + tail, params) == Prepend([c], Format(tail, params))
  {
    if c == '{' || c == '}' {
      assert Escape([c]) == [c, c] + Escape([]);
      FormatDoubledBrace(c, tail, params);
    } else {
      assert Escape([c]) == [c] + Escape([]);
      FormatOrdinaryChar(c, tail, params);
    }
  }

  lemma {:induction false} FormatEscape(s: string, rest: string, params: Params)
    ensures Format(Escape(s) + rest, params) == Prepend(s, Format(rest, params))
    decreases |s|
  {
    if s == [] {
      assert Escape(s) + rest == rest;
      match Format(rest, params)
      case Success(v) => assert s + v == v;
      case Failure(_) =>
    } else {
      var tail := Escape(s[1..]) + rest;
      FormatEscape(s[1..], rest, params);
      assert Escape(s) == Escape([s[0]]) + Escape(s[1..]);
      assert Escape(s) + rest == Escape([s[0]]) + tail;
      FormatEscapedChar(s[0], tail, params);
      PrependPrepend([s[0]], s[1..], Format(rest, params));
      assert [s[0]] + s[1..] == s;
    }
  }

  lemma FormatField(name: string, rest: string, params: Params)
    requires SimpleName(name)
    ensures Format("{" + name + "}" + rest, params)
         == if name in params then Prepend(params[name], Format(rest, params)) else Failure(MissingKey(name))
  {
    var t := "{" + name + "}" + rest;
    assert t[1..] == name + "}" + rest;
    var n := NameLength(t[1..]);
    assert t[1 + |name|] == '}';
    assert n == |name|;
    assert t[1..1 + n] == name;
    assert t[2 + n..] == rest;
    var arg := ArgName(name);
    assert arg == name;
  }

  /** Formatting a rendered template substitutes its fields: `format` parses the
      template back into its pieces. */
  lemma {:induction false} FormatRender(ps: seq<Piece>, params: Params)
    requires SimplePieces(ps)
    ensures Format(Render(ps), params) == Substitute(ps, params)
  {
    if ps != [] {
      assert SimplePieces(ps[1..]) by {
        forall i | 0 <= i < |ps[1..]| && ps[1..][i].Field? ensures SimpleName(ps[1..][i].name) {
          assert ps[1..][i] == ps[i + 1];
        }
      }
      FormatRender(ps[1..], params);
      match ps[0]
      case Literal(s) =>
        FormatEscape(s, Render(ps[1..]), params);
      case Field(name) =>
        assert SimpleName(ps[0].name);
        FormatField(name, Render(ps[1..]), params);
    }
  }

  /** Literal text round-trips: formatting its escaped form gives it back, whatever
      the arguments. */
  lemma FormatEscaped(s: string, params: Params)
    ensures Format(Escape(s), params) == Success(s)
  {
    FormatEscape(s, "", params);
    assert Escape(s) + "" == Escape(s);
    assert s + "" == s;
  }
}
