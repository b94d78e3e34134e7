/**
 * The placeholder substitution worker commands go through
 * (`command.format(**context)` in TentaclePreview/tentacle.py): `{name}`
 * is replaced by the context value of that name, `{{` and `}}` stand for
 * single braces, and anything else is copied. A field whose name is not in
 * the context is a KeyError; an empty or numeric field asks for a
 * positional argument, of which there are none, so it is an IndexError; an
 * unmatched brace is a ValueError. Fields with attribute or index access, a
 * conversion or a format spec are not modelled and give `Unsupported`.
 */
module CommandTemplate {
  import opened Wrappers

  datatype FormatError =
    | MissingKey(key: string) // KeyError
    | MissingIndex            // IndexError: a positional field
    | Malformed               // ValueError: an unmatched brace
    | Unsupported             // a field with `.`, `[`, `]`, `!`, `:` or a nested `{`

  /** A field without attribute or index access, conversion, format spec or nested brace. */
  predicate SimpleField(f: string) {
    forall i :: 0 <= i < |f| ==> f[i] != '.' && f[i] != '[' && f[i] != ']' && f[i] != '!' && f[i] != ':' && f[i] != '{'
  }

  /** Every character is an ASCII digit; true of the empty field, which is auto-numbered. */
  predicate AllDigits(f: string) {
    forall i :: 0 <= i < |f| ==> '0' <= f[i] <= '9'
  }

  /** A field that names a keyword argument. */
  predicate PlainKey(key: string) {
    NoBraces(key) && SimpleField(key) && !AllDigits(key)
  }

  /** Neither brace occurs in `s`. */
  predicate NoBraces(s: string) {
    forall i :: 0 <= i < |s| ==> s[i] != '{' && s[i] != '}'
  }

  /** The first `}` at or after `from`. */
  function CloseBrace(t: string, from: nat): (k: Option<nat>)
    requires from <= |t|
    ensures k.Some? ==> from <= k.value < |t| && t[k.value] == '}'
    ensures k.Some? ==> forall i :: from <= i < k.value ==> t[i] != '}'
    ensures k.None? ==> forall i :: from <= i < |t| ==> t[i] != '}'
    decreases |t| - from
  {
    if from == |t| then None
    else if t[from] == '}' then Some(from)
    else CloseBrace(t, from + 1)
  }

  function Prepend(s: string, r: Result<string, FormatError>): Result<string, FormatError> {
    match r
    case Success(v) => Success(s + v)
    case Failure(e) => Failure(e)
  }

  /**
   * `t.format(**context)`, left to right; the first bad field decides the
   * error, and a KeyError always names a keyword field the context lacks.
   */
  function Render(t: string, context: map<string, string>): (r: Result<string, FormatError>)
    ensures r.Failure? && r.error.MissingKey? ==> PlainKey(r.error.key) && r.error.key !in context
    decreases |t|
  {
    if t == [] then Success("")
    else if t[0] == '{' then
      if |t| >= 2 && t[1] == '{' then Prepend("{", Render(t[2..], context))
      else match CloseBrace(t, 1)
        case None => Failure(Malformed)
        case Some(j) =>
          var key := t[1..j];
          if !SimpleField(key) then Failure(Unsupported)
          else if AllDigits(key) then Failure(MissingIndex)
          else if key in context then Prepend(context[key], Render(t[j + 1..], context))
          else Failure(MissingKey(key))
    else if t[0] == '}' then
      if |t| >= 2 && t[1] == '}' then Prepend("}", Render(t[2..], context)) else Failure(Malformed)
    else Prepend([t[0]], Render(t[1..], context))
  }

  /** A command without braces is run as written, whatever the context. */
  lemma {:induction false} RenderPlain(t: string, context: map<string, string>)
    requires NoBraces(t)
    ensures Render(t, context) == Success(t)
    decreases |t|
  {
    if t != [] {
      assert NoBraces(t[1..]);
      RenderPlain(t[1..], context);
      assert [t[0]] + t[1..] == t;
    }
  }

  /** Every name of `small` is in `large` with the same value. */
  predicate SubContext(small: map<string, string>, large: map<string, string>) {
    forall k :: k in small ==> k in large && large[k] == small[k]
  }

  /** A command that renders in a context renders the same in any context that extends it. */
  lemma {:induction false} RenderWider(t: string, small: map<string, string>, large: map<string, string>)
    requires SubContext(small, large)
    requires Render(t, small).Success?
    ensures Render(t, large) == Render(t, small)
    decreases |t|
  {
    if t == [] {
    } else if t[0] == '{' {
      if |t| >= 2 && t[1] == '{' {
        RenderWider(t[2..], small, large);
      } else {
        var j := CloseBrace(t, 1).value;
        RenderWider(t[j + 1..], small, large);
      }
    } else if t[0] == '}' {
      RenderWider(t[2..], small, large);
    } else {
      RenderWider(t[1..], small, large);
    }
  }

  /** A lone named field: its value when the name is in the context, a KeyError naming it otherwise. */
  lemma RenderField(key: string, context: map<string, string>)
    requires PlainKey(key)
    ensures key in context ==> Render("{" + key + "}", context) == Success(context[key])
    ensures key !in context ==> Render("{" + key + "}", context) == Failure(MissingKey(key))
  {
    var t := "{" + key + "}";
    assert t[1] == key[0];
    assert CloseBrace(t, 1) == Some(|key| + 1) by {
      CloseAfterName(t, key, 1);
    }
    assert t[1..|key| + 1] == key;
    assert t[|key| + 2..] == [];
    assert t[0] == '{' && t[1] != '{';
    if key in context {
      assert context[key] + "" == context[key];
    }
  }

  /** `{}` and `{0}`, `{1}`, …: `format(**context)` passes no positional argument, so an IndexError. */
  lemma RenderPositional(key: string, context: map<string, string>)
    requires AllDigits(key)
    ensures Render("{" + key + "}", context) == Failure(MissingIndex)
  {
    var t := "{" + key + "}";
    if key == [] {
      assert t == "{}";
      assert CloseBrace(t, 1) == Some(1);
    } else {
      assert t[1] == key[0];
      assert CloseBrace(t, 1) == Some(|key| + 1) by {
        CloseAfterName(t, key, 1);
      }
      assert t[1..|key| + 1] == key;
    }
  }

  lemma {:induction false} CloseAfterName(t: string, key: string, from: nat)
    requires NoBraces(key) && "{" + key + "}" <= t
    requires 1 <= from <= |key| + 1
    ensures CloseBrace(t, from) == Some(|key| + 1)
    decreases |key| + 1 - from
  {
    var field := "{" + key + "}";
    assert t[from] == field[from];
    if from <= |key| {
      assert field[from] == key[from - 1];
      CloseAfterName(t, key, from + 1);
    }
  }

  /** Text without braces is copied as it stands, and what follows it renders on its own. */
  lemma {:induction false} RenderLiteralPrefix(a: string, b: string, context: map<string, string>)
    requires NoBraces(a)
    ensures Render(a + b, context) == Prepend(a, Render(b, context))
    decreases |a|
  {
    if a == [] {
      assert a + b == b;
      if Render(b, context).Success? {
        assert a + Render(b, context).value == Render(b, context).value;
      }
    } else {
      assert (a + b)[0] == a[0];
      assert (a + b)[1..] == a[1..] + b;
      assert NoBraces(a[1..]);
      RenderLiteralPrefix(a[1..], b, context);
      if Render(b, context).Success? {
        var v := Render(b, context).value;
        assert [a[0]] + (a[1..] + v) == a + v;
      }
    }
  }

  /**
   * A leading named field: its value, then the rest rendered, when the name
   * is in the context; a KeyError naming it otherwise, whatever follows.
   */
  lemma RenderFieldThen(key: string, rest: string, context: map<string, string>)
    requires PlainKey(key)
    ensures key in context ==>
      Render("{" + key + "}" + rest, context) == Prepend(context[key], Render(rest, context))
    ensures key !in context ==> Render("{" + key + "}" + rest, context) == Failure(MissingKey(key))
  {
    var t := "{" + key + "}" + rest;
    assert "{" + key + "}" <= t;
    assert t[1] == key[0];
    assert CloseBrace(t, 1) == Some(|key| + 1) by {
      CloseAfterName(t, key, 1);
    }
    assert t[1..|key| + 1] == key;
    assert t[|key| + 2..] == rest;
  }

  /**
   * The first field that names a missing key decides the result, whatever
   * follows it: nothing after it is looked at.
   */
  lemma FirstMissingKeyDecides(a: string, key: string, rest: string, context: map<string, string>)
    requires NoBraces(a) && PlainKey(key) && key !in context
    ensures Render(a + "{" + key + "}" + rest, context) == Failure(MissingKey(key))
  {
    RenderFieldThen(key, rest, context);
    assert a + "{" + key + "}" + rest == a + ("{" + key + "}" + rest);
    RenderLiteralPrefix(a, "{" + key + "}" + rest, context);
  }
}
