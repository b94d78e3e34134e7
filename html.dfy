/**
 * Markup produced by the dashboard client (tentacle_preview_static/js/main.js):
 * the `escapeHtml` chain of global replacements, the character references it
 * produces and their decoding, and the tri-state status badge.
 */
module Html {
  import opened JsValue

  /** `s.replace(/c/g, rep)` for a single-character pattern. */
  function ReplaceAll(s: string, c: char, rep: string): (r: string)
  {
    if s == [] then [] else (if s[0] == c then rep else [s[0]]) + ReplaceAll(s[1..], c, rep)
  }

  /** The five passes of `escapeHtml`, in the order the source applies them (`&` first). */
  function EscapeChain(s: string): string {
    ReplaceAll(ReplaceAll(ReplaceAll(ReplaceAll(ReplaceAll(
      s, '&', "&amp;"), '<', "&lt;"), '>', "&gt;"), '"', "&quot;"), '\'', "&#039;")
  }

  /** Reference definition: each character on its own. */
  function EscapeChar(c: char): string {
    match c
    case '&' => "&amp;"
    case '<' => "&lt;"
    case '>' => "&gt;"
    case '"' => "&quot;"
    case '\'' => "&#039;"
    case _ => [c]
  }

  function EscapeText(s: string): string {
    if s == [] then [] else EscapeChar(s[0]) + EscapeText(s[1..])
  }

  /** No character that could open a tag or end an attribute value. */
  predicate NoMarkupChars(s: string) {
    forall i :: 0 <= i < |s| ==> s[i] != '<' && s[i] != '>' && s[i] != '"' && s[i] != '\''
  }

  /**
   * Decoding of the five character references `escapeHtml` writes, as the
   * HTML parser does for text and quoted attribute values; any other `&`
   * stays literal.
   */
  function UnescapeText(s: string): string {
    if s == [] then []
    else if |s| >= 5 && s[..5] == "&amp;" then "&" + UnescapeText(s[5..])
    else if |s| >= 4 && s[..4] == "&lt;" then "<" + UnescapeText(s[4..])
    else if |s| >= 4 && s[..4] == "&gt;" then ">" + UnescapeText(s[4..])
    else if |s| >= 6 && s[..6] == "&quot;" then "\"" + UnescapeText(s[6..])
    else if |s| >= 6 && s[..6] == "&#039;" then "'" + UnescapeText(s[6..])
    else [s[0]] + UnescapeText(s[1..])
  }

  /**
   * `escapeHtml(v)`: null and undefined give "", anything else is converted
   * with `String(v)` and escaped. The result holds no raw `<`, `>`, `"` or
   * `'`, and decoding it gives back the text.
   */
  function EscapeHtml(v: Json): (r: string)
    ensures v.IsNullish() ==> r == ""
    ensures !v.IsNullish() ==> r == EscapeText(ToString(v))
    ensures NoMarkupChars(r)
    ensures !v.IsNullish() ==> UnescapeText(r) == ToString(v)
  {
    if v.IsNullish() then ""
    else
      var s := ToString(v);
      ChainIsPerCharacter(s);
      EscapedHasNoMarkup(s);
      UnescapeEscaped(s);
      EscapeChain(s)
  }

  lemma {:induction false} ReplaceAllAppend(a: string, b: string, c: char, rep: string)
    ensures ReplaceAll(a + b, c, rep) == ReplaceAll(a, c, rep) + ReplaceAll(b, c, rep)
  {
    if a == [] {
      assert a + b == b;
    } else {
      assert (a + b)[0] == a[0];
      assert (a + b)[1..] == a[1..] + b;
      ReplaceAllAppend(a[1..], b, c, rep);
    }
  }

  lemma {:induction false} ReplaceAllAbsent(s: string, c: char, rep: string)
    requires c !in s
    ensures ReplaceAll(s, c, rep) == s
  {
    if s != [] {
      assert s == [s[0]] + s[1..];
      ReplaceAllAbsent(s[1..], c, rep);
    }
  }

  lemma EscapeChainAppend(a: string, b: string)
    ensures EscapeChain(a + b) == EscapeChain(a) + EscapeChain(b)
  {
    ReplaceAllAppend(a, b, '&', "&amp;");
    var a1, b1 := ReplaceAll(a, '&', "&amp;"), ReplaceAll(b, '&', "&amp;");
    ReplaceAllAppend(a1, b1, '<', "&lt;");
    var a2, b2 := ReplaceAll(a1, '<', "&lt;"), ReplaceAll(b1, '<', "&lt;");
    ReplaceAllAppend(a2, b2, '>', "&gt;");
    var a3, b3 := ReplaceAll(a2, '>', "&gt;"), ReplaceAll(b2, '>', "&gt;");
    ReplaceAllAppend(a3, b3, '"', "&quot;");
    var a4, b4 := ReplaceAll(a3, '"', "&quot;"), ReplaceAll(b3, '"', "&quot;");
    ReplaceAllAppend(a4, b4, '\'', "&#039;");
  }

  lemma ReplaceAllSingle(c: char, d: char, rep: string)
    ensures ReplaceAll([c], d, rep) == (if c == d then rep else [c])
  {
    assert [c][1..] == [];
  }

  /** Pass k of the chain: the character it replaces and its replacement. */
  function PassChar(k: nat): char
    requires k <= 4
  {
    ['&', '<', '>', '"', '\''][k]
  }

  function PassRep(k: nat): string
    requires k <= 4
  {
    ["&amp;", "&lt;", "&gt;", "&quot;", "&#039;"][k]
  }

  /** Passes `from` .. 4 of the chain applied to `s`. */
  function Passes(s: string, from: nat): string
    requires from <= 5
    decreases 5 - from
  {
    if from == 5 then s else Passes(ReplaceAll(s, PassChar(from), PassRep(from)), from + 1)
  }

  lemma PassesAreChain(s: string)
    ensures Passes(s, 0) == EscapeChain(s)
  {
  }

  /** Passes that find none of their character leave the text alone. */
  lemma {:induction false} PassesKeep(t: string, from: nat)
    requires from <= 5
    requires forall k :: from <= k < 5 ==> PassChar(k) !in t
    ensures Passes(t, from) == t
    decreases 5 - from
  {
    if from < 5 {
      ReplaceAllAbsent(t, PassChar(from), PassRep(from));
      PassesKeep(t, from + 1);
    }
  }

  /**
   * Pass k writes the escape of its own character, and what it writes holds
   * only '&', letters, digits, '#' and ';', none of which a later pass replaces.
   */
  lemma PassRepFacts(k: nat)
    requires k <= 4
    ensures EscapeChar(PassChar(k)) == PassRep(k)
    ensures forall j :: k < j < 5 ==> PassChar(j) !in PassRep(k)
  {
    if k == 0 {
      assert PassRep(0) == "&amp;";
    } else if k == 1 {
      assert PassRep(1) == "&lt;";
    } else if k == 2 {
      assert PassRep(2) == "&gt;";
    } else if k == 3 {
      assert PassRep(3) == "&quot;";
    }
  }

  lemma {:induction false} PassesOnChar(c: char, from: nat)
    requires from <= 5
    requires forall k :: 0 <= k < from ==> c != PassChar(k)
    ensures Passes([c], from) == EscapeChar(c)
    decreases 5 - from
  {
    if from == 5 {
      assert c != PassChar(0) && c != PassChar(1) && c != PassChar(2);
      assert c != PassChar(3) && c != PassChar(4);
    } else {
      ReplaceAllSingle(c, PassChar(from), PassRep(from));
      if c == PassChar(from) {
        PassRepFacts(from);
        PassesKeep(PassRep(from), from + 1);
      } else {
        PassesOnChar(c, from + 1);
      }
    }
  }

  /** Later passes never touch what an earlier pass wrote, because `&` goes first. */
  lemma EscapeChainChar(c: char)
    ensures EscapeChain([c]) == EscapeChar(c)
  {
    PassesAreChain([c]);
    PassesOnChar(c, 0);
  }

  /** The chain of global replacements equals the per-character escape. */
  lemma {:induction false} ChainIsPerCharacter(s: string)
    ensures EscapeChain(s) == EscapeText(s)
  {
    if s != [] {
      assert s == [s[0]] + s[1..];
      EscapeChainAppend([s[0]], s[1..]);
      EscapeChainChar(s[0]);
      ChainIsPerCharacter(s[1..]);
    }
  }

  lemma {:induction false} EscapedHasNoMarkup(s: string)
    ensures NoMarkupChars(EscapeText(s))
  {
    if s != [] {
      EscapedHasNoMarkup(s[1..]);
      var head, tail := EscapeChar(s[0]), EscapeText(s[1..]);
      assert NoMarkupChars(head);
      forall i | 0 <= i < |head + tail|
        ensures (head + tail)[i] != '<' && (head + tail)[i] != '>'
        ensures (head + tail)[i] != '"' && (head + tail)[i] != '\''
      {
        if i >= |head| {
          assert (head + tail)[i] == tail[i - |head|];
        }
      }
    }
  }

  lemma UnescapeAfterChar(c: char, t: string)
    ensures UnescapeText(EscapeChar(c) + t) == [c] + UnescapeText(t)
  {
    match c
    case '&' => UnescapeAmp(t);
    case '<' => UnescapeLt(t);
    case '>' => UnescapeGt(t);
    case '"' => UnescapeQuot(t);
    case '\'' => UnescapeApos(t);
    case _ => UnescapePlain(c, t);
  }

  lemma UnescapePlain(c: char, t: string)
    requires c != '&'
    ensures UnescapeText([c] + t) == [c] + UnescapeText(t)
  {
    var e := [c] + t;
    assert e[0] == c && e[1..] == t;
    assert !(|e| >= 5 && e[..5] == "&amp;") by { if |e| >= 5 { assert e[..5][0] == e[0]; } }
    assert !(|e| >= 4 && (e[..4] == "&lt;" || e[..4] == "&gt;")) by { if |e| >= 4 { assert e[..4][0] == e[0]; } }
    assert !(|e| >= 6 && (e[..6] == "&quot;" || e[..6] == "&#039;")) by { if |e| >= 6 { assert e[..6][0] == e[0]; } }
  }

  lemma UnescapeAmp(t: string)
    ensures UnescapeText("&amp;" + t) == "&" + UnescapeText(t)
  {
    var e := "&amp;" + t;
    assert e[..5] == "&amp;" && e[5..] == t;
  }

  lemma UnescapeLt(t: string)
    ensures UnescapeText("&lt;" + t) == "<" + UnescapeText(t)
  {
    var e := "&lt;" + t;
    assert e[1] == 'l';
    assert !(|e| >= 5 && e[..5] == "&amp;") by { if |e| >= 5 { assert e[..5][1] == e[1]; } }
    assert e[..4] == "&lt;" && e[4..] == t;
  }

  lemma UnescapeGt(t: string)
    ensures UnescapeText("&gt;" + t) == ">" + UnescapeText(t)
  {
    var e := "&gt;" + t;
    assert e[1] == 'g';
    assert !(|e| >= 5 && e[..5] == "&amp;") by { if |e| >= 5 { assert e[..5][1] == e[1]; } }
    assert e[..4] != "&lt;" by { assert e[..4][1] == e[1]; }
    assert e[..4] == "&gt;" && e[4..] == t;
  }

  lemma UnescapeQuot(t: string)
    ensures UnescapeText("&quot;" + t) == "\"" + UnescapeText(t)
  {
    var e := "&quot;" + t;
    assert e[1] == 'q';
    assert e[..5] != "&amp;" by { assert e[..5][1] == e[1]; }
    assert e[..4] != "&lt;" && e[..4] != "&gt;" by { assert e[..4][1] == e[1]; }
    assert e[..6] == "&quot;" && e[6..] == t;
  }

  lemma UnescapeApos(t: string)
    ensures UnescapeText("&#039;" + t) == "'" + UnescapeText(t)
  {
    var e := "&#039;" + t;
    assert e[1] == '#';
    assert e[..5] != "&amp;" by { assert e[..5][1] == e[1]; }
    assert e[..4] != "&lt;" && e[..4] != "&gt;" by { assert e[..4][1] == e[1]; }
    assert e[..6] != "&quot;" by { assert e[..6][1] == e[1]; }
    assert e[..6] == "&#039;" && e[6..] == t;
  }

  /** Decoding undoes escaping: the operator sees exactly the server's text. */
  lemma {:induction false} UnescapeEscaped(s: string)
    ensures UnescapeText(EscapeText(s)) == s
  {
    if s != [] {
      UnescapeAfterChar(s[0], EscapeText(s[1..]));
      UnescapeEscaped(s[1..]);
    }
  }

  /** The three renderings of a tri-state status (the `data-status` attribute). */
  datatype Badge = Success | Danger | Warning {
    function DataStatus(): string {
      match this
      case Success => "success"
      case Danger => "danger"
      case Warning => "warning"
    }

    function Markup(): string {
      match this
      case Success => "<span class=\"badge status-badge\" data-status=\"success\"><i class=\"bi bi-check-circle\"></i> OK</span>"
      case Danger => "<span class=\"badge status-badge\" data-status=\"danger\"><i class=\"bi bi-x-circle\"></i> FAIL</span>"
      case Warning => "<span class=\"badge status-badge\" data-status=\"warning\"><i class=\"bi bi-clock\"></i> WAIT</span>"
    }
  }

  /**
   * `renderStatusBadge`: total over every value; only `true` and `false`
   * are decisive, everything else (null, undefined, strings, numbers ...)
   * renders as pending.
   */
  function StatusBadge(status: Json): (b: Badge)
    ensures b == Success <==> status == Bool(true)
    ensures b == Danger <==> status == Bool(false)
    ensures b == Warning <==> !status.Bool?
  {
    if status == Bool(true) then Success
    else if status == Bool(false) then Danger
    else Warning
  }
}
