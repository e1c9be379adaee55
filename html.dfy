/**
 * HTML escaping as every page of the site does it, and the shape of a
 * rendered list container.
 *
 * Each page carries its own copy of the same escaping routine: the value
 * is turned into a string (a missing value becomes "") and then five
 * `replaceAll` calls run in order, `&` first.  `Escape` is that chain;
 * `EscapeEach` is an independent one-pass definition (each character
 * replaced by its entity), and `Unescape` is how a browser reads the five
 * entities back.  The lemmas show that the chain is the one-pass escape,
 * that no raw `<`, `>`, `"` or `'` survives, and that nothing is lost.
 */
module Html {
  import opened Js

  /* ---------------------------------------------------------------------
     The replaceAll chain
     --------------------------------------------------------------------- */

  /** `s.replaceAll(c, rep)` for a one-character pattern. */
  function ReplaceAll(s: string, c: char, rep: string): string
    decreases |s|
  {
    if s == [] then [] else (if s[0] == c then rep else [s[0]]) + ReplaceAll(s[1..], c, rep)
  }

  /** The five replacements, in the order the pages apply them. */
  function EscapeChain(s: string): string {
    ReplaceAll(ReplaceAll(ReplaceAll(ReplaceAll(ReplaceAll(
      s, '&', "&amp;"), '<', "&lt;"), '>', "&gt;"), '"', "&quot;"), '\'', "&#039;")
  }

  /* ---------------------------------------------------------------------
     The one-pass reference definition
     --------------------------------------------------------------------- */

  /** The five characters the pages escape. */
  predicate Special(c: char) {
    c == '&' || c == '<' || c == '>' || c == '"' || c == '\''
  }

  /** The four characters that never appear in escaped output (`&` does,
      as the start of an entity). */
  predicate Raw(c: char) {
    c == '<' || c == '>' || c == '"' || c == '\''
  }

  predicate NoRaw(s: string) {
    forall i :: 0 <= i < |s| ==> !Raw(s[i])
  }

  predicate NoSpecial(s: string) {
    forall i :: 0 <= i < |s| ==> !Special(s[i])
  }

  /** The entity a character is written as; other characters stand for
      themselves. */
  function Entity(c: char): string {
    match c
    case '&' => "&amp;"
    case '<' => "&lt;"
    case '>' => "&gt;"
    case '"' => "&quot;"
    case '\'' => "&#039;"
    case _ => [c]
  }

  /** Every character replaced by its entity in a single pass. */
  function EscapeEach(s: string): string
    decreases |s|
  {
    if s == [] then [] else Entity(s[0]) + EscapeEach(s[1..])
  }

  /** How an HTML parser reads the five entities back. */
  function Unescape(s: string): string
    decreases |s|
  {
    if s == [] then []
    else if "&amp;" <= s then "&" + Unescape(s[5..])
    else if "&lt;" <= s then "<" + Unescape(s[4..])
    else if "&gt;" <= s then ">" + Unescape(s[4..])
    else if "&quot;" <= s then "\"" + Unescape(s[6..])
    else if "&#039;" <= s then "'" + Unescape(s[6..])
    else [s[0]] + Unescape(s[1..])
  }

  /* ---------------------------------------------------------------------
     The chain is the one-pass escape
     --------------------------------------------------------------------- */

  lemma {:induction false} ReplaceAllAppend(a: string, b: string, c: char, rep: string)
    ensures ReplaceAll(a + b, c, rep) == ReplaceAll(a, c, rep) + ReplaceAll(b, c, rep)
    decreases |a|
  {
    if a != [] {
      assert (a + b)[1..] == a[1..] + b;
      ReplaceAllAppend(a[1..], b, c, rep);
    } else {
      assert a + b == b;
    }
  }

  lemma EscapeChainAppend(a: string, b: string)
    ensures EscapeChain(a + b) == EscapeChain(a) + EscapeChain(b)
  {
    var s1a, s1b := ReplaceAll(a, '&', "&amp;"), ReplaceAll(b, '&', "&amp;");
    ReplaceAllAppend(a, b, '&', "&amp;");
    var s2a, s2b := ReplaceAll(s1a, '<', "&lt;"), ReplaceAll(s1b, '<', "&lt;");
    ReplaceAllAppend(s1a, s1b, '<', "&lt;");
    var s3a, s3b := ReplaceAll(s2a, '>', "&gt;"), ReplaceAll(s2b, '>', "&gt;");
    ReplaceAllAppend(s2a, s2b, '>', "&gt;");
    var s4a, s4b := ReplaceAll(s3a, '"', "&quot;"), ReplaceAll(s3b, '"', "&quot;");
    ReplaceAllAppend(s3a, s3b, '"', "&quot;");
    ReplaceAllAppend(s4a, s4b, '\'', "&#039;");
  }

  lemma {:induction false} ReplaceAllFree(s: string, c: char, rep: string)
    requires Free(s, c)
    ensures ReplaceAll(s, c, rep) == s
    decreases |s|
  {
    if s != [] {
      ReplaceAllFree(s[1..], c, rep);
      assert s == [s[0]] + s[1..];
    }
  }

  lemma ReplaceAllHit(c: char, rep: string)
    ensures ReplaceAll([c], c, rep) == rep
  {
    assert [c][1..] == [];
    assert rep + [] == rep;
  }

  /** Each special character is rewritten by its own step of the chain
      and left alone by the others. */
  lemma EscapeChainAmp()
    ensures EscapeChain("&") == "&amp;"
  {
    var s0 := "&";
    var s1 := ReplaceAll(s0, '&', "&amp;");
    ReplaceAllHit('&', "&amp;");
    assert s1 == "&amp;";
    var s2 := ReplaceAll(s1, '<', "&lt;");
    ReplaceAllFree(s1, '<', "&lt;");
    assert s2 == s1;
    var s3 := ReplaceAll(s2, '>', "&gt;");
    ReplaceAllFree(s2, '>', "&gt;");
    assert s3 == s2;
    var s4 := ReplaceAll(s3, '"', "&quot;");
    ReplaceAllFree(s3, '"', "&quot;");
    assert s4 == s3;
    var s5 := ReplaceAll(s4, '\'', "&#039;");
    ReplaceAllFree(s4, '\'', "&#039;");
    assert s5 == s4;
  }

  lemma EscapeChainLt()
    ensures EscapeChain("<") == "&lt;"
  {
    var s0 := "<";
    var s1 := ReplaceAll(s0, '&', "&amp;");
    ReplaceAllFree(s0, '&', "&amp;");
    assert s1 == s0;
    var s2 := ReplaceAll(s1, '<', "&lt;");
    ReplaceAllHit('<', "&lt;");
    assert s2 == "&lt;";
    var s3 := ReplaceAll(s2, '>', "&gt;");
    ReplaceAllFree(s2, '>', "&gt;");
    assert s3 == s2;
    var s4 := ReplaceAll(s3, '"', "&quot;");
    ReplaceAllFree(s3, '"', "&quot;");
    assert s4 == s3;
    var s5 := ReplaceAll(s4, '\'', "&#039;");
    ReplaceAllFree(s4, '\'', "&#039;");
    assert s5 == s4;
  }

  lemma EscapeChainGt()
    ensures EscapeChain(">") == "&gt;"
  {
    var s0 := ">";
    var s1 := ReplaceAll(s0, '&', "&amp;");
    ReplaceAllFree(s0, '&', "&amp;");
    assert s1 == s0;
    var s2 := ReplaceAll(s1, '<', "&lt;");
    ReplaceAllFree(s1, '<', "&lt;");
    assert s2 == s1;
    var s3 := ReplaceAll(s2, '>', "&gt;");
    ReplaceAllHit('>', "&gt;");
    assert s3 == "&gt;";
    var s4 := ReplaceAll(s3, '"', "&quot;");
    ReplaceAllFree(s3, '"', "&quot;");
    assert s4 == s3;
    var s5 := ReplaceAll(s4, '\'', "&#039;");
    ReplaceAllFree(s4, '\'', "&#039;");
    assert s5 == s4;
  }

  lemma EscapeChainQuot()
    ensures EscapeChain("\"") == "&quot;"
  {
    var s0 := "\"";
    var s1 := ReplaceAll(s0, '&', "&amp;");
    ReplaceAllFree(s0, '&', "&amp;");
    assert s1 == s0;
    var s2 := ReplaceAll(s1, '<', "&lt;");
    ReplaceAllFree(s1, '<', "&lt;");
    assert s2 == s1;
    var s3 := ReplaceAll(s2, '>', "&gt;");
    ReplaceAllFree(s2, '>', "&gt;");
    assert s3 == s2;
    var s4 := ReplaceAll(s3, '"', "&quot;");
    ReplaceAllHit('"', "&quot;");
    assert s4 == "&quot;";
    var s5 := ReplaceAll(s4, '\'', "&#039;");
    ReplaceAllFree(s4, '\'', "&#039;");
    assert s5 == s4;
  }

  lemma EscapeChainApos()
    ensures EscapeChain("'") == "&#039;"
  {
    var s0 := "'";
    var s1 := ReplaceAll(s0, '&', "&amp;");
    ReplaceAllFree(s0, '&', "&amp;");
    assert s1 == s0;
    var s2 := ReplaceAll(s1, '<', "&lt;");
    ReplaceAllFree(s1, '<', "&lt;");
    assert s2 == s1;
    var s3 := ReplaceAll(s2, '>', "&gt;");
    ReplaceAllFree(s2, '>', "&gt;");
    assert s3 == s2;
    var s4 := ReplaceAll(s3, '"', "&quot;");
    ReplaceAllFree(s3, '"', "&quot;");
    assert s4 == s3;
    var s5 := ReplaceAll(s4, '\'', "&#039;");
    ReplaceAllHit('\'', "&#039;");
    assert s5 == "&#039;";
  }

  lemma EscapeChainPlain(c: char)
    requires !Special(c)
    ensures EscapeChain([c]) == [c]
  {
    ReplaceAllFree([c], '&', "&amp;");
    ReplaceAllFree([c], '<', "&lt;");
    ReplaceAllFree([c], '>', "&gt;");
    ReplaceAllFree([c], '"', "&quot;");
    ReplaceAllFree([c], '\'', "&#039;");
  }

  /** On one character the chain gives that character's entity: the later
      replacements never touch the entities the earlier ones wrote. */
  lemma EscapeChainOne(c: char)
    ensures EscapeChain([c]) == Entity(c)
  {
    if c == '&' {
      EscapeChainAmp();
    } else if c == '<' {
      EscapeChainLt();
    } else if c == '>' {
      EscapeChainGt();
    } else if c == '"' {
      EscapeChainQuot();
    } else if c == '\'' {
      EscapeChainApos();
    } else {
      EscapeChainPlain(c);
    }
  }

  /** The chain of `replaceAll` calls equals the one-pass escape, so each
      input character is escaped exactly once and never twice. */
  lemma {:induction false} EscapeChainIsEscapeEach(s: string)
    ensures EscapeChain(s) == EscapeEach(s)
    decreases |s|
  {
    if s != [] {
      assert s == [s[0]] + s[1..];
      EscapeChainAppend([s[0]], s[1..]);
      EscapeChainOne(s[0]);
      EscapeChainIsEscapeEach(s[1..]);
    }
  }

  /* ---------------------------------------------------------------------
     Properties of the one-pass escape
     --------------------------------------------------------------------- */

  lemma {:induction false} EscapeEachNoRaw(s: string)
    ensures NoRaw(EscapeEach(s))
    decreases |s|
  {
    if s != [] {
      EscapeEachNoRaw(s[1..]);
      var e, t := Entity(s[0]), EscapeEach(s[1..]);
      assert NoRaw(e);
      assert EscapeEach(s) == e + t;
      forall i | 0 <= i < |e + t|
        ensures !Raw((e + t)[i])
      {
        if i >= |e| {
          assert (e + t)[i] == t[i - |e|];
        }
      }
    }
  }

  lemma {:induction false} EscapeEachIdentity(s: string)
    requires NoSpecial(s)
    ensures EscapeEach(s) == s
    decreases |s|
  {
    if s != [] {
      EscapeEachIdentity(s[1..]);
      assert Entity(s[0]) == [s[0]];
      assert s == [s[0]] + s[1..];
    }
  }

  lemma EscapeEachIdentityIf(s: string)
    ensures NoSpecial(s) ==> EscapeEach(s) == s
  {
    if NoSpecial(s) {
      EscapeEachIdentity(s);
    }
  }

  lemma UnescapeEntity(c: char, t: string)
    ensures Unescape(Entity(c) + t) == [c] + Unescape(t)
  {
    match c
    case '&' => UnescapeAmp(t);
    case '<' => UnescapeLt(t);
    case '>' => UnescapeGt(t);
    case '"' => UnescapeQuot(t);
    case '\'' => UnescapeApos(t);
    case _ => UnescapePlain(c, t);
  }

  lemma UnescapeAmp(t: string)
    ensures Unescape("&amp;" + t) == "&" + Unescape(t)
  {
    var s := "&amp;" + t;
    assert s[..5] == "&amp;" && s[5..] == t;
  }

  lemma UnescapeLt(t: string)
    ensures Unescape("&lt;" + t) == "<" + Unescape(t)
  {
    var s := "&lt;" + t;
    assert s[1] == 'l' && s[..4] == "&lt;" && s[4..] == t;
  }

  lemma UnescapeGt(t: string)
    ensures Unescape("&gt;" + t) == ">" + Unescape(t)
  {
    var s := "&gt;" + t;
    assert s[1] == 'g' && s[..4] == "&gt;" && s[4..] == t;
  }

  lemma UnescapeQuot(t: string)
    ensures Unescape("&quot;" + t) == "\"" + Unescape(t)
  {
    var s := "&quot;" + t;
    assert s[1] == 'q' && s[..6] == "&quot;" && s[6..] == t;
  }

  lemma UnescapeApos(t: string)
    ensures Unescape("&#039;" + t) == "'" + Unescape(t)
  {
    var s := "&#039;" + t;
    assert s[1] == '#' && s[..6] == "&#039;" && s[6..] == t;
  }

  lemma UnescapePlain(c: char, t: string)
    requires !Special(c)
    ensures Unescape([c] + t) == [c] + Unescape(t)
  {
    var s := [c] + t;
    assert s[0] == c && s[1..] == t;
  }

  /** Reading the escaped text back gives the input: escaping loses nothing. */
  lemma {:induction false} UnescapeEscapeEach(s: string)
    ensures Unescape(EscapeEach(s)) == s
    decreases |s|
  {
    if s != [] {
      UnescapeEntity(s[0], EscapeEach(s[1..]));
      UnescapeEscapeEach(s[1..]);
      assert s == [s[0]] + s[1..];
    }
  }

  /* ---------------------------------------------------------------------
     The routine every page uses
     --------------------------------------------------------------------- */

  /** `String(x ?? "")` followed by the five replacements.  A missing value
      gives "", the result holds no raw `<`, `>`, `"` or `'`, it is the
      one-pass escape of the input, and text without special characters
      comes back unchanged. */
  function Escape(x: Option<string>): (r: string)
    ensures x.None? ==> r == ""
    ensures NoRaw(r)
    ensures NoSpecial(Coalesce(x, "")) ==> r == Coalesce(x, "")
  {
    var s := Coalesce(x, "");
    EscapeChainIsEscapeEach(s);
    EscapeEachNoRaw(s);
    EscapeEachIdentityIf(s);
    EscapeChain(s)
  }

  /** The chain escapes each character exactly once. */
  lemma EscapeIsOnePass(x: Option<string>)
    ensures Escape(x) == EscapeEach(Coalesce(x, ""))
  {
    EscapeChainIsEscapeEach(Coalesce(x, ""));
  }

  /** Decoding the escaped text gives back the input. */
  lemma EscapeRoundTrip(x: Option<string>)
    ensures Unescape(Escape(x)) == Coalesce(x, "")
  {
    EscapeIsOnePass(x);
    UnescapeEscapeEach(Coalesce(x, ""));
  }

  /** `<` becomes `&lt;`, not `&amp;lt;`: `&` is replaced before the
      replacements that write new ampersands.  An ampersand already in the
      input is escaped once. */
  lemma EscapeExamples()
    ensures Escape(Some("<")) == "&lt;"
    ensures Escape(Some("&lt;")) == "&amp;lt;"
  {
    EscapeOfLt();
    EscapeOfLtEntity();
  }

  lemma EscapeOfLt()
    ensures Escape(Some("<")) == "&lt;"
  {
    EscapeIsOnePass(Some("<"));
    assert "<"[1..] == [];
    assert EscapeEach("<") == "&lt;" + EscapeEach([]);
  }

  lemma EscapeOfLtEntity()
    ensures Escape(Some("&lt;")) == "&amp;lt;"
  {
    EscapeIsOnePass(Some("&lt;"));
    EscapeEachLtEntity();
  }

  lemma EscapeEachLtEntity()
    ensures EscapeEach("&lt;") == "&amp;lt;"
  {
    var t := "lt;";
    assert "&lt;" == ['&'] + t;
    assert NoSpecial(t);
    EscapeEachIdentity(t);
    assert (['&'] + t)[1..] == t;
    assert EscapeEach(['&'] + t) == "&amp;" + t;
  }

  /** Two inputs that escape to the same text are the same text. */
  lemma EscapeInjective(x: Option<string>, y: Option<string>)
    requires Escape(x) == Escape(y)
    ensures Coalesce(x, "") == Coalesce(y, "")
  {
    EscapeRoundTrip(x);
    EscapeRoundTrip(y);
  }

  /* ---------------------------------------------------------------------
     Rendered list containers
     --------------------------------------------------------------------- */

  /** `xs.map(x => esc(x))`: every string of a list escaped, in order, and
      each one recoverable. */
  function EscapeAll(xs: seq<string>): (r: seq<string>)
    ensures |r| == |xs|
    ensures forall i :: 0 <= i < |xs| ==> r[i] == Escape(Some(xs[i]))
    ensures forall i :: 0 <= i < |r| ==> NoRaw(r[i]) && Unescape(r[i]) == xs[i]
  {
    EscapeAllRoundTrip(xs);
    seq(|xs|, i requires 0 <= i < |xs| => Escape(Some(xs[i])))
  }

  /** Each escaped element of a list decodes back to the element. */
  lemma EscapeAllRoundTrip(xs: seq<string>)
    ensures forall i :: 0 <= i < |xs| ==> Unescape(Escape(Some(xs[i]))) == xs[i]
  {
    forall i | 0 <= i < |xs| ensures Unescape(Escape(Some(xs[i]))) == xs[i] {
      EscapeRoundTrip(Some(xs[i]));
    }
  }

  /** What a page puts into a list container: one placeholder notice or
      one row per record. */
  datatype Listing<+T> = Notice(text: string) | Rows(rows: seq<T>)

  /** The pattern the pages share: an empty input gives the placeholder,
      anything else one row per record, in order. */
  function ListingOf<A, B>(xs: seq<A>, row: A -> B, notice: string): (l: Listing<B>)
    ensures l.Notice? <==> |xs| == 0
    ensures l.Notice? ==> l.text == notice
    ensures l.Rows? ==> |l.rows| == |xs| && forall i :: 0 <= i < |xs| ==> l.rows[i] == row(xs[i])
  {
    if |xs| == 0 then Notice(notice) else Rows(seq(|xs|, i requires 0 <= i < |xs| => row(xs[i])))
  }

  /** A page's `forEach` that appends one row per record: the rows come
      out in the records' order, one each. */
  method AppendRows<A, B>(xs: seq<A>, row: A -> B) returns (ys: seq<B>)
    ensures |ys| == |xs|
    ensures forall i :: 0 <= i < |xs| ==> ys[i] == row(xs[i])
  {
    ys := [];
    var k := 0;
    while k < |xs|
      invariant 0 <= k <= |xs|
      invariant |ys| == k
      invariant forall i :: 0 <= i < k ==> ys[i] == row(xs[i])
    {
      ys := ys + [row(xs[k])];
      k := k + 1;
    }
  }

  /* ---------------------------------------------------------------------
     Single selection
     --------------------------------------------------------------------- */

  /** Item `k` is the one active item. */
  predicate OnlyActive(active: seq<bool>, k: int) {
    forall i :: 0 <= i < |active| ==> active[i] == (i == k)
  }

  /** How many items carry the active flag. */
  function CountActive(active: seq<bool>): nat
    decreases |active|
  {
    if |active| == 0 then 0
    else CountActive(active[..|active| - 1]) + (if active[|active| - 1] then 1 else 0)
  }

  /** When only item `k` is active and `k` is one of the items, exactly one
      item is active; when `k` is not, none is. */
  lemma {:induction false} OnlyActiveCount(active: seq<bool>, k: int)
    requires OnlyActive(active, k)
    ensures CountActive(active) == if 0 <= k < |active| then 1 else 0
    decreases |active|
  {
    if |active| > 0 {
      var init := active[..|active| - 1];
      assert OnlyActive(init, k);
      OnlyActiveCount(init, k);
    }
  }

  /** A click handler's two steps on `n` items: every item loses the active
      class, then item `k` gains it. */
  method SelectOnly(n: nat, k: int) returns (active: seq<bool>)
    ensures |active| == n && OnlyActive(active, k)
    ensures CountActive(active) == if 0 <= k < n then 1 else 0
  {
    var cleared: seq<bool> := [];
    var i := 0;
    while i < n
      invariant 0 <= i <= n
      invariant |cleared| == i
      invariant forall j :: 0 <= j < i ==> !cleared[j]
    {
      cleared := cleared + [false];
      i := i + 1;
    }
    active := if 0 <= k < n then cleared[k := true] else cleared;
    OnlyActiveCount(active, k);
  }
}
