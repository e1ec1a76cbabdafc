/**
 * The XML search filter the client posts to find models. Each criterion is written
 * `<op><attribute id="ID"><value>VALUE</value></attribute></op>`, with the attribute id
 * and the value inserted verbatim (nothing is escaped), and the criteria are combined
 * in an `<and>` block. The whitespace between elements in the client's templates
 * carries no meaning and is left out here.
 *
 * A reader for that text is the partner of the writer: as long as no field contains the
 * markup characters that end it, the criteria read back exactly; a value containing
 * '<' shows that nothing is escaped.
 */
module Filters {
  import opened Wrappers

  /** One search criterion: an operation such as "equals", "has-pcre" or "greater-than", an attribute id and a value. */
  datatype Clause = Clause(op: string, attrId: string, value: string)

  /** The text of one criterion. */
  function RenderClause(c: Clause): string {
    "<" + c.op + "><attribute id=\"" + c.attrId + "\"><value>" + c.value + "</value></attribute></" + c.op + ">"
  }

  /** The criteria one after the other, in order. */
  function RenderClauses(cs: seq<Clause>): string {
    if cs == [] then "" else RenderClause(cs[0]) + RenderClauses(cs[1..])
  }

  /** The conjunction of the criteria. */
  function RenderAnd(cs: seq<Clause>): string {
    "<and>" + RenderClauses(cs) + "</and>"
  }

  lemma {:induction false} RenderClausesAppend(a: seq<Clause>, b: seq<Clause>)
    ensures RenderClauses(a + b) == RenderClauses(a) + RenderClauses(b)
  {
    if a == [] {
      assert a + b == b;
    } else {
      assert (a + b)[0] == a[0] && (a + b)[1..] == a[1..] + b;
      RenderClausesAppend(a[1..], b);
    }
  }

  /** The `<and>` block of two runs of criteria is the first run's text followed by the second's. */
  lemma RenderAndAppend(a: seq<Clause>, b: seq<Clause>)
    ensures RenderAnd(a + b) == "<and>" + RenderClauses(a) + RenderClauses(b) + "</and>"
  {
    RenderClausesAppend(a, b);
  }

  // ----- reading the text back -----

  predicate Lacks(s: string, ch: char) {
    forall i :: 0 <= i < |s| ==> s[i] != ch
  }

  /** No field contains the character that ends it in the text. */
  predicate Plain(c: Clause) {
    Lacks(c.op, '>') && Lacks(c.attrId, '"') && Lacks(c.value, '<')
  }

  /** The rest of `s` after the literal `lit`, if `s` starts with it. */
  function Expect(lit: string, s: string): (r: Option<string>)
    ensures r.Some? ==> s == lit + r.value
  {
    if |lit| <= |s| && s[..|lit|] == lit then Some(s[|lit|..]) else None
  }

  /** Splits `s` before the first `ch`: the text before it, and the rest starting with `ch`. */
  function Until(ch: char, s: string): (r: Option<(string, string)>)
    ensures r.Some? ==> r.value.0 + r.value.1 == s && |r.value.1| >= 1 && r.value.1[0] == ch
  {
    if s == [] then None
    else if s[0] == ch then Some(([], s))
    else
      match Until(ch, s[1..])
      case None => None
      case Some(p) => Some(([s[0]] + p.0, p.1))
  }

  /** Reads the literal `lit` and then a field up to the character `ch` that ends it. */
  function Field(lit: string, ch: char, s: string): (r: Option<(string, string)>)
    ensures r.Some? ==> |r.value.1| <= |s| - |lit|
  {
    var s1 :- Expect(lit, s);
    Until(ch, s1)
  }

  /** Reads one criterion from the front of `s`, returning it and the text after it. */
  function ParseClause(s: string): (r: Option<(Clause, string)>)
    ensures r.Some? ==> |r.value.1| < |s|
  {
    var p1 :- Field("<", '>', s);
    var p2 :- Field("><attribute id=\"", '"', p1.1);
    var p3 :- Field("\"><value>", '<', p2.1);
    var p4 :- Field("</value></attribute></", '>', p3.1);
    if p4.0 != p1.0 then None
    else
      var s5 :- Expect(">", p4.1);
      Some((Clause(p1.0, p2.0, p3.0), s5))
  }

  /** Reads criteria up to the closing "</and>", which must end the text. */
  function ParseClauses(s: string): Option<seq<Clause>>
    decreases |s|
  {
    if s == "</and>" then Some([])
    else
      var p :- ParseClause(s);
      var rest :- ParseClauses(p.1);
      Some([p.0] + rest)
  }

  /** Reads an `<and>` block. */
  function ParseAnd(s: string): Option<seq<Clause>> {
    var inner :- Expect("<and>", s);
    ParseClauses(inner)
  }

  lemma ExpectLiteral(lit: string, rest: string)
    ensures Expect(lit, lit + rest) == Some(rest)
  {
    assert (lit + rest)[..|lit|] == lit;
    assert (lit + rest)[|lit|..] == rest;
  }

  lemma {:induction false} UntilFirst(ch: char, tok: string, rest: string)
    requires Lacks(tok, ch)
    ensures Until(ch, tok + [ch] + rest) == Some((tok, [ch] + rest))
  {
    if tok == [] {
      assert tok + [ch] + rest == [ch] + rest;
    } else {
      assert (tok + [ch] + rest)[1..] == tok[1..] + [ch] + rest;
      UntilFirst(ch, tok[1..], rest);
      assert [tok[0]] + tok[1..] == tok;
    }
  }

  lemma FieldRoundTrip(lit: string, tok: string, ch: char, t: string)
    requires Lacks(tok, ch) && |t| > 0 && t[0] == ch
    ensures Field(lit, ch, lit + tok + t) == Some((tok, t))
  {
    assert lit + tok + t == lit + (tok + t);
    ExpectLiteral(lit, tok + t);
    UntilFirst(ch, tok, t[1..]);
    assert [ch] + t[1..] == t;
    assert tok + [ch] + t[1..] == tok + t;
  }

  /** A plain criterion reads back as itself, leaving whatever followed it. */
  lemma ParseRenderClause(c: Clause, rest: string)
    requires Plain(c)
    ensures ParseClause(RenderClause(c) + rest) == Some((c, rest))
  {
    var r4 := ">" + rest;
    var r3 := "</value></attribute></" + c.op + r4;
    var r2 := "\"><value>" + c.value + r3;
    var r1 := "><attribute id=\"" + c.attrId + r2;
    assert RenderClause(c) + rest == "<" + c.op + r1;
    FieldRoundTrip("<", c.op, '>', r1);
    FieldRoundTrip("><attribute id=\"", c.attrId, '"', r2);
    FieldRoundTrip("\"><value>", c.value, '<', r3);
    FieldRoundTrip("</value></attribute></", c.op, '>', r4);
    ExpectLiteral(">", rest);
  }

  lemma {:induction false} ParseRenderClauses(cs: seq<Clause>)
    requires forall i :: 0 <= i < |cs| ==> Plain(cs[i])
    ensures ParseClauses(RenderClauses(cs) + "</and>") == Some(cs)
  {
    if cs == [] {
      assert RenderClauses(cs) + "</and>" == "</and>";
    } else {
      var tail := RenderClauses(cs[1..]) + "</and>";
      assert RenderClauses(cs) + "</and>" == RenderClause(cs[0]) + tail;
      ParseRenderClause(cs[0], tail);
      ParseRenderClauses(cs[1..]);
      assert RenderClause(cs[0]) + tail != "</and>" by {
        assert |RenderClause(cs[0])| > 0;
      }
      assert [cs[0]] + cs[1..] == cs;
    }
  }

  lemma AllPlainAppend(a: seq<Clause>, b: seq<Clause>)
    requires forall i :: 0 <= i < |a| ==> Plain(a[i])
    requires forall i :: 0 <= i < |b| ==> Plain(b[i])
    ensures forall i :: 0 <= i < |a + b| ==> Plain((a + b)[i])
  {
    forall i | 0 <= i < |a + b| ensures Plain((a + b)[i]) {
      if i >= |a| {
        assert (a + b)[i] == b[i - |a|];
      }
    }
  }

  /** An `<and>` block of plain criteria reads back as exactly those criteria, in order. */
  lemma ParseRenderAnd(cs: seq<Clause>)
    requires forall i :: 0 <= i < |cs| ==> Plain(cs[i])
    ensures ParseAnd(RenderAnd(cs)) == Some(cs)
  {
    ExpectLiteral("<and>", RenderClauses(cs) + "</and>");
    assert RenderAnd(cs) == "<and>" + (RenderClauses(cs) + "</and>");
    ParseRenderClauses(cs);
  }

  /** The position of the first `ch` in `s`. */
  function IndexOf(s: string, ch: char): (k: nat)
    requires !Lacks(s, ch)
    ensures k < |s| && s[k] == ch && Lacks(s[..k], ch)
  {
    if s[0] == ch then 0
    else
      assert !Lacks(s[1..], ch) by {
        var i :| 0 <= i < |s| && s[i] == ch;
        assert s[1..][i - 1] == ch;
      }
      var k := IndexOf(s[1..], ch);
      assert s[..k + 1] == [s[0]] + s[1..][..k];
      k + 1
  }

  /** Once its first three fields are read, a criterion that reads at all carries exactly those fields. */
  lemma ParseClauseFields(s: string, op: string, r1: string, attrId: string, r2: string, value: string, r3: string)
    requires Field("<", '>', s) == Some((op, r1))
    requires Field("><attribute id=\"", '"', r1) == Some((attrId, r2))
    requires Field("\"><value>", '<', r2) == Some((value, r3))
    ensures ParseClause(s).Some? ==> ParseClause(s).value.0 == Clause(op, attrId, value)
  {
  }

  /** The value field ends at the first '<' of the value, so it reads a proper prefix of the value. */
  lemma ValueFieldStops(value: string, r3: string) returns (pre: string, tail: string)
    requires !Lacks(value, '<')
    ensures |pre| < |value|
    ensures Field("\"><value>", '<', "\"><value>" + value + r3) == Some((pre, tail))
  {
    var k := IndexOf(value, '<');
    pre, tail := value[..k], "<" + value[k + 1..] + r3;
    assert value == pre + "<" + value[k + 1..];
    assert "\"><value>" + value + r3 == "\"><value>" + pre + tail;
    FieldRoundTrip("\"><value>", pre, '<', tail);
  }

  /**
   * Values are inserted verbatim: a value holding '<' ends the `<value>` element early, so
   * its criterion never reads back as itself, whatever follows it.
   */
  lemma ValueIsNotEscaped(c: Clause, rest: string)
    requires Lacks(c.op, '>') && Lacks(c.attrId, '"') && !Lacks(c.value, '<')
    ensures ParseClause(RenderClause(c) + rest) != Some((c, rest))
  {
    var r3 := "</value></attribute></" + c.op + ">" + rest;
    var r2 := "\"><value>" + c.value + r3;
    var r1 := "><attribute id=\"" + c.attrId + r2;
    var s := RenderClause(c) + rest;
    assert s == "<" + c.op + r1;
    FieldRoundTrip("<", c.op, '>', r1);
    FieldRoundTrip("><attribute id=\"", c.attrId, '"', r2);
    var pre, tail := ValueFieldStops(c.value, r3);
    ParseClauseFields(s, c.op, r1, c.attrId, r2, pre, tail);
  }
}
