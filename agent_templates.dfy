/**
 * Placeholder substitution for custom agents: the four placeholders of the
 * custom-agent template are replaced, in a fixed order, by the agent's name and
 * by metadata values or their defaults.
 */
module AgentTemplates {
  import opened Results
  import opened Strings
  import opened AgentNames

  /** The metadata the create flow collects; `None` is a missing field. */
  datatype Metadata = Metadata(description: Option<string>, model: Option<string>, color: Option<string>)

  /** `field || fallback` for a string field: a missing or empty value falls back. */
  function OrDefault(field: Option<string>, fallback: string): string {
    match field
    case Some(v) => if v == "" then fallback else v
    case None => fallback
  }

  datatype Placeholder = AgentName | Description | Model | Color

  /** The text of a placeholder in the template. */
  function Token(p: Placeholder): string {
    match p
    case AgentName => "{AGENT_NAME}"
    case Description => "{DESCRIPTION}"
    case Model => "{MODEL}"
    case Color => "{COLOR}"
  }

  /** What replaces a placeholder: the agent name, or the metadata field with its default. */
  function Value(p: Placeholder, name: string, metadata: Metadata): string {
    match p
    case AgentName => name
    case Description => OrDefault(metadata.description, "Custom agent")
    case Model => OrDefault(metadata.model, "sonnet")
    case Color => OrDefault(metadata.color, "gray")
  }

  /** Missing or empty fields take the defaults `Custom agent`, `sonnet` and `gray`; present ones are used as given. */
  lemma ValueDefaults(name: string, metadata: Metadata)
    ensures metadata.description in {None, Some("")} ==> Value(Description, name, metadata) == "Custom agent"
    ensures metadata.model in {None, Some("")} ==> Value(Model, name, metadata) == "sonnet"
    ensures metadata.color in {None, Some("")} ==> Value(Color, name, metadata) == "gray"
    ensures metadata.description.Some? && metadata.description.value != "" ==>
            Value(Description, name, metadata) == metadata.description.value
    ensures metadata.model.Some? && metadata.model.value != "" ==> Value(Model, name, metadata) == metadata.model.value
    ensures metadata.color.Some? && metadata.color.value != "" ==> Value(Color, name, metadata) == metadata.color.value
    ensures Value(AgentName, name, metadata) == name
  {
  }

  /** The template text after the four replacements, in the order `createCustomAgent` performs them. */
  function Render(template: string, name: string, metadata: Metadata): string {
    var withName := ReplaceAll(template, Token(AgentName), Value(AgentName, name, metadata));
    var withDescription := ReplaceAll(withName, Token(Description), Value(Description, name, metadata));
    var withModel := ReplaceAll(withDescription, Token(Model), Value(Model, name, metadata));
    ReplaceAll(withModel, Token(Color), Value(Color, name, metadata))
  }

  // An independent description of templates: literal text interleaved with placeholders.

  datatype Piece = Text(text: string) | Slot(placeholder: Placeholder)

  /** Literal text holds no `{`: every brace of the template opens a placeholder. */
  predicate PlainText(pieces: seq<Piece>) {
    forall k :: 0 <= k < |pieces| ==> pieces[k].Text? ==> '{' !in pieces[k].text
  }

  /**
   * The pieces written out, with the placeholders in `filled` shown as their
   * values and the others as their tokens `token(p)`.
   */
  function Show(pieces: seq<Piece>, filled: set<Placeholder>, token: Placeholder -> string,
                value: Placeholder -> string): string
    decreases |pieces|
  {
    if |pieces| == 0 then ""
    else ShowPiece(pieces[0], filled, token, value) + Show(pieces[1..], filled, token, value)
  }

  function ShowPiece(piece: Piece, filled: set<Placeholder>, token: Placeholder -> string,
                     value: Placeholder -> string): string
  {
    match piece
    case Text(t) => t
    case Slot(p) => if p in filled then value(p) else token(p)
  }

  /** Showing a concatenation shows each part. */
  lemma {:induction false} ShowAppend(p1: seq<Piece>, p2: seq<Piece>, filled: set<Placeholder>,
                                      token: Placeholder -> string, value: Placeholder -> string)
    ensures Show(p1 + p2, filled, token, value) == Show(p1, filled, token, value) + Show(p2, filled, token, value)
    decreases |p1|
  {
    if |p1| == 0 {
      assert p1 + p2 == p2;
    } else {
      assert (p1 + p2)[0] == p1[0];
      assert (p1 + p2)[1..] == p1[1..] + p2;
      ShowAppend(p1[1..], p2, filled, token, value);
    }
  }

  /** The template a sequence of pieces stands for. */
  function Flatten(pieces: seq<Piece>): string {
    Show(pieces, {}, Token, Token)
  }

  /** The text the template should become: every placeholder shown as its value. */
  function Fill(pieces: seq<Piece>, value: Placeholder -> string): string {
    Show(pieces, {AgentName, Description, Model, Color}, Token, value)
  }

  /** Tokens open with `{`, hold no other `{`, and differ from each other in their second character. */
  predicate DistinctTokens(token: Placeholder -> string) {
    && (forall p :: |token(p)| >= 2 && token(p)[0] == '{' && '{' !in token(p)[1..])
    && (forall p, q :: p != q ==> token(p)[1] != token(q)[1])
  }

  lemma TokensAreDistinct()
    ensures DistinctTokens(Token)
  {
  }

  /** A string that starts with one token does not start with another. */
  lemma OtherTokenNoMatch(token: Placeholder -> string, p: Placeholder, q: Placeholder, rest: string)
    requires DistinctTokens(token) && p != q
    ensures !StartsWith(token(q) + rest, token(p))
  {
    assert (token(q) + rest)[1] == token(q)[1];
  }

  /** If the pieces are plain text, so is every suffix of them. */
  lemma PlainTextTail(pieces: seq<Piece>)
    requires PlainText(pieces) && |pieces| > 0
    ensures PlainText(pieces[1..])
  {
    forall k | 0 <= k < |pieces[1..]| ensures pieces[1..][k].Text? ==> '{' !in pieces[1..][k].text {
      assert pieces[1..][k] == pieces[k + 1];
    }
  }

  /** A token that is neither filled nor replaced now is copied through unchanged. */
  lemma SkipOtherToken(token: Placeholder -> string, p: Placeholder, q: Placeholder, rest: string, rep: string)
    requires DistinctTokens(token) && p != q
    ensures ReplaceAll(token(q) + rest, token(p), rep) == token(q) + ReplaceAll(rest, token(p), rep)
  {
    var t := token(q);
    OtherTokenNoMatch(token, p, q, rest);
    ReplaceAllNoMatchHere(t + rest, token(p), rep);
    assert (t + rest)[1..] == t[1..] + rest;
    ReplaceAllSkip(t[1..], rest, token(p), rep);
    assert [t[0]] + t[1..] == t;
  }

  /**
   * Replacing one placeholder that is not yet filled fills exactly that one:
   * literal text and values already inserted hold no `{`, so no occurrence is
   * found anywhere else.
   */
  lemma {:induction false} ReplaceFillsOne(pieces: seq<Piece>, filled: set<Placeholder>,
                                           token: Placeholder -> string, value: Placeholder -> string, p: Placeholder)
    requires DistinctTokens(token) && PlainText(pieces) && p !in filled
    requires forall q :: q in filled + {p} ==> '{' !in value(q)
    ensures ReplaceAll(Show(pieces, filled, token, value), token(p), value(p)) == Show(pieces, filled + {p}, token, value)
    decreases |pieces|
  {
    if |pieces| > 0 {
      var rest := Show(pieces[1..], filled, token, value);
      PlainTextTail(pieces);
      ReplaceFillsOne(pieces[1..], filled, token, value, p);
      match pieces[0]
      case Text(t) =>
        assert '{' !in t by { assert pieces[0].Text?; }
        ReplaceAllSkip(t, rest, token(p), value(p));
      case Slot(q) =>
        if q in filled {
          ReplaceAllSkip(value(q), rest, token(p), value(p));
        } else if q == p {
          assert (token(p) + rest)[..|token(p)|] == token(p);
          assert (token(p) + rest)[|token(p)|..] == rest;
        } else {
          SkipOtherToken(token, p, q, rest, value(p));
        }
    }
  }

  /**
   * Substitution is correct for every template whose braces all open a
   * placeholder, as long as no value holds a brace: the result is the template
   * with each placeholder replaced by its value.
   */
  lemma RenderFillsSlots(pieces: seq<Piece>, name: string, metadata: Metadata)
    requires PlainText(pieces)
    requires forall p :: '{' !in Value(p, name, metadata)
    ensures Render(Flatten(pieces), name, metadata) == Fill(pieces, p => Value(p, name, metadata))
  {
    var value := p => Value(p, name, metadata);
    TokensAreDistinct();
    ShowUnfilledIgnoresValues(pieces, Token, Token, value);
    ReplaceFillsOne(pieces, {}, Token, value, AgentName);
    ReplaceFillsOne(pieces, {AgentName}, Token, value, Description);
    ReplaceFillsOne(pieces, {AgentName, Description}, Token, value, Model);
    ReplaceFillsOne(pieces, {AgentName, Description, Model}, Token, value, Color);
    assert {} + {AgentName} == {AgentName};
    assert {AgentName} + {Description} == {AgentName, Description};
    assert {AgentName, Description} + {Model} == {AgentName, Description, Model};
    assert {AgentName, Description, Model} + {Color} == {AgentName, Description, Model, Color};
  }

  /** With nothing filled, the values do not matter. */
  lemma {:induction false} ShowUnfilledIgnoresValues(pieces: seq<Piece>, token: Placeholder -> string,
                                                     v1: Placeholder -> string, v2: Placeholder -> string)
    ensures Show(pieces, {}, token, v1) == Show(pieces, {}, token, v2)
    decreases |pieces|
  {
    if |pieces| > 0 {
      ShowUnfilledIgnoresValues(pieces[1..], token, v1, v2);
    }
  }

  /** A filled template holds no brace, so none of the four placeholders is left. */
  lemma {:induction false} FillHasNoBrace(pieces: seq<Piece>, value: Placeholder -> string)
    requires PlainText(pieces)
    requires forall p :: '{' !in value(p)
    ensures '{' !in Fill(pieces, value)
    decreases |pieces|
  {
    if |pieces| > 0 {
      PlainTextTail(pieces);
      FillHasNoBrace(pieces[1..], value);
      if pieces[0].Text? {
        assert '{' !in pieces[0].text;
      }
    }
  }

  /** No placeholder survives substitution under the same conditions. */
  lemma RenderLeavesNoPlaceholder(pieces: seq<Piece>, name: string, metadata: Metadata, p: Placeholder)
    requires PlainText(pieces)
    requires forall q :: '{' !in Value(q, name, metadata)
    ensures !Contains(Render(Flatten(pieces), name, metadata), Token(p))
  {
    RenderFillsSlots(pieces, name, metadata);
    FillHasNoBrace(pieces, q => Value(q, name, metadata));
    if Contains(Render(Flatten(pieces), name, metadata), Token(p)) {
      ContainsFirstChar(Render(Flatten(pieces), name, metadata), Token(p));
    }
  }

  /** A sanitized name and brace-free metadata make every value brace-free. */
  lemma ValuesBraceFree(name: string, metadata: Metadata)
    requires SanitizeAgentName(name).Ok?
    requires metadata.description.Some? ==> '{' !in metadata.description.value
    requires metadata.model.Some? ==> '{' !in metadata.model.value
    requires metadata.color.Some? ==> '{' !in metadata.color.value
    ensures forall p :: '{' !in Value(p, name, metadata)
  {
    assert !IsNameChar('{');
  }

  /** A sanitized name and `$`-free metadata make every value `$`-free. */
  lemma ValuesDollarFree(name: string, metadata: Metadata)
    requires SanitizeAgentName(name).Ok?
    requires metadata.description.Some? ==> '$' !in metadata.description.value
    requires metadata.model.Some? ==> '$' !in metadata.model.value
    requires metadata.color.Some? ==> '$' !in metadata.color.value
    ensures forall p :: '$' !in Value(p, name, metadata)
  {
    assert !IsNameChar('$');
  }

  /**
   * Why the template text must be brace-free: the replacements run one after
   * the other over the whole text, so a placeholder can be assembled from the
   * text around another one. `{AGENT_{AGENT_NAME}AME}` with the name `N`
   * becomes `{AGENT_NAME}`, and no later replacement removes it.
   */
  lemma NestedPlaceholderReassembles()
    ensures Render("{AGENT_" + Token(AgentName) + "AME}", "N", Metadata(None, None, None)) == Token(AgentName)
  {
    NameReplacementReassembles();
    ReplaceOtherToken(Description, AgentName, "Custom agent");
    ReplaceOtherToken(Model, AgentName, "sonnet");
    ReplaceOtherToken(Color, AgentName, "gray");
  }

  lemma NameReplacementReassembles()
    ensures ReplaceAll("{AGENT_" + Token(AgentName) + "AME}", Token(AgentName), "N") == Token(AgentName)
  {
    var t := Token(AgentName);
    var s := ['{'] + ("AGENT_" + (t + "AME}"));
    assert s == "{AGENT_" + t + "AME}";
    assert !StartsWith(s, t) by {
      assert s[7] == '{' && t[7] == 'N';
    }
    assert t[0] == '{' && '{' !in "AGENT_" && '{' !in "AME}";
    ReplaceAroundInner('{', "AGENT_", t, "AME}", "N");
    assert ['{'] + ("AGENT_" + ("N" + "AME}")) == t;
  }

  /**
   * An occurrence of `t` after a first character and text free of `t[0]`, with
   * no occurrence at the very start, is the only one replaced.
   */
  lemma ReplaceAroundInner(c: char, x: string, t: string, b: string, n: string)
    requires |t| > 0 && t[0] !in x && t[0] !in b
    requires !StartsWith([c] + (x + (t + b)), t)
    ensures ReplaceAll([c] + (x + (t + b)), t, n) == [c] + (x + (n + b))
  {
    var tail := x + (t + b);
    var s := [c] + tail;
    NotContainsMissingChar(b, t, t[0]);
    ReplaceAllAbsent(b, t, n);
    ReplaceAllAtStart(t, b, n);
    ReplaceAllSkip(x, t + b, t, n);
    ReplaceAllNoMatchHere(s, t, n);
    assert s[0] == c && s[1..] == tail;
  }

  // A worked instance: text and the four placeholders, one after the other.

  lemma ShowFour(x1: Piece, x2: Piece, x3: Piece, x4: Piece, filled: set<Placeholder>,
                 token: Placeholder -> string, value: Placeholder -> string)
    ensures Show([x1, x2, x3, x4], filled, token, value)
         == ShowPiece(x1, filled, token, value) + ShowPiece(x2, filled, token, value)
          + ShowPiece(x3, filled, token, value) + ShowPiece(x4, filled, token, value)
  {
    assert [x1, x2, x3, x4] == [x1] + ([x2] + ([x3] + ([x4] + [])));
    ShowCons(x4, [], filled, token, value);
    ShowCons(x3, [x4] + [], filled, token, value);
    ShowCons(x2, [x3] + ([x4] + []), filled, token, value);
    ShowCons(x1, [x2] + ([x3] + ([x4] + [])), filled, token, value);
  }

  lemma ShowCons(x: Piece, rest: seq<Piece>, filled: set<Placeholder>,
                 token: Placeholder -> string, value: Placeholder -> string)
    ensures Show([x] + rest, filled, token, value) == ShowPiece(x, filled, token, value) + Show(rest, filled, token, value)
  {
    assert ([x] + rest)[0] == x && ([x] + rest)[1..] == rest;
  }

  /** Texts `a`, `b`, `c`, `d`, each followed by one placeholder in substitution order. */
  function Interleaved(a: string, b: string, c: string, d: string): seq<Piece> {
    [Text(a), Slot(AgentName), Text(b), Slot(Description)] + [Text(c), Slot(Model), Text(d), Slot(Color)]
  }

  lemma FlattenInterleaved(a: string, b: string, c: string, d: string)
    ensures Flatten(Interleaved(a, b, c, d))
         == a + Token(AgentName) + b + Token(Description) + c + Token(Model) + d + Token(Color)
  {
    ShowFour(Text(a), Slot(AgentName), Text(b), Slot(Description), {}, Token, Token);
    ShowFour(Text(c), Slot(Model), Text(d), Slot(Color), {}, Token, Token);
    ShowAppend([Text(a), Slot(AgentName), Text(b), Slot(Description)],
               [Text(c), Slot(Model), Text(d), Slot(Color)], {}, Token, Token);
  }

  lemma FillInterleaved(a: string, b: string, c: string, d: string, value: Placeholder -> string)
    ensures Fill(Interleaved(a, b, c, d), value)
         == a + value(AgentName) + b + value(Description) + c + value(Model) + d + value(Color)
  {
    var all := {AgentName, Description, Model, Color};
    ShowFour(Text(a), Slot(AgentName), Text(b), Slot(Description), all, Token, value);
    ShowFour(Text(c), Slot(Model), Text(d), Slot(Color), all, Token, value);
    ShowAppend([Text(a), Slot(AgentName), Text(b), Slot(Description)],
               [Text(c), Slot(Model), Text(d), Slot(Color)], all, Token, value);
  }

  /** A template that uses each placeholder once becomes the texts with the values in between. */
  lemma RenderInterleaved(a: string, b: string, c: string, d: string, name: string, metadata: Metadata)
    requires '{' !in a && '{' !in b && '{' !in c && '{' !in d
    requires forall p :: '{' !in Value(p, name, metadata)
    ensures Render(a + Token(AgentName) + b + Token(Description) + c + Token(Model) + d + Token(Color), name, metadata)
         == a + name + b + Value(Description, name, metadata) + c + Value(Model, name, metadata)
          + d + Value(Color, name, metadata)
  {
    var pieces := Interleaved(a, b, c, d);
    assert PlainText(pieces) by {
      forall k | 0 <= k < |pieces| && pieces[k].Text? ensures '{' !in pieces[k].text {
        assert k in {0, 2, 4, 6};
      }
    }
    FlattenInterleaved(a, b, c, d);
    FillInterleaved(a, b, c, d, p => Value(p, name, metadata));
    RenderFillsSlots(pieces, name, metadata);
  }

  // The replacement as `createCustomAgent` writes it: `String.prototype.replace` with a
  // string as replacement value expands the patterns `$$`, `$&`, `` $` `` and
  // `$'` in that value (section 22.1.3.19.1, GetSubstitution, of ECMA-262).
  // The regular expressions of `createCustomAgent` have no capture groups, so `$1` and
  // `$<` stay literal.

  /** The replacement text for one match of `matched`, with `before` and `after` the rest of the input. */
  function Expand(rep: string, matched: string, before: string, after: string): string
    decreases |rep|
  {
    if |rep| == 0 then ""
    else if rep[0] == '$' && |rep| >= 2 && (rep[1] == '$' || rep[1] == '&' || rep[1] == '`' || rep[1] == '\'') then
      var e := if rep[1] == '$' then "$" else if rep[1] == '&' then matched
               else if rep[1] == '`' then before else after;
      e + Expand(rep[2..], matched, before, after)
    else [rep[0]] + Expand(rep[1..], matched, before, after)
  }

  /** Global replacement of `pat` in `s`, scanning from index `i`, with the expansions above. */
  function JsReplaceFrom(s: string, i: nat, pat: string, rep: string): string
    requires |pat| > 0 && i <= |s|
    decreases |s| - i
  {
    if i + |pat| > |s| then s[i..]
    else if s[i..i + |pat|] == pat then
      Expand(rep, pat, s[..i], s[i + |pat|..]) + JsReplaceFrom(s, i + |pat|, pat, rep)
    else [s[i]] + JsReplaceFrom(s, i + 1, pat, rep)
  }

  function JsReplaceAll(s: string, pat: string, rep: string): string
    requires |pat| > 0
  {
    JsReplaceFrom(s, 0, pat, rep)
  }

  /** The four replacements exactly as written, `$` patterns included. */
  function RenderAsWritten(template: string, name: string, metadata: Metadata): string {
    var withName := JsReplaceAll(template, Token(AgentName), Value(AgentName, name, metadata));
    var withDescription := JsReplaceAll(withName, Token(Description), Value(Description, name, metadata));
    var withModel := JsReplaceAll(withDescription, Token(Model), Value(Model, name, metadata));
    JsReplaceAll(withModel, Token(Color), Value(Color, name, metadata))
  }

  /** A replacement value without `$` is inserted as it is. */
  lemma {:induction false} ExpandLiteral(rep: string, matched: string, before: string, after: string)
    requires '$' !in rep
    ensures Expand(rep, matched, before, after) == rep
    decreases |rep|
  {
    if |rep| > 0 {
      ExpandLiteral(rep[1..], matched, before, after);
    }
  }

  lemma {:induction false} JsReplaceFromAgrees(s: string, i: nat, pat: string, rep: string)
    requires |pat| > 0 && i <= |s| && '$' !in rep
    ensures JsReplaceFrom(s, i, pat, rep) == ReplaceAll(s[i..], pat, rep)
    decreases |s| - i, 1
  {
    if i + |pat| > |s| {
      AgreesAtEnd(s, i, pat, rep);
    } else if s[i..i + |pat|] == pat {
      AgreesAtMatch(s, i, pat, rep);
    } else {
      AgreesAtOther(s, i, pat, rep);
    }
  }

  /** The end of the agreement: a rest shorter than the pattern is kept as it is. */
  lemma AgreesAtEnd(s: string, i: nat, pat: string, rep: string)
    requires |pat| > 0 && i <= |s| && i + |pat| > |s|
    ensures JsReplaceFrom(s, i, pat, rep) == ReplaceAll(s[i..], pat, rep)
  {
    assert |s[i..]| < |pat|;
  }

  /** The step of the agreement at a match, a replacement value without `$` being inserted as it is. */
  lemma {:induction false} AgreesAtMatch(s: string, i: nat, pat: string, rep: string)
    requires |pat| > 0 && i + |pat| <= |s| && s[i..i + |pat|] == pat && '$' !in rep
    ensures JsReplaceFrom(s, i, pat, rep) == ReplaceAll(s[i..], pat, rep)
    decreases |s| - i, 0
  {
    var t := s[i..];
    assert t[..|pat|] == s[i..i + |pat|];
    assert t[|pat|..] == s[i + |pat|..];
    JsReplaceFromAgrees(s, i + |pat|, pat, rep);
    JsReplaceFromAtMatch(s, i, pat, rep);
    ExpandLiteral(rep, pat, s[..i], s[i + |pat|..]);
    assert t == pat + t[|pat|..];
    ReplaceAllAtStart(pat, t[|pat|..], rep);
  }

  /** The step of the agreement where no match starts. */
  lemma {:induction false} AgreesAtOther(s: string, i: nat, pat: string, rep: string)
    requires |pat| > 0 && i + |pat| <= |s| && s[i..i + |pat|] != pat && '$' !in rep
    ensures JsReplaceFrom(s, i, pat, rep) == ReplaceAll(s[i..], pat, rep)
    decreases |s| - i, 0
  {
    var t := s[i..];
    assert t[..|pat|] == s[i..i + |pat|];
    assert t[1..] == s[i + 1..];
    JsReplaceFromAgrees(s, i + 1, pat, rep);
    JsReplaceFromAtOther(s, i, pat, rep);
    ReplaceAllNoMatchHere(t, pat, rep);
  }

  /** One step of `JsReplaceFrom` at a match. */
  lemma JsReplaceFromAtMatch(s: string, i: nat, pat: string, rep: string)
    requires |pat| > 0 && i + |pat| <= |s| && s[i..i + |pat|] == pat
    ensures JsReplaceFrom(s, i, pat, rep)
         == Expand(rep, pat, s[..i], s[i + |pat|..]) + JsReplaceFrom(s, i + |pat|, pat, rep)
  {
  }

  /** One step of `JsReplaceFrom` where no match starts. */
  lemma JsReplaceFromAtOther(s: string, i: nat, pat: string, rep: string)
    requires |pat| > 0 && i + |pat| <= |s| && s[i..i + |pat|] != pat
    ensures JsReplaceFrom(s, i, pat, rep) == [s[i]] + JsReplaceFrom(s, i + 1, pat, rep)
  {
  }

  /** Without `$` in the replacement value, the program's replacement is plain global replacement. */
  lemma JsReplaceAgrees(s: string, pat: string, rep: string)
    requires |pat| > 0 && '$' !in rep
    ensures JsReplaceAll(s, pat, rep) == ReplaceAll(s, pat, rep)
  {
    JsReplaceFromAgrees(s, 0, pat, rep);
    assert s[0..] == s;
  }

  /** When no value holds `$`, the code as written renders as intended. */
  lemma RenderAsWrittenAgrees(template: string, name: string, metadata: Metadata)
    requires forall p :: '$' !in Value(p, name, metadata)
    ensures RenderAsWritten(template, name, metadata) == Render(template, name, metadata)
  {
    var s1 := ReplaceAll(template, Token(AgentName), Value(AgentName, name, metadata));
    var s2 := ReplaceAll(s1, Token(Description), Value(Description, name, metadata));
    var s3 := ReplaceAll(s2, Token(Model), Value(Model, name, metadata));
    JsReplaceAgrees(template, Token(AgentName), Value(AgentName, name, metadata));
    JsReplaceAgrees(s1, Token(Description), Value(Description, name, metadata));
    JsReplaceAgrees(s2, Token(Model), Value(Model, name, metadata));
    JsReplaceAgrees(s3, Token(Color), Value(Color, name, metadata));
  }

  /** Replacing a placeholder in a text that holds another leaves the text as it is. */
  lemma ReplaceOtherToken(p: Placeholder, q: Placeholder, rep: string)
    requires p != q && '$' !in rep
    ensures JsReplaceAll(Token(q), Token(p), rep) == Token(q)
    ensures ReplaceAll(Token(q), Token(p), rep) == Token(q)
  {
    TokensAreDistinct();
    SkipOtherToken(Token, p, q, "", rep);
    assert Token(q) + "" == Token(q);
    JsReplaceAgrees(Token(q), Token(p), rep);
  }

  /** `$&` as replacement value puts the matched placeholder back. */
  lemma MatchedTextRestores(p: Placeholder)
    ensures JsReplaceAll(Token(p), Token(p), "$&") == Token(p)
    ensures ReplaceAll(Token(p), Token(p), "$&") == "$&"
  {
    var t := Token(p);
    assert t[0..|t|] == t && t[..|t|] == t && t[..0] == "" && t[|t|..] == "";
    assert JsReplaceFrom(t, |t|, t, "$&") == "";
  }

  /**
   * A description of `$&` puts the matched text back: the template
   * `{DESCRIPTION}` keeps its placeholder as written, where the intended result
   * is the description itself.
   */
  lemma DollarDescriptionKeepsPlaceholder(name: string)
    requires SanitizeAgentName(name).Ok?
    ensures RenderAsWritten(Token(Description), name, Metadata(Some("$&"), None, None)) == Token(Description)
    ensures Render(Token(Description), name, Metadata(Some("$&"), None, None)) == "$&"
  {
    assert !IsNameChar('$');
    assert '$' !in name;
    DollarAsWritten(name, Metadata(Some("$&"), None, None));
    DollarIntended(name, Metadata(Some("$&"), None, None));
  }

  lemma DollarAsWritten(name: string, metadata: Metadata)
    requires '$' !in name && metadata == Metadata(Some("$&"), None, None)
    ensures RenderAsWritten(Token(Description), name, metadata) == Token(Description)
  {
    var t := Token(Description);
    ReplaceOtherToken(AgentName, Description, name);
    assert Value(Description, name, metadata) == "$&";
    MatchedTextRestores(Description);
    assert Value(Model, name, metadata) == "sonnet";
    ReplaceOtherToken(Model, Description, "sonnet");
    assert Value(Color, name, metadata) == "gray";
    ReplaceOtherToken(Color, Description, "gray");
  }

  lemma DollarIntended(name: string, metadata: Metadata)
    requires '$' !in name && metadata == Metadata(Some("$&"), None, None)
    ensures Render(Token(Description), name, metadata) == "$&"
  {
    var dollar := "$&";
    ReplaceOtherToken(AgentName, Description, name);
    assert Value(Description, name, metadata) == dollar;
    MatchedTextRestores(Description);
    assert Value(Model, name, metadata) == "sonnet";
    NotContainsMissingChar(dollar, Token(Model), '{');
    ReplaceAllAbsent(dollar, Token(Model), "sonnet");
    assert Value(Color, name, metadata) == "gray";
    NotContainsMissingChar(dollar, Token(Color), '{');
    ReplaceAllAbsent(dollar, Token(Color), "gray");
  }
}
