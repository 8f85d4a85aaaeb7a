/** The scanner and the printer of log patterns are inverse to each other, and exactly where. */
module FormattingLaws {
  import opened Formatting

  function PrintToken(t: Token): string {
    match t
    case Literal(text) => text
    case Directive(name, format) => "%" + name + if format == "" then "" else "{" + format + "}"
  }

  function Print(ts: seq<Token>): string {
    if ts == [] then "" else PrintToken(ts[0]) + Print(ts[1..])
  }

  predicate EmptyFormat(l: Lexeme) {
    l.Braced? && l.format == ""
  }

  /** How many directives the scan of `p` meets whose braces are empty. */
  function EmptyFormats(p: string): nat
    decreases |p|
  {
    if p == "" then 0
    else if p[0] != '%' || (|p| > 1 && p[1] == '%') then EmptyFormats(p[1..])
    else
      var l := Lex(p);
      if l.Open? then EmptyFormats(p[1..])
      else (if EmptyFormat(l) then 1 else 0) + EmptyFormats(p[|l.Text()|..])
  }

  /** The head of the input is read as it stands. */
  lemma LexText(p: string)
    requires p != "" && p[0] == '%' && !Lex(p).Open?
    ensures p == Lex(p).Text() + p[|Lex(p).Text()|..]
  {
    var e := 1 + Span(p[1..]);
    if Lex(p).Braced? {
      UntilStops(p[e + 1..]);
      BracedText(p, e, e + 1 + Until(p[e + 1..]));
    } else {
      assert "%" + p[1..e] + "" == p[..e];
    }
  }

  lemma BracedText(p: string, e: nat, c: nat)
    requires 1 <= e < c < |p| && p[0] == '%' && p[e] == '{' && p[c] == '}'
    ensures p == Braced(p[1..e], p[e + 1..c]).Text() + p[c + 1..]
  {
    assert p == "%" + p[1..e] + ("{" + p[e + 1..c] + "}") + p[c + 1..];
  }

  lemma {:induction false} UntilStops(p: string)
    ensures forall k | 0 <= k < Until(p) :: p[k] != '}'
    ensures Until(p) < |p| ==> p[Until(p)] == '}'
  {
    if p != "" && p[0] != '}' {
      UntilStops(p[1..]);
    }
  }

  /** A check by eye that suffices: the pattern has no empty pair of braces. */
  lemma {:induction false} NoEmptyBraces(p: string)
    requires forall k | 0 <= k < |p| - 1 :: p[k] == '{' ==> p[k + 1] != '}'
    ensures EmptyFormats(p) == 0
    decreases |p|
  {
    if p == "" {
    } else if p[0] != '%' || (|p| > 1 && p[1] == '%') || Lex(p).Open? {
      NoEmptyBraces(p[1..]);
    } else {
      var l := Lex(p);
      LexText(p);
      NoEmptyBraces(p[|l.Text()|..]);
      if EmptyFormat(l) {
        assert false;
      }
    }
  }

  lemma PrintCons(t: Token, ts: seq<Token>)
    ensures Print([t] + ts) == PrintToken(t) + Print(ts)
  {
    assert ([t] + ts)[1..] == ts;
  }

  lemma PrintAfter(pending: string, t: Token, rest: Scanned)
    ensures Print(After(pending, t, rest).tokens) == pending + (PrintToken(t) + Print(rest.tokens))
  {
    PrintCons(t, rest.tokens);
    if pending == "" {
      assert Flush(pending) + ([t] + rest.tokens) == [t] + rest.tokens;
    } else {
      PrintCons(Literal(pending), [t] + rest.tokens);
    }
  }

  /** One directive in front of a text `rest` that scanned to `tail`. */
  lemma PrintDirective(pending: string, l: Lexeme, rest: string, tail: Scanned, empties: nat)
    requires !l.Open?
    requires |Print(tail.tokens)| + 2 * empties == |rest|
    requires empties == 0 ==> Print(tail.tokens) == rest
    ensures
      var printed := Print(After(pending, l.Token(), tail).tokens);
      var total := (if EmptyFormat(l) then 1 else 0) + empties;
      && |printed| + 2 * total == |pending| + |l.Text() + rest|
      && (total == 0 ==> printed == pending + (l.Text() + rest))
  {
    PrintAfter(pending, l.Token(), tail);
    assert !EmptyFormat(l) ==> PrintToken(l.Token()) == l.Text();
  }

  /** What `PrintScan` says of a text and the literal text collected before it. */
  ghost predicate Printed(ts: seq<Token>, text: string, empties: nat) {
    |Print(ts)| + 2 * empties == |text| && (empties == 0 ==> Print(ts) == text)
  }

  lemma PrintScanDirective(p: string, pending: string, rest: string)
    requires p != "" && p[0] == '%' && !(|p| > 1 && p[1] == '%') && !Lex(p).Open?
    requires rest == p[|Lex(p).Text()|..] && Printed(Scan(rest, "").tokens, rest, EmptyFormats(rest))
    ensures Printed(Scan(p, pending).tokens, pending + p, EmptyFormats(p))
  {
    var l := Lex(p);
    LexText(p);
    PrintDirective(pending, l, rest, Scan(rest, ""), EmptyFormats(rest));
    assert Scan(p, pending) == After(pending, l.Token(), Scan(rest, ""));
    assert p == l.Text() + rest;
  }

  /** Printing what a scan without an open brace produced: every character is there, save the empty braces. */
  lemma {:induction false} PrintScan(p: string, pending: string)
    requires !Scan(p, pending).unclosed
    ensures Printed(Scan(p, pending).tokens, pending + p, EmptyFormats(p))
    decreases |p|
  {
    if p == "" {
      assert pending + p == pending;
    } else if p[0] != '%' || (|p| > 1 && p[1] == '%') {
      PrintScan(p[1..], pending + [p[0]]);
      assert pending + [p[0]] + p[1..] == pending + p;
    } else {
      var rest := p[|Lex(p).Text()|..];
      PrintScan(rest, "");
      assert "" + rest == rest;
      PrintScanDirective(p, pending, rest);
    }
  }

  /** An error-free pattern is printed back exactly when no directive has empty braces. */
  lemma PrintsBack(p: string)
    requires !IsError(p)
    ensures Print(Items(p)) == p <==> EmptyFormats(p) == 0
  {
    PrintScan(p, "");
    assert Items(p) == Scan(p, "").tokens;
    assert "" + p == p;
  }

  /** Every percent sign of `text` has another one behind it, in `text` or as the first character that follows. */
  ghost predicate Escapes(text: string, percentFollows: bool) {
    && (forall k | 0 <= k < |text| - 1 && text[k] == '%' :: text[k + 1] == '%')
    && (text != "" && text[|text| - 1] == '%' ==> percentFollows)
  }

  /** No character that a bare directive's name, or its format, would swallow. */
  predicate Separates(text: string) {
    text != "" ==> !NameChar(text[0]) && text[0] != '{'
  }

  predicate StartsDirective(ts: seq<Token>) {
    ts != [] && ts[0].Directive?
  }

  /** The token lists that patterns can denote. */
  ghost predicate Canonical(ts: seq<Token>) {
    ts == [] || (Canonical(ts[1..]) && CanonicalHead(ts[0], ts[1..]))
  }

  ghost predicate CanonicalHead(t: Token, rest: seq<Token>) {
    match t
    case Literal(text) =>
      text != "" && Escapes(text, StartsDirective(rest)) && (rest == [] || rest[0].Directive?)
    case Directive(name, format) =>
      name in KNOWN && '}' !in format && (format == "" ==> rest == [] || rest[0].Directive? || Separates(rest[0].text))
  }

  lemma EscapesTail(text: string, percentFollows: bool)
    requires text != "" && Escapes(text, percentFollows)
    ensures Escapes(text[1..], percentFollows)
    ensures text[0] == '%' ==> if |text| > 1 then text[1] == '%' else percentFollows
  {
    var tail := text[1..];
    forall k | 0 <= k < |tail| - 1 && tail[k] == '%' ensures tail[k + 1] == '%' {
      assert text[k + 1] == '%' ==> text[k + 2] == '%';
    }
  }

  lemma EscapesAppend(text: string, c: char, percentFollows: bool)
    requires Escapes(text, c == '%') && (c == '%' ==> percentFollows)
    ensures Escapes(text + [c], percentFollows)
  {
    var more := text + [c];
    forall k | 0 <= k < |text| && more[k] == '%' ensures more[k + 1] == '%' {
      assert text[k] == '%';
    }
  }

  lemma {:induction false} ScanText(text: string, rest: string, pending: string)
    requires Escapes(text, rest != "" && rest[0] == '%')
    ensures Scan(text + rest, pending) == Scan(rest, pending + text)
  {
    if text == "" {
      assert text + rest == rest && pending + text == pending;
    } else {
      var p := text + rest;
      assert p[1..] == text[1..] + rest;
      EscapesTail(text, rest != "" && rest[0] == '%');
      assert text[0] == '%' ==> |p| > 1 && p[1] == '%';
      ScanText(text[1..], rest, pending + [text[0]]);
      assert pending + [text[0]] + text[1..] == pending + text;
    }
  }

  lemma LexPrinted(t: Token, rest: string)
    requires t.Directive? && t.name in KNOWN && '}' !in t.format && (t.format == "" ==> Separates(rest))
    ensures
      var p := PrintToken(t) + rest;
      && p[0] == '%' && p[1] != '%'
      && Lex(p) == (if t.format == "" then Bare(t.name) else Braced(t.name, t.format))
      && p[|Lex(p).Text()|..] == rest
  {
    if t.format == "" {
      LexPrintedBare(t.name, rest);
      assert PrintToken(t) == "%" + t.name;
    } else {
      LexPrintedBraced(t.name, t.format, rest);
    }
  }

  lemma LexPrintedBare(name: string, rest: string)
    requires name in KNOWN && Separates(rest)
    ensures var p := "%" + name + rest; p[1] != '%' && Lex(p) == Bare(name) && p[2..] == rest
  {
    var p := "%" + name + rest;
    assert p[1] == name[0] && p[1..2] == name;
    LexBare(p, 2);
  }

  lemma LexPrintedBraced(name: string, format: string, rest: string)
    requires name in KNOWN && '}' !in format
    ensures
      var p := "%" + name + ("{" + format + "}") + rest;
      p[1] != '%' && Lex(p) == Braced(name, format) && p[|format| + 4..] == rest
  {
    var p := "%" + name + ("{" + format + "}") + rest;
    var c := 3 + |format|;
    assert p[1] == name[0] && p[1..2] == name && p[2] == '{' && p[c] == '}';
    assert forall k | 2 < k < c :: p[k] == format[k - 3];
    LexFormatted(p, 2, c);
    assert p[3..c] == format;
  }

  /** Scanning a printed canonical list gives the list, behind the text still pending. */
  lemma {:induction false} ScanPrint(ts: seq<Token>, pending: string)
    requires Canonical(ts) && (pending != "" ==> ts == [] || ts[0].Directive?)
    ensures Scan(Print(ts), pending) == Scanned(Flush(pending) + ts, false)
    decreases |ts|
  {
    if ts == [] {
      assert Flush(pending) + ts == Flush(pending);
    } else if ts[0].Literal? {
      ScanPrint(ts[1..], ts[0].text);
      ScanPrintLiteral(ts);
    } else {
      ScanPrint(ts[1..], "");
      ScanPrintDirective(ts, pending);
    }
  }

  lemma ScanPrintLiteral(ts: seq<Token>)
    requires Canonical(ts) && ts != [] && ts[0].Literal?
    requires Scan(Print(ts[1..]), ts[0].text) == Scanned(Flush(ts[0].text) + ts[1..], false)
    ensures Scan(Print(ts), "") == Scanned(Flush("") + ts, false)
  {
    FirstPrinted(ts[1..]);
    ScanPrintedLiteral(ts[0].text, Print(ts[1..]));
    assert Flush(ts[0].text) + ts[1..] == ts == Flush("") + ts;
  }

  lemma ScanPrintDirective(ts: seq<Token>, pending: string)
    requires Canonical(ts) && ts != [] && ts[0].Directive?
    requires Scan(Print(ts[1..]), "") == Scanned(Flush("") + ts[1..], false)
    ensures Scan(Print(ts), pending) == Scanned(Flush(pending) + ts, false)
  {
    var t, rest := ts[0], ts[1..];
    assert CanonicalHead(t, rest) && (t.format == "" ==> Separates(Print(rest))) by {
      FirstPrinted(rest);
    }
    assert Scan(Print(rest), "").tokens == rest;
    ScanPrintedDirective(t, Print(rest), pending);
    assert Print(ts) == PrintToken(t) + Print(rest);
    HeadAndTail(ts);
  }

  lemma HeadAndTail<T>(ts: seq<T>)
    requires ts != []
    ensures [ts[0]] + ts[1..] == ts
  {
  }

  lemma ScanPrintedLiteral(text: string, rest: string)
    requires Escapes(text, rest != "" && rest[0] == '%')
    ensures Scan(text + rest, "") == Scan(rest, text)
  {
    ScanText(text, rest, "");
    assert "" + text == text;
  }

  lemma ScanPrintedDirective(t: Token, rest: string, pending: string)
    requires t.Directive? && t.name in KNOWN && '}' !in t.format && (t.format == "" ==> Separates(rest))
    ensures Scan(PrintToken(t) + rest, pending) == After(pending, t, Scan(rest, ""))
  {
    LexPrinted(t, rest);
  }

  lemma FirstPrinted(ts: seq<Token>)
    requires Canonical(ts)
    ensures ts == [] ==> Print(ts) == ""
    ensures ts != [] && ts[0].Literal? ==> Print(ts) != "" && Print(ts)[0] == ts[0].text[0]
    ensures StartsDirective(ts) ==> Print(ts) != "" && Print(ts)[0] == '%'
  {
  }

  /** The tokens are canonical, and the first one starts as the text does. */
  ghost predicate CanonicalFor(ts: seq<Token>, text: string) {
    Canonical(ts) && (ts != [] ==> text != "" && (ts[0].Literal? ==> ts[0].text != "" && ts[0].text[0] == text[0]))
  }

  lemma FlushIsCanonical(pending: string)
    requires Escapes(pending, false)
    ensures CanonicalFor(Flush(pending), pending)
  {
    if pending != "" {
      var ts := Flush(pending);
      assert ts[1..] == [];
      assert Canonical(ts[1..]) && CanonicalHead(ts[0], ts[1..]);
    }
  }

  /** A directive in front of a text that is canonical, with the literal text collected before it. */
  lemma ScanDirectiveIsCanonical(p: string, pending: string, tail: seq<Token>)
    requires p != "" && p[0] == '%' && !Lex(p).Open? && !EmptyFormat(Lex(p)) && Lex(p).Token().name in KNOWN
    requires CanonicalFor(tail, p[|Lex(p).Text()|..]) && Escapes(pending, true)
    ensures CanonicalFor(Flush(pending) + ([Lex(p).Token()] + tail), pending + p)
  {
    DirectiveIsCanonical(p, tail);
    CanonicalFlush(pending, Lex(p).Token(), tail);
  }

  /** The tokens behind a directive are known if all are. */
  lemma KnownParts(pending: string, t: Token, tail: seq<Token>)
    requires t.Directive? && AllKnown(Flush(pending) + ([t] + tail))
    ensures AllKnown(tail) && t.name in KNOWN
  {
    var ts := Flush(pending) + ([t] + tail);
    assert t == ts[|ts| - |tail| - 1];
    assert tail == ts[|ts| - |tail|..];
  }

  /** What an error-free scan without empty braces produces is canonical. */
  lemma {:induction false} ScanIsCanonical(p: string, pending: string)
    requires !Scan(p, pending).unclosed && AllKnown(Scan(p, pending).tokens) && EmptyFormats(p) == 0
    requires Escapes(pending, p != "" && p[0] == '%')
    ensures CanonicalFor(Scan(p, pending).tokens, pending + p)
    decreases |p|
  {
    if p == "" {
      FlushIsCanonical(pending);
      assert pending + p == pending;
    } else if p[0] != '%' || (|p| > 1 && p[1] == '%') {
      assert pending + [p[0]] + p[1..] == pending + p;
      EscapesAppend(pending, p[0], |p| > 1 && p[1] == '%');
      ScanIsCanonical(p[1..], pending + [p[0]]);
    } else {
      var l := Lex(p);
      var rest := p[|l.Text()|..];
      var tail := Scan(rest, "").tokens;
      assert Scan(p, pending).tokens == Flush(pending) + ([l.Token()] + tail);
      KnownParts(pending, l.Token(), tail);
      ScanIsCanonical(rest, "");
      assert "" + rest == rest;
      ScanDirectiveIsCanonical(p, pending, tail);
    }
  }

  lemma DirectiveIsCanonical(p: string, tail: seq<Token>)
    requires p != "" && !Lex(p).Open? && !EmptyFormat(Lex(p)) && Lex(p).Token().name in KNOWN
    requires var rest := p[|Lex(p).Text()|..];
      tail != [] ==> rest != "" && (tail[0].Literal? && tail[0].text != "" ==> tail[0].text[0] == rest[0])
    ensures CanonicalHead(Lex(p).Token(), tail)
  {
    var e := 1 + Span(p[1..]);
    SpanStops(p[1..]);
    if Lex(p).Braced? {
      UntilStops(p[e + 1..]);
    } else {
      assert Lex(p).Text() == "%" + p[1..e] + "";
    }
  }

  lemma {:induction false} SpanStops(p: string)
    ensures Span(p) < |p| ==> !NameChar(p[Span(p)])
  {
    if p != "" && NameChar(p[0]) {
      SpanStops(p[1..]);
    }
  }

  lemma CanonicalFlush(pending: string, t: Token, tail: seq<Token>)
    requires t.Directive? && CanonicalHead(t, tail) && Canonical(tail) && Escapes(pending, true)
    ensures Canonical(Flush(pending) + ([t] + tail))
  {
    var ts := [t] + tail;
    assert ts[1..] == tail;
    assert Canonical(ts);
    if pending == "" {
      assert Flush(pending) + ts == ts;
    } else {
      var us := Flush(pending) + ts;
      assert us[1..] == ts && us[0] == Literal(pending);
    }
  }

  /** The scanner inverts the printer on exactly the canonical lists. */
  lemma ScansBack(ts: seq<Token>)
    ensures (!IsError(Print(ts)) && Items(Print(ts)) == ts) <==> Canonical(ts)
  {
    var p := Print(ts);
    if Canonical(ts) {
      ScanPrint(ts, "");
      assert Flush("") + ts == ts;
      CanonicalKnown(ts);
    }
    if !IsError(p) && Items(p) == ts {
      PrintsBack(p);
      ErrorFreeIsCanonical(p);
    }
  }

  /** Error-free patterns without empty braces denote canonical lists, so printing and scanning are a bijection. */
  lemma ErrorFreeIsCanonical(p: string)
    requires !IsError(p) && EmptyFormats(p) == 0
    ensures Canonical(Items(p))
  {
    assert Items(p) == Scan(p, "").tokens;
    ScanIsCanonical(p, "");
  }

  lemma {:induction false} CanonicalKnown(ts: seq<Token>)
    requires Canonical(ts)
    ensures AllKnown(ts)
  {
    if ts != [] {
      CanonicalKnown(ts[1..]);
    }
  }
}
