/** The log pattern scanner, `LogFormatter::init`, and the printer that inverts it. */
module Formatting {

  /** An entry of the scanner's vector: literal text (type 0) or a `%name{format}` field (type 1). */
  datatype Token = Literal(text: string) | Directive(name: string, format: string)

  datatype Scanned = Scanned(tokens: seq<Token>, unclosed: bool)

  const KNOWN: set<string> := {"m", "p", "r", "c", "t", "n", "d", "f", "l", "T", "F", "N"}

  const PATTERN_ERROR := Literal("<<pattern_error>>")

  predicate IsAlpha(c: char) {
    'a' <= c <= 'z' || 'A' <= c <= 'Z'
  }

  /** The characters a directive's name runs over: letters, and a closing brace is not a stop either. */
  predicate NameChar(c: char) {
    IsAlpha(c) || c == '}'
  }

  /** The length of the longest prefix made of name characters. */
  function Span(p: string): (n: nat)
    ensures n <= |p|
  {
    if p == "" || !NameChar(p[0]) then 0 else 1 + Span(p[1..])
  }

  /** The position of the first closing brace, or the length when there is none. */
  function Until(p: string): (n: nat)
    ensures n <= |p|
  {
    if p == "" || p[0] == '}' then 0 else 1 + Until(p[1..])
  }

  function Flush(pending: string): seq<Token> {
    if pending == "" then [] else [Literal(pending)]
  }

  /** The directive at the head of the input and the characters it takes. */
  datatype Lexeme =
    | Bare(name: string)
    | Braced(name: string, format: string)
    | Open
  {
    /** The tuple pushed for it; the empty format stands for "no format". */
    function Token(): Token
      requires !Open?
    {
      Directive(name, if Bare? then "" else format)
    }

    /** The characters it was read from. */
    function Text(): string
      requires !Open?
    {
      "%" + name + if Bare? then "" else "{" + format + "}"
    }
  }

  function Lex(p: string): (l: Lexeme)
    requires p != ""
    ensures !l.Open? ==> 0 < |l.Text()| <= |p|
  {
    var e := 1 + Span(p[1..]);
    if e == |p| || p[e] != '{' then Bare(p[1..e])
    else
      var c := e + 1 + Until(p[e + 1..]);
      if c < |p| then Braced(p[1..e], p[e + 1..c]) else Open
  }

  function After(pending: string, t: Token, rest: Scanned): Scanned {
    Scanned(Flush(pending) + ([t] + rest.tokens), rest.unclosed)
  }

  /** What the scan makes of the input `p` still unread when `pending` is the literal text collected so far. */
  function Scan(p: string, pending: string): Scanned
    decreases |p|
  {
    if p == "" then Scanned(Flush(pending), false)
    else if p[0] != '%' then Scan(p[1..], pending + [p[0]])
    else if |p| > 1 && p[1] == '%' then Scan(p[1..], pending + "%")
    else
      var l := Lex(p);
      if l.Open? then Scanned([PATTERN_ERROR] + Scan(p[1..], pending).tokens, true)
      else After(pending, l.Token(), Scan(p[|l.Text()|..], ""))
  }

  /** The second pass: unknown names become error text. */
  function Resolve(t: Token): Token {
    if t.Directive? && t.name !in KNOWN then Literal("<<error_format %" + t.name + ">>") else t
  }

  function Items(pattern: string): seq<Token> {
    var ts := Scan(pattern, "").tokens;
    seq(|ts|, i requires 0 <= i < |ts| => Resolve(ts[i]))
  }

  ghost predicate AllKnown(ts: seq<Token>) {
    forall t <- ts :: t.Directive? ==> t.name in KNOWN
  }

  ghost predicate IsError(pattern: string) {
    Scan(pattern, "").unclosed || !AllKnown(Scan(pattern, "").tokens)
  }

  class LogFormatter {
    const m_pattern: string
    var m_items: seq<Token>
    var m_error: bool

    constructor (pattern: string)
      ensures m_pattern == pattern && m_items == Items(pattern) && m_error == IsError(pattern)
    {
      m_pattern, m_items, m_error := pattern, [], false;
      new;
      Init();
    }

    /** The scan of the pattern followed by the lookup of every name. */
    method Init()
      requires m_items == [] && !m_error
      modifies this`m_items, this`m_error
      ensures m_items == Items(m_pattern) && m_error == IsError(m_pattern)
    {
      var vec := Tokenize();
      for k := 0 to |vec|
        invariant |m_items| == k
        invariant forall j | 0 <= j < k :: m_items[j] == Resolve(vec[j])
        invariant m_error == (Scan(m_pattern, "").unclosed || !AllKnown(vec[..k]))
      {
        assert vec[..k + 1] == vec[..k] + [vec[k]];
        match vec[k]
        case Literal(text) =>
          m_items := m_items + [Literal(text)];
        case Directive(name, format) =>
          if name in KNOWN {
            m_items := m_items + [Directive(name, format)];
          } else {
            m_items := m_items + [Literal("<<error_format %" + name + ">>")];
            m_error := true;
          }
      }
      assert vec[..|vec|] == vec;
    }

    /** The outer loop over the pattern. */
    method Tokenize() returns (vec: seq<Token>)
      requires !m_error
      modifies this`m_error
      ensures Scanned(vec, m_error) == Scan(m_pattern, "")
    {
      ghost var goal := Scan(m_pattern, "");
      vec := [];
      var i, nstr := 0, "";
      assert m_pattern[0..] == m_pattern;
      while i < |m_pattern|
        invariant 0 <= i <= |m_pattern|
        invariant goal == Prepend(vec, m_error, Scan(m_pattern[i..], nstr))
      {
        if m_pattern[i] != '%' {
          LiteralAt(vec, m_error, m_pattern, i, nstr);
          nstr := nstr + [m_pattern[i]];
          i := i + 1;
          continue;
        }
        if i + 1 < |m_pattern| && m_pattern[i + 1] == '%' {
          LiteralAt(vec, m_error, m_pattern, i, nstr);
          nstr := nstr + "%";
          i := i + 1;
          continue;
        }
        var p := m_pattern[i..];
        var vec', nstr', n, error := TakeDirective(p, vec, nstr, m_error);
        assert p[n..] == m_pattern[i + n..];
        vec, nstr, i, m_error := vec', nstr', i + n, error;
      }
      assert m_pattern[i..] == "";
      if nstr != "" {
        vec := vec + [Literal(nstr)];
      }
    }
  }

  /** One directive of the pattern: what it adds to the vector, what is left of the pending text, how far to go on. */
  method TakeDirective(p: string, vec: seq<Token>, nstr: string, error: bool)
    returns (vec': seq<Token>, nstr': string, n: nat, error': bool)
    requires p != "" && p[0] == '%' && !(|p| > 1 && p[1] == '%')
    ensures 0 < n <= |p|
    ensures Prepend(vec', error', Scan(p[n..], nstr')) == Prepend(vec, error, Scan(p, nstr))
  {
    var str, fmt, status;
    n, str, fmt, status := ScanDirective(p);
    vec', nstr', error' := vec, nstr, error;
    if status == 0 {
      if nstr != "" {
        vec' := vec + [Literal(nstr)];
        nstr' := "";
      }
      assert vec' == vec + Flush(nstr) && nstr' == "";
      vec' := vec' + [Directive(str, fmt)];
      PrependAfter(vec, error, nstr, Directive(str, fmt), Scan(p[n..], ""));
    } else {
      error' := true;
      vec' := vec' + [PATTERN_ERROR];
      n := 1;
      PrependError(vec, error, Scan(p[1..], nstr).tokens);
    }
  }

  /** The inner loop, on the input `p` from a percent sign on: the name, its optional format, and where they end. */
  method ScanDirective(p: string) returns (n: nat, str: string, fmt: string, status: int)
    requires p != ""
    ensures status == 0 || status == 1
    ensures status == 0 ==> 0 < n <= |p|
    ensures Lex(p).Open? <==> status == 1
    ensures status == 0 ==> Lex(p).Token() == Directive(str, fmt) && |Lex(p).Text()| == n
  {
    n, str, fmt, status := 1, "", "", 0;
    var begin := 0;
    while n < |p|
      invariant 1 <= n <= |p| && fmt == ""
      invariant status == 0 || status == 1
      invariant status == 0 ==> forall k | 1 <= k < n :: NameChar(p[k])
      invariant status == 0 ==> str == if n < |p| then "" else p[1..n]
      invariant status == 1 ==> OpensFormat(p, begin) && begin < n
      invariant status == 1 ==> forall k | begin < k < n :: p[k] != '}'
      invariant status == 1 && n < |p| ==> str == p[1..begin]
    {
      if status == 0 && !IsAlpha(p[n]) && p[n] != '{' && p[n] != '}' {
        str := p[1..n];
        break;
      }
      if status == 0 {
        if p[n] == '{' {
          str := p[1..n];
          status, begin := 1, n;
          n := n + 1;
          continue;
        }
      } else if p[n] == '}' {
        fmt := p[begin + 1..n];
        LexFormatted(p, begin, n);
        status := 0;
        n := n + 1;
        return;
      }
      n := n + 1;
      if n == |p| && str == "" {
        str := p[1..];
        assert str == p[1..n];
      }
    }
    if status == 0 {
      LexBare(p, n);
    } else {
      LexOpen(p, begin);
    }
  }

  ghost predicate OpensFormat(p: string, e: int) {
    1 <= e < |p| && p[e] == '{' && forall k | 1 <= k < e :: NameChar(p[k])
  }

  lemma SpanIs(p: string, n: nat)
    requires n <= |p| && (n == |p| || !NameChar(p[n])) && forall k | 0 <= k < n :: NameChar(p[k])
    ensures Span(p) == n
  {
    if n > 0 {
      SpanIs(p[1..], n - 1);
    }
  }

  lemma UntilIs(p: string, n: nat)
    requires n <= |p| && (n == |p| || p[n] == '}') && forall k | 0 <= k < n :: p[k] != '}'
    ensures Until(p) == n
  {
    if n > 0 {
      UntilIs(p[1..], n - 1);
    }
  }

  lemma LexBare(p: string, e: nat)
    requires 1 <= e <= |p| && (e == |p| || (!NameChar(p[e]) && p[e] != '{'))
    requires forall k | 1 <= k < e :: NameChar(p[k])
    ensures Lex(p) == Bare(p[1..e])
  {
    SpanIs(p[1..], e - 1);
  }

  lemma LexFormatted(p: string, e: nat, c: nat)
    requires OpensFormat(p, e) && e < c < |p| && p[c] == '}' && forall k | e < k < c :: p[k] != '}'
    ensures Lex(p) == Braced(p[1..e], p[e + 1..c])
  {
    SpanIs(p[1..], e - 1);
    UntilIs(p[e + 1..], c - e - 1);
  }

  lemma LexOpen(p: string, e: nat)
    requires OpensFormat(p, e) && forall k | e < k < |p| :: p[k] != '}'
    ensures Lex(p) == Open
  {
    SpanIs(p[1..], e - 1);
    UntilIs(p[e + 1..], |p| - e - 1);
  }

  ghost function Prepend(vec: seq<Token>, error: bool, r: Scanned): Scanned {
    Scanned(vec + r.tokens, error || r.unclosed)
  }

  lemma PrependAfter(vec: seq<Token>, error: bool, pending: string, t: Token, r: Scanned)
    ensures Prepend(vec, error, After(pending, t, r)) == Prepend(vec + Flush(pending) + [t], error, r)
  {
    assert vec + (Flush(pending) + ([t] + r.tokens)) == vec + Flush(pending) + [t] + r.tokens;
  }

  /** A character that begins no directive goes to the pending text. */
  lemma PrependLiteral(vec: seq<Token>, error: bool, p: string, nstr: string)
    requires p != "" && (p[0] != '%' || (|p| > 1 && p[1] == '%'))
    ensures Prepend(vec, error, Scan(p, nstr)) == Prepend(vec, error, Scan(p[1..], nstr + [p[0]]))
  {
  }

  /** The same at a position of the pattern. */
  lemma LiteralAt(vec: seq<Token>, error: bool, pattern: string, i: nat, nstr: string)
    requires i < |pattern| && (pattern[i] != '%' || (i + 1 < |pattern| && pattern[i + 1] == '%'))
    ensures Prepend(vec, error, Scan(pattern[i..], nstr)) ==
            Prepend(vec, error, Scan(pattern[i + 1..], nstr + [pattern[i]]))
  {
    var p := pattern[i..];
    assert p[1..] == pattern[i + 1..] && p[0] == pattern[i];
    PrependLiteral(vec, error, p, nstr);
  }

  lemma PrependError(vec: seq<Token>, error: bool, ts: seq<Token>)
    ensures vec + ([PATTERN_ERROR] + ts) == vec + [PATTERN_ERROR] + ts
  {
  }
}
