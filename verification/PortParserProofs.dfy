/** The documented text form of a port spec, and its round trip through the parser. */
module PortParserProofs {
  import opened Prelude
  import opened Decimal
  import opened Ports
  import opened PortParser

  // ---------------------------------------------------------------- tokens

  predicate IsSpecial(c: char) {
    c == '[' || c == ']' || c == ':'
  }

  function KindOf(c: char): Kind {
    if c == '[' then Open else if c == ']' then Close else if c == ':' then Colon else Other
  }

  /** Brackets and colons are tokens of their own; any other token is a piece of text without them. */
  predicate IsToken(t: Token) {
    && t.text != ""
    && (t.kind != Other ==> |t.text| == 1 && KindOf(t.text[0]) == t.kind)
    && (t.kind == Other ==> forall i | 0 <= i < |t.text| :: !IsSpecial(t.text[i]))
  }

  function Text(toks: seq<Token>): string {
    if toks == [] then "" else toks[0].text + Text(toks[1..])
  }

  /** Any way of cutting `s` into tokens, wherever digits, letters and dots are cut. */
  ghost predicate Tokenizes(toks: seq<Token>, s: string) {
    && (forall i | 0 <= i < |toks| :: IsToken(toks[i]))
    && Text(toks) == s
  }

  predicate Free(s: string, c: char) {
    forall i | 0 <= i < |s| :: s[i] != c
  }

  /** The token list splits where the text has a bracket or a colon. */
  lemma {:induction false} SplitAt(toks: seq<Token>, a: string, c: char, b: string) returns (i: nat)
    requires IsSpecial(c) && Tokenizes(toks, a + [c] + b)
    ensures i < |toks| && toks[i].kind == KindOf(c)
    ensures Tokenizes(toks[..i], a) && Tokenizes(toks[i + 1..], b)
  {
    var s := a + [c] + b;
    var t := toks[0].text;
    assert s[..|t|] == t && s[|t|..] == Text(toks[1..]);
    if a == [] {
      i := 0;
      assert t[0] == c && s[1..] == b;
    } else {
      TokenFits(toks[0], s, |a|);
      assert s[|t|..] == a[|t|..] + [c] + b;
      var j := SplitAt(toks[1..], a[|t|..], c, b);
      i := j + 1;
      assert toks[..i][1..] == toks[1..][..j] && toks[i + 1..] == toks[1..][j + 1..];
      assert t + a[|t|..] == a;
    }
  }

  /** A token longer than one character ends before the next bracket or colon. */
  lemma TokenFits(t: Token, s: string, n: nat)
    requires IsToken(t) && t.text <= s && 0 < n < |s| && IsSpecial(s[n])
    ensures |t.text| <= n
  {
  }

  lemma NoText(toks: seq<Token>)
    requires Tokenizes(toks, "")
    ensures toks == []
  {
  }

  /** A character missing from the text has no token of its kind. */
  lemma {:induction false} NoKind(toks: seq<Token>, s: string, c: char)
    requires IsSpecial(c) && Tokenizes(toks, s) && Free(s, c)
    ensures forall i | 0 <= i < |toks| :: toks[i].kind != KindOf(c)
  {
    if toks != [] {
      var t := toks[0].text;
      assert s[0] == t[0] && s[|t|..] == Text(toks[1..]);
      NoKind(toks[1..], s[|t|..], c);
      assert forall i | 1 <= i < |toks| :: toks[i] == toks[1..][i - 1];
    }
  }

  // ---------------------------------------------------------------- the scan

  function Append(sc: Scanner, text: string): Scanner
    requires sc.index <= CHILD_PORT
  {
    sc.(parts := sc.parts[sc.index := sc.parts[sc.index] + text])
  }

  lemma AppendTwice(sc: Scanner, a: string, b: string)
    requires sc.index <= CHILD_PORT
    ensures Append(Append(sc, a), b) == Append(sc, a + b)
  {
    assert sc.parts[sc.index] + a + b == sc.parts[sc.index] + (a + b);
    assert Append(Append(sc, a), b).parts == Append(sc, a + b).parts;
  }

  /** The text of tokens without the opening brackets among them. */
  function Kept(toks: seq<Token>): string {
    if toks == [] then "" else (if toks[0].kind == Open then "" else toks[0].text) + Kept(toks[1..])
  }

  lemma {:induction false} KeptIs(toks: seq<Token>)
    requires forall i | 0 <= i < |toks| :: toks[i].kind != Open
    ensures Kept(toks) == Text(toks)
  {
    if toks != [] {
      KeptIs(toks[1..]);
    }
  }

  /** Tokens that do not end a component, inside brackets or outside them. */
  predicate Inside(toks: seq<Token>) {
    forall i | 0 <= i < |toks| :: toks[i].kind != Close
  }

  predicate OutsideBrackets(toks: seq<Token>) {
    forall i | 0 <= i < |toks| :: toks[i].kind != Open && toks[i].kind != Colon
  }

  /** Their text is appended to the current part; an opening bracket inside brackets is dropped. */
  lemma {:induction false} ScanRun(toks: seq<Token>, rest: seq<Token>, sc: Scanner)
    requires sc.index <= CHILD_PORT
    requires if sc.closing then Inside(toks) else OutsideBrackets(toks)
    ensures Scan(toks + rest, sc) == Scan(rest, Append(sc, Kept(toks)))
    decreases |toks|
  {
    if toks == [] {
      assert toks + rest == rest;
      assert sc.parts[sc.index] + "" == sc.parts[sc.index];
      assert Append(sc, "").parts == sc.parts;
    } else {
      assert (toks + rest)[1..] == toks[1..] + rest;
      if toks[0].kind == Open {
        ScanRun(toks[1..], rest, sc);
        assert "" + Kept(toks[1..]) == Kept(toks[1..]);
      } else {
        ScanRun(toks[1..], rest, Append(sc, toks[0].text));
        AppendTwice(sc, toks[0].text, Kept(toks[1..]));
      }
    }
  }

  // ---------------------------------------------------------------- any tokens at all

  /** How the tokens of a head begin: the first component, whether in brackets, and how it ends. */
  datatype Shape =
    | Last(pre: seq<Token>)
    | Delimited(pre: seq<Token>, colon: Token, rest: seq<Token>)
    | Unclosed(pre: seq<Token>, open: Token, inner: seq<Token>)
    | Enclosed(pre: seq<Token>, open: Token, inner: seq<Token>, close: Token, rest: seq<Token>)

  predicate HasShape(toks: seq<Token>, shape: Shape) {
    OutsideBrackets(shape.pre) &&
    match shape
    case Last(pre) => toks == pre
    case Delimited(pre, colon, rest) => colon.kind == Colon && toks == pre + [colon] + rest
    case Unclosed(pre, open, inner) => open.kind == Open && Inside(inner) && toks == pre + [open] + inner
    case Enclosed(pre, open, inner, close, rest) =>
      open.kind == Open && Inside(inner) && close.kind == Close && toks == pre + [open] + inner + [close] + rest
  }

  /** The tokens up to the first one of a kind, or all of them. */
  lemma {:induction false} FirstOf(toks: seq<Token>, kind: Kind, kind': Kind) returns (i: nat)
    ensures i <= |toks| && (forall k | 0 <= k < i :: toks[k].kind != kind && toks[k].kind != kind')
    ensures i < |toks| ==> toks[i].kind == kind || toks[i].kind == kind'
  {
    if toks == [] || toks[0].kind == kind || toks[0].kind == kind' {
      i := 0;
    } else {
      var j := FirstOf(toks[1..], kind, kind');
      assert forall k | 1 <= k < j + 1 :: toks[k] == toks[1..][k - 1];
      i := j + 1;
    }
  }

  /** Every list of tokens begins in one of the four ways. */
  lemma {:induction false} SomeShape(toks: seq<Token>) returns (shape: Shape)
    ensures HasShape(toks, shape)
  {
    var i := FirstOf(toks, Open, Colon);
    var pre := toks[..i];
    if i == |toks| {
      shape := Last(pre);
      assert pre == toks;
    } else if toks[i].kind == Colon {
      shape := Delimited(pre, toks[i], toks[i + 1..]);
      assert toks == pre + [toks[i]] + toks[i + 1..];
    } else {
      var after := toks[i + 1..];
      assert toks == pre + [toks[i]] + after;
      var j := FirstOf(after, Close, Close);
      if j == |after| {
        shape := Unclosed(pre, toks[i], after);
      } else {
        shape := Enclosed(pre, toks[i], after[..j], after[j], after[j + 1..]);
        assert after == after[..j] + [after[j]] + after[j + 1..];
        assert toks == pre + [toks[i]] + after[..j] + [after[j]] + after[j + 1..];
      }
    }
  }

  /**
   * What the scan makes of the first component, for any tokens: its text without the brackets goes to
   * the current part; a colon ends it outside brackets, a closing bracket inside them, and then one
   * more token is dropped whatever it is; without either it is the last one.
   */
  lemma {:induction false} ScanShape(toks: seq<Token>, sc: Scanner, shape: Shape)
    requires HasShape(toks, shape) && sc.index <= CHILD_PORT && !sc.closing
    ensures match shape
            case Last(pre) => Scan(toks, sc) == Some(Append(sc, Kept(pre)))
            case Delimited(pre, _, rest) => Scan(toks, sc) == Scan(rest, Append(sc, Kept(pre)).(index := sc.index + 1))
            case Unclosed(pre, _, inner) =>
              Scan(toks, sc) == Some(Append(Append(sc, Kept(pre)), Kept(inner)).(closing := true))
            case Enclosed(pre, _, inner, _, rest) =>
              Scan(toks, sc) == Scan(if rest == [] then [] else rest[1..],
                                     Append(Append(sc, Kept(pre)), Kept(inner)).(index := sc.index + 1))
  {
    match shape
    case Last(pre) =>
      ScanRun(pre, [], sc);
      assert pre + [] == toks;
    case Delimited(pre, colon, rest) =>
      ScanRun(pre, [colon] + rest, sc);
      assert toks == pre + ([colon] + rest) && ([colon] + rest)[1..] == rest;
    case Unclosed(pre, open, inner) => ScanUnclosed(sc, pre, open, inner);
    case Enclosed(pre, open, inner, close, rest) => ScanEnclosed(sc, pre, open, inner, close, rest);
  }

  lemma ScanOpened(sc: Scanner, pre: seq<Token>, open: Token, after: seq<Token>)
    requires OutsideBrackets(pre) && open.kind == Open && sc.index <= CHILD_PORT && !sc.closing
    ensures Scan(pre + ([open] + after), sc) == Scan(after, Append(sc, Kept(pre)).(closing := true))
  {
    ScanRun(pre, [open] + after, sc);
    assert ([open] + after)[1..] == after;
  }

  lemma ScanUnclosed(sc: Scanner, pre: seq<Token>, open: Token, inner: seq<Token>)
    requires OutsideBrackets(pre) && open.kind == Open && Inside(inner) && sc.index <= CHILD_PORT && !sc.closing
    ensures Scan(pre + [open] + inner, sc) == Some(Append(Append(sc, Kept(pre)), Kept(inner)).(closing := true))
  {
    ScanOpened(sc, pre, open, inner);
    assert pre + [open] + inner == pre + ([open] + inner);
    ScanRun(inner, [], Append(sc, Kept(pre)).(closing := true));
    assert inner + [] == inner;
  }

  lemma ScanEnclosed(sc: Scanner, pre: seq<Token>, open: Token, inner: seq<Token>, close: Token, rest: seq<Token>)
    requires OutsideBrackets(pre) && open.kind == Open && Inside(inner) && close.kind == Close
    requires sc.index <= CHILD_PORT && !sc.closing
    ensures Scan(pre + [open] + inner + [close] + rest, sc)
         == Scan(if rest == [] then [] else rest[1..], Append(Append(sc, Kept(pre)), Kept(inner)).(index := sc.index + 1))
  {
    var after, last := inner + ([close] + rest), [close] + rest;
    var sc1 := Append(sc, Kept(pre)).(closing := true);
    ScanOpened(sc, pre, open, after);
    ScanRun(inner, last, sc1);
    ScanClosed(Append(sc1, Kept(inner)), close, rest);
    Regroup(pre, [open], inner, [close], rest);
    hide Scan, OutsideBrackets, Inside, Kept, Append;
  }

  lemma Regroup(a: seq<Token>, b: seq<Token>, c: seq<Token>, d: seq<Token>, e: seq<Token>)
    ensures a + b + c + d + e == a + (b + (c + (d + e)))
  {
  }

  lemma ScanClosed(sc: Scanner, close: Token, rest: seq<Token>)
    requires close.kind == Close && sc.index <= CHILD_PORT && sc.closing
    ensures Scan([close] + rest, sc) == Scan(if rest == [] then [] else rest[1..], sc.(closing := false, index := sc.index + 1))
  {
    var toks := [close] + rest;
    assert toks[1..] == rest && (rest != [] ==> toks[2..] == rest[1..]);
  }

  /** Beyond the fourth part, anything more is refused. */
  lemma ScanFull(toks: seq<Token>, sc: Scanner)
    requires sc.index > CHILD_PORT
    ensures Scan(toks, sc) == if toks == [] then Some(sc) else None
  {
  }

  // ---------------------------------------------------------------- one component of a text

  lemma ScanPlain(toks: seq<Token>, sc: Scanner, text: string, tail: string)
    returns (rest: seq<Token>, sc': Scanner)
    requires sc.index <= CHILD_PORT && !sc.closing
    requires Free(text, '[') && Free(text, ':')
    requires tail == "" || tail[0] == ':'
    requires Tokenizes(toks, text + tail)
    ensures Scan(toks, sc) == Scan(rest, sc')
    ensures sc'.parts == Append(sc, text).parts && !sc'.closing
    ensures tail == "" ==> rest == []
    ensures tail != "" ==> sc'.index == sc.index + 1 && Tokenizes(rest, tail[1..])
  {
    if tail == "" {
      assert text + tail == text;
      PlainTokens(toks, text);
      ScanShape(toks, sc, Last(toks));
      rest, sc' := [], Append(sc, text);
    } else {
      assert text + tail == text + [':'] + tail[1..];
      var i := SplitAt(toks, text, ':', tail[1..]);
      PlainTokens(toks[..i], text);
      assert toks == toks[..i] + [toks[i]] + toks[i + 1..];
      ScanShape(toks, sc, Delimited(toks[..i], toks[i], toks[i + 1..]));
      rest, sc' := toks[i + 1..], Append(sc, text).(index := sc.index + 1);
    }
  }

  lemma PlainTokens(toks: seq<Token>, text: string)
    requires Tokenizes(toks, text) && Free(text, '[') && Free(text, ':')
    ensures OutsideBrackets(toks) && Kept(toks) == text
  {
    NoKind(toks, text, ':');
    NoKind(toks, text, '[');
    KeptIs(toks);
  }

  lemma ScanBracketed(toks: seq<Token>, sc: Scanner, text: string, tail: string)
    returns (rest: seq<Token>, sc': Scanner)
    requires sc.index <= CHILD_PORT && !sc.closing
    requires Free(text, '[') && Free(text, ']')
    requires tail == "" || tail[0] == ':'
    requires Tokenizes(toks, "[" + text + "]" + tail)
    ensures Scan(toks, sc) == Scan(rest, sc')
    ensures sc'.parts == Append(sc, text).parts && !sc'.closing
    ensures tail == "" ==> rest == []
    ensures tail != "" ==> sc'.index == sc.index + 1 && Tokenizes(rest, tail[1..])
  {
    assert "[" + text + "]" + tail == "" + ['['] + (text + [']'] + tail);
    var i := SplitAt(toks, "", '[', text + [']'] + tail);
    NoText(toks[..i]);
    var inner := toks[1..];
    var j := SplitAt(inner, text, ']', tail);
    NoKind(inner[..j], text, ']');
    NoKind(inner[..j], text, '[');
    KeptIs(inner[..j]);
    var after := inner[j + 1..];
    assert toks == [] + [toks[0]] + inner[..j] + [inner[j]] + after;
    ScanShape(toks, sc, Enclosed([], toks[0], inner[..j], inner[j], after));
    assert "" + text == text;
    AppendTwice(sc, "", text);
    rest := AfterBracket(after, tail);
    sc' := Append(sc, text).(index := sc.index + 1);
  }

  /** The token dropped after a closing bracket is the colon, if there is one. */
  lemma AfterBracket(toks: seq<Token>, tail: string) returns (rest: seq<Token>)
    requires tail == "" || tail[0] == ':'
    requires Tokenizes(toks, tail)
    ensures rest == if toks == [] then [] else toks[1..]
    ensures tail == "" ==> rest == []
    ensures tail != "" ==> Tokenizes(rest, tail[1..])
  {
    if tail == "" {
      NoText(toks);
      rest := [];
    } else {
      assert tail == "" + [':'] + tail[1..];
      var k := SplitAt(toks, "", ':', tail[1..]);
      NoText(toks[..k]);
      rest := toks[1..];
    }
  }

  // ---------------------------------------------------------------- components

  /** One component of a head: an address or a port, in brackets or not. */
  datatype Comp = Comp(text: string, bracketed: bool)

  function Shown(c: Comp): string {
    if c.bracketed then "[" + c.text + "]" else c.text
  }

  /** Brackets stand around a component only, and a colon only within them. */
  predicate Legal(c: Comp) {
    Free(c.text, '[') && Free(c.text, ']') && (c.bracketed || Free(c.text, ':'))
  }

  predicate AllLegal(comps: seq<Comp>) {
    forall i | 0 <= i < |comps| :: Legal(comps[i])
  }

  function Join(comps: seq<Comp>): string
    requires comps != []
  {
    if |comps| == 1 then Shown(comps[0]) else Shown(comps[0]) + (":" + Join(comps[1..]))
  }

  function Nth(comps: seq<Comp>, i: int): string {
    if 0 <= i < |comps| then comps[i].text else ""
  }

  lemma ScanOne(toks: seq<Token>, sc: Scanner, c: Comp, tail: string)
    returns (rest: seq<Token>, sc': Scanner)
    requires sc.index <= CHILD_PORT && !sc.closing && Legal(c)
    requires tail == "" || tail[0] == ':'
    requires Tokenizes(toks, Shown(c) + tail)
    ensures Scan(toks, sc) == Scan(rest, sc')
    ensures sc'.parts == Append(sc, c.text).parts && !sc'.closing
    ensures tail == "" ==> rest == []
    ensures tail != "" ==> sc'.index == sc.index + 1 && Tokenizes(rest, tail[1..])
  {
    if c.bracketed {
      rest, sc' := ScanBracketed(toks, sc, c.text, tail);
    } else {
      rest, sc' := ScanPlain(toks, sc, c.text, tail);
    }
  }

  /**
   * A head is refused exactly when something is scanned beyond the fourth part. A component in fourth
   * place is appended to the child port, which that part already holds.
   */
  lemma {:induction false} ScanComponents(toks: seq<Token>, sc: Scanner, comps: seq<Comp>)
    requires comps != [] && AllLegal(comps)
    requires Tokenizes(toks, Join(comps)) && sc.index <= 4 && !sc.closing
    ensures var r, room := Scan(toks, sc), 4 - sc.index;
            && (r == None <==> |comps| > room + 1 || (|comps| == room + 1 && Shown(comps[room]) != ""))
            && (r.Some? ==> forall k | 0 <= k < 4 :: r.value.parts[k] == sc.parts[k] + Nth(comps, k - sc.index))
    decreases |comps|
  {
    if sc.index == 4 {
      assert toks == [] <==> Text(toks) == "";
    } else if |comps| == 1 {
      assert Shown(comps[0]) + "" == Shown(comps[0]);
      var rest, sc' := ScanOne(toks, sc, comps[0], "");
    } else {
      var tail := ":" + Join(comps[1..]);
      var rest, sc' := ScanOne(toks, sc, comps[0], tail);
      assert tail[1..] == Join(comps[1..]);
      ScanComponents(rest, sc', comps[1..]);
      var r := Scan(toks, sc);
      if r.Some? {
        forall k | 0 <= k < 4
          ensures r.value.parts[k] == sc.parts[k] + Nth(comps, k - sc.index)
        {
          assert r.value.parts[k] == sc'.parts[k] + Nth(comps[1..], k - sc'.index);
          assert sc.parts[k] + comps[0].text + "" == sc.parts[k] + comps[0].text;
        }
      }
    }
  }

  /** What the parts hold after a head of at most five components, the fifth empty. */
  function Filled(comps: seq<Comp>, childPort: string): Parts {
    [Nth(comps, 0), Nth(comps, 1), Nth(comps, 2), childPort + Nth(comps, 3)]
  }

  predicate TooMany(comps: seq<Comp>) {
    |comps| > 5 || (|comps| == 5 && Shown(comps[4]) != "")
  }

  lemma FilledIs(parts: Parts, comps: seq<Comp>, childPort: string)
    requires forall k | 0 <= k < 4 :: parts[k] == Initial(childPort).parts[k] + Nth(comps, k)
    ensures parts == Filled(comps, childPort)
  {
    var initial: seq<string> := Initial(childPort).parts;
    assert initial[0] == "" && initial[1] == "" && initial[2] == "" && initial[3] == childPort;
    assert parts[0] == "" + Nth(comps, 0) == Nth(comps, 0);
    assert parts[1] == "" + Nth(comps, 1) == Nth(comps, 1);
    assert parts[2] == "" + Nth(comps, 2) == Nth(comps, 2);
    assert parts[3] == childPort + Nth(comps, 3);
  }

  lemma ScanHeadOf(toks: seq<Token>, comps: seq<Comp>, childPort: string)
    requires comps != [] && AllLegal(comps)
    requires Tokenizes(toks, Join(comps))
    ensures Scan(toks, Initial(childPort)) == None <==> TooMany(comps)
    ensures !TooMany(comps) ==> Scan(toks, Initial(childPort)).value.parts == Filled(comps, childPort)
  {
    ScanComponents(toks, Initial(childPort), comps);
    if !TooMany(comps) {
      FilledIs(Scan(toks, Initial(childPort)).value.parts, comps, childPort);
    }
  }

  // ---------------------------------------------------------------- the round trip

  predicate IsIPChar(c: char) {
    '0' <= c <= '9' || 'a' <= c <= 'f' || 'A' <= c <= 'F' || c == '.' || c == ':'
  }

  /** An address net.ParseIP accepts, or none; such an address has only hexadecimal digits, dots and colons. */
  predicate IsAddress(ip: string, validIP: string -> bool) {
    ip == "" || (validIP(ip) && forall i | 0 <= i < |ip| :: IsIPChar(ip[i]))
  }

  predicate Printable(spec: Spec, validIP: string -> bool) {
    && KnownProto(spec.proto)
    && IsAddress(spec.parentIP, validIP)
    && IsAddress(spec.childIP, validIP)
    && MIN_INT <= spec.parentPort <= MAX_INT
    && MIN_INT <= spec.childPort <= MAX_INT
  }

  /** An address with colons in it needs brackets. */
  function Address(ip: string): Comp {
    Comp(ip, !Free(ip, ':'))
  }

  /** What precedes the child port; there is no child IP unless the spec has one. */
  function HeadComps(ip: string, port: string, childIP: string): seq<Comp> {
    [Address(ip), Comp(port, false)] + if childIP == "" then [] else [Address(childIP)]
  }

  /** <parent IP>:<parent port>[:<child IP>] */
  function PrintHead(spec: Spec): string {
    Join(HeadComps(spec.parentIP, Itoa(spec.parentPort), spec.childIP))
  }

  /** <parent IP>:<parent port>[:<child IP>]:<child port>/<proto> */
  function Print(spec: Spec): string {
    PrintHead(spec) + ":" + Itoa(spec.childPort) + "/" + spec.proto
  }

  /** That is the documented form. */
  lemma PrintForm(spec: Spec)
    ensures Print(spec) ==
              Shown(Address(spec.parentIP)) + (":" + (Itoa(spec.parentPort)
              + if spec.childIP == "" then "" else ":" + Shown(Address(spec.childIP))))
              + ":" + Itoa(spec.childPort) + "/" + spec.proto
  {
    var comps := HeadComps(spec.parentIP, Itoa(spec.parentPort), spec.childIP);
    var port := Comp(Itoa(spec.parentPort), false);
    if spec.childIP == "" {
      assert comps[1..] == [port] && Join([port]) == Itoa(spec.parentPort);
    } else {
      var child := Address(spec.childIP);
      assert comps[1..] == [port, child] && [port, child][1..] == [child];
      assert Join([port, child]) == Itoa(spec.parentPort) + (":" + Shown(child));
    }
    assert PrintHead(spec) == Shown(comps[0]) + (":" + Join(comps[1..]));
  }

  /** The last index is the only one after which the character is missing. */
  lemma LastIndexIs(s: string, a: string, c: char, b: string)
    requires s == a + [c] + b && Free(b, c)
    ensures LastIndex(s, c) == |a|
  {
    assert s[|a|] == c;
    assert forall i | |a| < i < |s| :: s[i] == b[i - |a| - 1];
  }

  lemma ItoaFree(n: int, c: char)
    requires c != '-' && !IsDigit(c)
    ensures Free(Itoa(n), c)
  {
    ItoaChars(n);
  }

  /** The parser finds the protocol, the child port and the head again. */
  lemma PrintedParts(s: string, head: string, childPort: string, proto: string)
    requires s == head + ":" + childPort + "/" + proto
    requires Free(childPort, ':') && Free(proto, ':') && Free(proto, '/')
    ensures LastIndex(s, ':') == |head| < LastIndex(s, '/') == |head| + 1 + |childPort|
    ensures s[..|head|] == head
    ensures s[|head| + 1..LastIndex(s, '/')] == childPort
    ensures s[LastIndex(s, '/') + 1..] == proto
  {
    LastIndexIs(s, head + ":" + childPort, '/', proto);
    assert s == head + [':'] + (childPort + "/" + proto);
    LastIndexIs(s, head, ':', childPort + "/" + proto);
  }

  /** The scan of a printed head fills the four parts with the components it was printed from. */
  lemma ScanHead(toks: seq<Token>, ip: string, port: string, childIP: string, childPort: string)
    requires Free(ip, '[') && Free(ip, ']') && Free(childIP, '[') && Free(childIP, ']')
    requires Free(port, '[') && Free(port, ']') && Free(port, ':')
    requires Tokenizes(toks, Join(HeadComps(ip, port, childIP)))
    ensures Scan(toks, Initial(childPort)).Some?
    ensures Scan(toks, Initial(childPort)).value.parts == [ip, port, childIP, childPort]
  {
    var comps := HeadComps(ip, port, childIP);
    assert comps[0] == Address(ip) && comps[1] == Comp(port, false);
    assert childIP != "" ==> comps[2] == Address(childIP);
    hide Scan, Tokenizes, Join;
    ScanHeadOf(toks, comps, childPort);
    assert childPort + "" == childPort;
  }

  lemma FinishPrinted(sc: Scanner, spec: Spec, validIP: string -> bool)
    requires Printable(spec, validIP)
    requires sc.parts == [spec.parentIP, Itoa(spec.parentPort), spec.childIP, Itoa(spec.childPort)]
    ensures Finish(sc, spec.proto, validIP) == Ok(spec)
  {
    AtoiItoa(spec.parentPort);
    AtoiItoa(spec.childPort);
  }

  /** Parse, once the protocol and the child port have been found. */
  lemma ParsePrinted(s: string, head: string, childPort: string, proto: string, toks: seq<Token>, validIP: string -> bool)
    requires s == head + ":" + childPort + "/" + proto
    requires Free(childPort, ':') && KnownProto(proto)
    ensures Prefix(s) == head
    ensures var r := Scan(toks, Initial(childPort));
            Parse(s, toks, validIP) == if r == None then Err(Unexpected) else Finish(r.value, proto, validIP)
  {
    KnownProtoChars(proto);
    PrintedParts(s, head, childPort, proto);
  }

  /** Parsing a printed spec returns the spec, whichever way the tokenizer cuts its head. */
  lemma {:induction false} RoundTrip(spec: Spec, validIP: string -> bool, toks: seq<Token>)
    requires Printable(spec, validIP)
    requires Tokenizes(toks, Prefix(Print(spec)))
    ensures Parse(Print(spec), toks, validIP) == Ok(spec)
  {
    var pp, cp := Itoa(spec.parentPort), Itoa(spec.childPort);
    ItoaFree(spec.parentPort, ':');
    ItoaFree(spec.parentPort, '[');
    ItoaFree(spec.parentPort, ']');
    ItoaFree(spec.childPort, ':');
    ParsePrinted(Print(spec), PrintHead(spec), cp, spec.proto, toks, validIP);
    ScanHead(toks, spec.parentIP, pp, spec.childIP, cp);
    FinishPrinted(Scan(toks, Initial(cp)).value, spec, validIP);
  }

  /** Two printable specs never share a text form. */
  lemma PrintInjective(a: Spec, b: Spec, validIP: string -> bool)
    requires Printable(a, validIP) && Printable(b, validIP) && Print(a) == Print(b)
    ensures a == b
  {
    var toks := Cut(Prefix(Print(a)));
    RoundTrip(a, validIP, toks);
    RoundTrip(b, validIP, toks);
  }

  /** The finest tokenization, one token a character. */
  ghost function Cut(s: string): (toks: seq<Token>)
    ensures Tokenizes(toks, s)
  {
    if s == "" then [] else
      var rest := Cut(s[1..]);
      var toks := [Token(KindOf(s[0]), [s[0]])] + rest;
      assert toks[1..] == rest;
      toks
  }

  // ---------------------------------------------------------------- the documented count

  /**
   * What a text of components is read as, and when it is refused. The documented count of four or five
   * components is not enforced: a text is refused for its length exactly when more than four precede
   * the child port, an empty fifth one aside; the fourth is read as the last digits of the child port.
   */
  lemma {:induction false} ParseComponents(comps: seq<Comp>, childPort: string, proto: string, toks: seq<Token>, validIP: string -> bool)
    requires comps != [] && AllLegal(comps)
    requires Free(childPort, ':') && KnownProto(proto)
    requires Tokenizes(toks, Join(comps))
    ensures var r := Parse(Join(comps) + ":" + childPort + "/" + proto, toks, validIP);
            var parentIP, childIP := Nth(comps, 0), Nth(comps, 2);
            var parentPort, port := Atoi(Nth(comps, 1)), Atoi(childPort + Nth(comps, 3));
            && (r.Ok? <==> !TooMany(comps) && (parentIP == "" || validIP(parentIP)) && (childIP == "" || validIP(childIP))
                           && parentPort.Some? && port.Some?)
            && (r.Ok? ==> r.value == Spec(proto, parentIP, parentPort.value, childIP, port.value))
            && (r.Err? ==> r.error == if TooMany(comps) then Unexpected
                                      else if parentIP != "" && !validIP(parentIP) then BadParentIP
                                      else if childIP != "" && !validIP(childIP) then BadChildIP
                                      else if parentPort == None then BadParentPort
                                      else BadChildPort)
  {
    var s := Join(comps) + ":" + childPort + "/" + proto;
    ParsePrinted(s, Join(comps), childPort, proto, toks, validIP);
    ScanHeadOf(toks, comps, childPort);
  }

  // ---------------------------------------------------------------- any text

  /** A character is missing exactly when it has no last index. */
  lemma NoLastIndex(s: string, c: char)
    ensures LastIndex(s, c) < 0 <==> c !in s
  {
  }

  lemma FinishSound(sc: Scanner, proto: string, validIP: string -> bool)
    ensures var r := Finish(sc, proto, validIP);
            r.Ok? ==>
              && r.value.proto == proto
              && (r.value.parentIP == "" || validIP(r.value.parentIP))
              && (r.value.childIP == "" || validIP(r.value.childIP))
              && MIN_INT <= r.value.parentPort <= MAX_INT && MIN_INT <= r.value.childPort <= MAX_INT
  {
  }

  /** The text after the last slash is a protocol. */
  ghost predicate EndsIn(portSpec: string, proto: string) {
    Free(proto, '/') && exists head :: portSpec == head + "/" + proto
  }

  lemma EndsInIs(portSpec: string, proto: string)
    ensures EndsIn(portSpec, proto) <==> '/' in portSpec && proto == portSpec[LastIndex(portSpec, '/') + 1..]
  {
    NoLastIndex(portSpec, '/');
    var slash := LastIndex(portSpec, '/');
    if slash >= 0 {
      assert portSpec == portSpec[..slash] + "/" + portSpec[slash + 1..];
      assert Free(portSpec[slash + 1..], '/');
    }
    if EndsIn(portSpec, proto) {
      var head :| portSpec == head + "/" + proto;
      LastIndexIs(portSpec, head, '/', proto);
      assert portSpec[|head|] == '/';
    }
  }

  /** For any text and any tokens: the first refusals are exact, and a text without a colon is refused at the latest then. */
  lemma {:induction false} ParseRefuses(portSpec: string, toks: seq<Token>, validIP: string -> bool)
    ensures Parse(portSpec, toks, validIP) == Err(MissingProto) <==> '/' !in portSpec
    ensures Parse(portSpec, toks, validIP) == Err(BadProto) <==>
              exists proto :: EndsIn(portSpec, proto) && !KnownProto(proto)
    ensures ':' !in portSpec ==> Parse(portSpec, toks, validIP) in {Err(MissingProto), Err(BadProto), Err(Unexpected)}
  {
    NoLastIndex(portSpec, '/');
    NoLastIndex(portSpec, ':');
    forall proto
      ensures EndsIn(portSpec, proto) <==> '/' in portSpec && proto == portSpec[LastIndex(portSpec, '/') + 1..]
    {
      EndsInIs(portSpec, proto);
    }
    hide Scan, Atoi, LastIndex, KnownProto, EndsIn;
  }

  /** For any text and any tokens: what an accepted text guarantees. */
  lemma {:induction false} ParseSound(portSpec: string, toks: seq<Token>, validIP: string -> bool)
    requires Parse(portSpec, toks, validIP).Ok?
    ensures var spec := Parse(portSpec, toks, validIP).value;
            && EndsIn(portSpec, spec.proto) && KnownProto(spec.proto) && ':' in portSpec
            && (spec.parentIP == "" || validIP(spec.parentIP))
            && (spec.childIP == "" || validIP(spec.childIP))
            && MIN_INT <= spec.parentPort <= MAX_INT && MIN_INT <= spec.childPort <= MAX_INT
  {
    NoLastIndex(portSpec, '/');
    NoLastIndex(portSpec, ':');
    var proto := portSpec[LastIndex(portSpec, '/') + 1..];
    EndsInIs(portSpec, proto);
    ColonBeforeSlash(portSpec);
    var sc := Scan(toks, Initial(portSpec[LastIndex(portSpec, ':') + 1..LastIndex(portSpec, '/')])).value;
    FinishSound(sc, proto, validIP);
    hide Scan, Finish, LastIndex, KnownProto, EndsIn;
  }

  // ---------------------------------------------------------------- two texts that are accepted

  /** No parent address, port 8, no child address, and one component too many. */
  function FourComps(): seq<Comp> {
    [Comp("", false), Comp("8", false), Comp("", false), Comp("9", false)]
  }

  lemma FourComponents()
    ensures Join(FourComps()) == ":8::9"
    ensures Filled(FourComps(), "1") == ["", "8", "", "19"]
  {
    var comps := FourComps();
    assert comps[1..][1..] == comps[2..] && comps[2..][1..] == comps[3..];
    assert Join(comps[3..]) == "9" && Join(comps[2..]) == ":9" && Join(comps[1..]) == "8::9";
    assert "1" + "9" == "19";
  }

  lemma Ports8And19()
    ensures Atoi("8") == Some(8) && Atoi("19") == Some(19)
  {
    assert Itoa(8) == "8" && Itoa(19) == "19";
    AtoiItoa(8);
    AtoiItoa(19);
  }

  /** A text with a port too many that is accepted: its child port is read as 19. */
  lemma ExtraComponentAccepted(toks: seq<Token>, validIP: string -> bool)
    requires Tokenizes(toks, ":8::9")
    ensures Parse(":8::9" + ":" + "1" + "/" + "tcp", toks, validIP) == Ok(Spec("tcp", "", 8, "", 19))
  {
    FourComponents();
    Ports8And19();
    ParseComponents(FourComps(), "1", "tcp", toks, validIP);
  }

  /** The tokens of "[::1]-8": the character after the bracket is dropped as if it were the colon. */
  function DashTokens(): seq<Token> {
    [Token(Open, "["), Token(Colon, ":"), Token(Colon, ":"), Token(Other, "1"), Token(Close, "]"), Token(Other, "-"), Token(Other, "8")]
  }

  lemma DashScanned(childPort: string)
    ensures Text(DashTokens()) == "[::1]-8"
    ensures Scan(DashTokens(), Initial(childPort)).Some?
    ensures Scan(DashTokens(), Initial(childPort)).value.parts == ["::1", "8", "", childPort]
  {
    var t := DashTokens();
    var sc := Initial(childPort);
    TextOfDash();
    assert t == [] + [t[0]] + t[1..4] + [t[4]] + t[5..];
    ScanShape(t, sc, Enclosed([], t[0], t[1..4], t[4], t[5..]));
    assert t[1..4][1..] == t[2..4] && t[2..4][1..] == t[3..4] && t[3..4][1..] == [];
    assert Kept(t[3..4]) == "1" && Kept(t[2..4]) == ":1" && Kept(t[1..4]) == "::1";
    var sc1 := Append(Append(sc, ""), "::1").(index := 1);
    assert "" + "" == "" && "" + "::1" == "::1";
    assert sc1.parts == ["::1", "", "", childPort];
    assert t[5..][1..] == [t[6]] && Kept([t[6]]) == "8";
    ScanShape([t[6]], sc1, Last([t[6]]));
    assert "" + "8" == "8";
    assert Append(sc1, "8").parts == ["::1", "8", "", childPort];
  }

  lemma TextOfDash()
    ensures Text(DashTokens()) == "[::1]-8"
  {
    var t := DashTokens();
    assert t[1..][1..] == t[2..] && t[2..][1..] == t[3..] && t[3..][1..] == t[4..] && t[4..][1..] == t[5..] && t[5..][1..] == t[6..];
    assert Text(t[6..]) == "8" && Text(t[5..]) == "-8" && Text(t[4..]) == "]-8" && Text(t[3..]) == "1]-8";
    assert Text(t[2..]) == ":1]-8" && Text(t[1..]) == "::1]-8";
  }

  /** A text without the colon after the bracket that is accepted. */
  lemma SeparatorUnchecked(validIP: string -> bool)
    requires validIP("::1")
    ensures Tokenizes(DashTokens(), Prefix("[::1]-8" + ":" + "19" + "/" + "tcp"))
    ensures Parse("[::1]-8" + ":" + "19" + "/" + "tcp", DashTokens(), validIP) == Ok(Spec("tcp", "::1", 8, "", 19))
  {
    DashScanned("19");
    Ports8And19();
    DashTokenized();
    hide DashTokens, Atoi;
    ParsePrinted("[::1]-8" + ":" + "19" + "/" + "tcp", "[::1]-8", "19", "tcp", DashTokens(), validIP);
  }

  lemma DashTokenized()
    ensures Tokenizes(DashTokens(), "[::1]-8")
  {
    TextOfDash();
    hide Text;
  }
}
