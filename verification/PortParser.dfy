/** The scanner loop that parses the text form of a port spec. */
module PortParser {
  import opened Prelude
  import opened Decimal
  import opened Ports

  /** How the loop classifies a token of text/scanner: by its rune, if it is a bracket or a colon. */
  datatype Kind = Open | Close | Colon | Other

  datatype Token = Token(kind: Kind, text: string)

  datatype ParseError =
    | MissingProto
    | BadProto
    | Unexpected
    | BadParentIP
    | BadChildIP
    | BadParentPort
    | BadChildPort

  const PARENT_IP := 0
  const PARENT_PORT := 1
  const CHILD_IP := 2
  const CHILD_PORT := 3

  /** strings.LastIndex for a single character. */
  function LastIndex(s: string, c: char): (i: int)
    ensures -1 <= i < |s|
    ensures i >= 0 ==> s[i] == c
    ensures forall j | i < j < |s| :: s[j] != c
  {
    if s == [] then -1
    else if s[|s| - 1] == c then |s| - 1
    else LastIndex(s[..|s| - 1], c)
  }

  type Parts = p: seq<string> | |p| == 4 witness ["", "", "", ""]

  /** The loop's variables: `closing` says that the current delimiter is a closing bracket. */
  datatype Scanner = Scanner(parts: Parts, index: nat, closing: bool)

  predicate IsDelimiter(kind: Kind, closing: bool) {
    if closing then kind == Close else kind == Colon
  }

  /** The scan loop over the tokens still to come; None is its early error return. */
  function Scan(toks: seq<Token>, sc: Scanner): Option<Scanner>
    decreases |toks|
  {
    if toks == [] then Some(sc)
    else if sc.index > CHILD_PORT then None
    else if toks[0].kind == Open then Scan(toks[1..], sc.(closing := true))
    else if IsDelimiter(toks[0].kind, sc.closing) then
      // after a closing bracket one more token is dropped, whatever it is
      var rest := if sc.closing && |toks| > 1 then toks[2..] else toks[1..];
      Scan(rest, sc.(closing := false, index := sc.index + 1))
    else
      Scan(toks[1..], sc.(parts := sc.parts[sc.index := sc.parts[sc.index] + toks[0].text]))
  }

  /** The text handed to the tokenizer: everything before the last colon. */
  function Prefix(portSpec: string): string {
    portSpec[..if LastIndex(portSpec, ':') < 0 then 0 else LastIndex(portSpec, ':')]
  }

  function Initial(childPort: string): Scanner {
    Scanner(["", "", "", childPort], PARENT_IP, false)
  }

  function Finish(sc: Scanner, proto: string, validIP: string -> bool): Result<Spec, ParseError>
  {
    if sc.parts[PARENT_IP] != "" && !validIP(sc.parts[PARENT_IP]) then Err(BadParentIP)
    else if sc.parts[CHILD_IP] != "" && !validIP(sc.parts[CHILD_IP]) then Err(BadChildIP)
    else
      match (Atoi(sc.parts[PARENT_PORT]), Atoi(sc.parts[CHILD_PORT]))
      case (None, _) => Err(BadParentPort)
      case (Some(_), None) => Err(BadChildPort)
      case (Some(pp), Some(cp)) =>
        Ok(Spec(proto, sc.parts[PARENT_IP], pp, sc.parts[CHILD_IP], cp))
  }

  /** A known protocol contains neither a colon nor a slash. */
  lemma KnownProtoChars(proto: string)
    requires KnownProto(proto)
    ensures forall i | 0 <= i < |proto| :: proto[i] != ':' && proto[i] != '/'
  {
  }

  /** Accepting the protocol puts the last colon before the last slash, which the child port's slice needs. */
  lemma ColonBeforeSlash(portSpec: string)
    requires LastIndex(portSpec, '/') >= 0 && KnownProto(portSpec[LastIndex(portSpec, '/') + 1..])
    ensures LastIndex(portSpec, ':') < LastIndex(portSpec, '/')
  {
  }

  /** What ParsePortSpec returns for a text and the tokens its prefix is split into. */
  function Parse(portSpec: string, toks: seq<Token>, validIP: string -> bool): Result<Spec, ParseError> {
    var protoPos := LastIndex(portSpec, '/');
    var portPos := LastIndex(portSpec, ':');
    if protoPos < 0 then Err(MissingProto)
    else if !KnownProto(portSpec[protoPos + 1..]) then Err(BadProto)
    else if portPos < 0 then Err(Unexpected)
    else
      ColonBeforeSlash(portSpec);
      match Scan(toks, Initial(portSpec[portPos + 1..protoPos]))
      case None => Err(Unexpected)
      case Some(sc) => Finish(sc, portSpec[protoPos + 1..], validIP)
  }

  /**
   * The parser. It takes any text and any token list, so that verifying its body shows that no
   * index or slice is ever out of range, whatever the tokenizer does.
   */
  method ParsePortSpec(portSpec: string, toks: seq<Token>, validIP: string -> bool) returns (r: Result<Spec, ParseError>)
    ensures r == Parse(portSpec, toks, validIP)
  {
    var parts := ["", "", "", "", ""];
    var index := PARENT_IP;
    var closing := false;

    var protoPos := LastIndex(portSpec, '/');
    if protoPos < 0 {
      return Err(MissingProto);
    }
    var proto := portSpec[protoPos + 1..];
    if !KnownProto(proto) {
      return Err(BadProto);
    }
    parts := parts[4 := proto];

    var portPos := LastIndex(portSpec, ':');
    if portPos < 0 {
      return Err(Unexpected);
    }
    ColonBeforeSlash(portSpec);
    parts := parts[CHILD_PORT := portSpec[portPos + 1..protoPos]];

    ghost var start := Initial(portSpec[portPos + 1..protoPos]);
    assert parts[..4] == start.parts;
    var k := 0;
    while k < |toks|
      invariant 0 <= k <= |toks|
      invariant 0 <= index
      invariant |parts| == 5 && parts[4] == proto
      invariant Scan(toks[k..], Scanner(parts[..4], index, closing)) == Scan(toks, start)
    {
      var tok := toks[k];
      assert toks[k..][1..] == toks[k + 1..];
      k := k + 1;
      if index > CHILD_PORT {
        return Err(Unexpected);
      }
      if tok.kind == Open {
        closing := true;
      } else if IsDelimiter(tok.kind, closing) {
        if closing {
          closing := false;
          if k < |toks| {
            assert toks[k - 1..][2..] == toks[k + 1..];
            k := k + 1;
          }
        }
        index := index + 1;
      } else {
        assert parts[..4][index := parts[index] + tok.text] == parts[index := parts[index] + tok.text][..4];
        parts := parts[index := parts[index] + tok.text];
      }
    }

    if parts[PARENT_IP] != "" && !validIP(parts[PARENT_IP]) {
      return Err(BadParentIP);
    }
    if parts[CHILD_IP] != "" && !validIP(parts[CHILD_IP]) {
      return Err(BadChildIP);
    }
    var parentPort := Atoi(parts[PARENT_PORT]);
    if parentPort == None {
      return Err(BadParentPort);
    }
    var childPort := Atoi(parts[CHILD_PORT]);
    if childPort == None {
      return Err(BadChildPort);
    }
    return Ok(Spec(proto, parts[PARENT_IP], parentPort.value, parts[CHILD_IP], childPort.value));
  }
}
