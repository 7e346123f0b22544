/** Export name patterns (src/export_policy.rs): text with `{token}` holes, parsed
    once and rendered for every part.  A character stands for one byte. */
module ExportPattern {
  import opened Base

  datatype Token = Timestamp | Channel | SampleRate | StartFrame | EndFrame | Part | PartSuffix | Profile

  function Name(t: Token): string {
    match t
    case Timestamp => "timestamp"
    case Channel => "channel"
    case SampleRate => "sampleRate"
    case StartFrame => "startFrame"
    case EndFrame => "endFrame"
    case Part => "part"
    case PartSuffix => "partSuffix"
    case Profile => "profile"
  }

  function TokenNamed(name: string): Option<Token> {
    if name == "timestamp" then Some(Timestamp)
    else if name == "channel" then Some(Channel)
    else if name == "sampleRate" then Some(SampleRate)
    else if name == "startFrame" then Some(StartFrame)
    else if name == "endFrame" then Some(EndFrame)
    else if name == "part" then Some(Part)
    else if name == "partSuffix" then Some(PartSuffix)
    else if name == "profile" then Some(Profile)
    else None
  }

  lemma NamesRoundTrip(t: Token, name: string)
    ensures TokenNamed(Name(t)) == Some(t)
    ensures TokenNamed(name) == Some(t) ==> name == Name(t)
    ensures Braceless(Name(t))
  {
  }

  datatype Segment = Literal(text: string) | Hole(token: Token) | Padded(token: Token, width: nat)

  datatype ParseError = UnmatchedClose | UnmatchedOpen | Nested | UnknownToken

  predicate Braceless(s: string) { forall i :: 0 <= i < |s| ==> s[i] != '{' && s[i] != '}' }

  // ---- parsing ----

  function FindBrace(s: string): (r: Option<nat>)
    ensures r.None? ==> Braceless(s)
    ensures r.Some? ==> r.value < |s| && (s[r.value] == '{' || s[r.value] == '}') && Braceless(s[..r.value])
  {
    if s == "" then None
    else if s[0] == '{' || s[0] == '}' then Some(0)
    else
      match FindBrace(s[1..])
      case None => None
      case Some(i) =>
        assert s[..i + 1] == [s[0]] + s[1..][..i];
        Some(i + 1)
  }

  function FindClose(s: string): (r: Option<nat>)
    ensures r.None? ==> '}' !in s
    ensures r.Some? ==> r.value < |s| && s[r.value] == '}' && '}' !in s[..r.value]
  {
    if s == "" then None
    else if s[0] == '}' then Some(0)
    else
      match FindClose(s[1..])
      case None => None
      case Some(i) =>
        assert s[..i + 1] == [s[0]] + s[1..][..i];
        Some(i + 1)
  }

  function LiteralBefore(s: string): seq<Segment> { if s == "" then [] else [Literal(s)] }

  /** What a pattern parses to. */
  function Parsed(s: string): Result<seq<Segment>, ParseError>
    decreases |s|
  {
    if s == "" then Ok([])
    else
      match FindBrace(s)
      case None => Ok([Literal(s)])
      case Some(o) =>
        if s[o] == '}' then Err(UnmatchedClose)
        else
          match FindClose(s[o + 1..])
          case None => Err(UnmatchedOpen)
          case Some(c) =>
            var name := s[o + 1..][..c];
            if '{' in name then Err(Nested)
            else if TokenNamed(name).None? then Err(UnknownToken)
            else
              match Parsed(s[o + 1..][c + 1..])
              case Err(e) => Err(e)
              case Ok(rest) => Ok(LiteralBefore(s[..o]) + [Hole(TokenNamed(name).value)] + rest)
  }

  function After(done: seq<Segment>, r: Result<seq<Segment>, ParseError>): Result<seq<Segment>, ParseError> {
    match r
    case Err(e) => Err(e)
    case Ok(rest) => Ok(done + rest)
  }

  lemma AfterAfter(done: seq<Segment>, head: seq<Segment>, r: Result<seq<Segment>, ParseError>)
    ensures After(done, After(head, r)) == After(done + head, r)
  {
    if r.Ok? { assert done + (head + r.value) == (done + head) + r.value; }
  }

  lemma ParsedUnfolds(s: string, o: nat, c: nat, t: Token)
    requires FindBrace(s) == Some(o) && s[o] == '{' && FindClose(s[o + 1..]) == Some(c)
    requires '{' !in s[o + 1..][..c] && TokenNamed(s[o + 1..][..c]) == Some(t)
    ensures Parsed(s) == After(LiteralBefore(s[..o]) + [Hole(t)], Parsed(s[o + 1..][c + 1..]))
  {
    hide FindBrace, FindClose, TokenNamed, LiteralBefore, After;
    var tail := s[o + 1..];
    ParsedTail(s, o, c, tail, tail[..c], tail[c + 1..]);
    hide Parsed;
    AfterJoins(LiteralBefore(s[..o]) + [Hole(t)], Parsed(tail[c + 1..]));
  }

  lemma AfterJoins(done: seq<Segment>, r: Result<seq<Segment>, ParseError>)
    ensures After(done, r) == match r { case Err(e) => Err(e) case Ok(rest) => Ok(done + rest) }
  {
  }

  lemma ParsedTail(s: string, o: nat, c: nat, tail: string, name: string, rest: string)
    requires FindBrace(s) == Some(o) && s[o] == '{' && tail == s[o + 1..] && FindClose(tail) == Some(c)
    requires name == tail[..c] && rest == tail[c + 1..] && '{' !in name && TokenNamed(name).Some?
    ensures Parsed(s) == match Parsed(rest)
                         case Err(e) => Err(e)
                         case Ok(segments) => Ok(LiteralBefore(s[..o]) + [Hole(TokenNamed(name).value)] + segments)
  {
    hide FindBrace, FindClose, TokenNamed, LiteralBefore;
  }

  lemma ParsedHole(s: string, o: nat, c: nat, t: Token, done: seq<Segment>)
    requires FindBrace(s) == Some(o) && s[o] == '{' && FindClose(s[o + 1..]) == Some(c)
    requires '{' !in s[o + 1..][..c] && TokenNamed(s[o + 1..][..c]) == Some(t)
    ensures After(done, Parsed(s)) == After(done + LiteralBefore(s[..o]) + [Hole(t)], Parsed(s[o + 1..][c + 1..]))
  {
    hide FindBrace, FindClose, TokenNamed, LiteralBefore, Parsed, After;
    var before := LiteralBefore(s[..o]);
    ParsedUnfolds(s, o, c, t);
    AfterAfter(done, before + [Hole(t)], Parsed(s[o + 1..][c + 1..]));
    assert done + (before + [Hole(t)]) == done + before + [Hole(t)];
  }

  lemma ParsedBad(s: string, o: nat)
    requires FindBrace(s) == Some(o)
    ensures s[o] == '}' ==> Parsed(s) == Err(UnmatchedClose)
    ensures s[o] == '{' && FindClose(s[o + 1..]).None? ==> Parsed(s) == Err(UnmatchedOpen)
    ensures s[o] == '{' && FindClose(s[o + 1..]).Some? ==>
      var name := s[o + 1..][..FindClose(s[o + 1..]).value];
      && ('{' in name ==> Parsed(s) == Err(Nested))
      && ('{' !in name && TokenNamed(name).None? ==> Parsed(s) == Err(UnknownToken))
  {
    hide FindBrace, FindClose, TokenNamed;
  }

  lemma ParsedPlain(s: string)
    ensures s == "" ==> Parsed(s) == Ok([])
    ensures s != "" && FindBrace(s).None? ==> Parsed(s) == Ok([Literal(s)])
  {
  }

  lemma Cut(s: string, from: nat, n: nat)
    requires from + n <= |s|
    ensures s[from..][..n] == s[from..from + n] && s[from..][n..] == s[from + n..]
  {
  }

  /** The token behind an opening brace, and where its closing brace is. */
  method TokenAt(tail: string) returns (r: Result<(Token, nat), ParseError>)
    ensures FindClose(tail).None? ==> r == Err(UnmatchedOpen)
    ensures FindClose(tail).Some? ==>
      var name := tail[..FindClose(tail).value];
      r == if '{' in name then Err(Nested)
           else if TokenNamed(name).None? then Err(UnknownToken)
           else Ok((TokenNamed(name).value, FindClose(tail).value))
  {
    hide FindClose, TokenNamed;
    var closeOffset := FindClose(tail);
    if closeOffset.None? {
      return Err(UnmatchedOpen);
    }
    var tokenName := tail[..closeOffset.value];
    if '{' in tokenName {
      return Err(Nested);
    }
    var token := TokenNamed(tokenName);
    if token.None? {
      return Err(UnknownToken);
    }
    return Ok((token.value, closeOffset.value));
  }

  /** The parser's loop, with its cursor. */
  method Parse(pattern: string) returns (r: Result<seq<Segment>, ParseError>)
    ensures r == Parsed(pattern)
  {
    hide Parsed, FindBrace, FindClose, TokenNamed;
    var segments: seq<Segment> := [];
    var cursor := 0;
    assert pattern[0..] == pattern;
    assert Parsed(pattern).Ok? ==> [] + Parsed(pattern).value == Parsed(pattern).value;
    while cursor < |pattern|
      invariant cursor <= |pattern|
      invariant Parsed(pattern) == After(segments, Parsed(pattern[cursor..]))
    {
      var remainder := pattern[cursor..];
      var nextBrace := FindBrace(remainder);
      ParsedPlain(remainder);
      if nextBrace.None? {
        return Ok(segments + [Literal(remainder)]);
      }
      var at := nextBrace.value;
      ParsedBad(remainder, at);
      ghost var before := segments;
      if at > 0 {
        segments := segments + [Literal(remainder[..at])];
      }
      assert segments == before + LiteralBefore(remainder[..at]);
      if remainder[at] == '}' {
        return Err(UnmatchedClose);
      }
      var token := TokenAt(remainder[at + 1..]);
      if token.Err? {
        return Err(token.error);
      }
      var close := token.value.1;
      ParsedHole(remainder, at, close, token.value.0, before);
      segments := segments + [Hole(token.value.0)];
      Cut(remainder, at + 1, close + 1);
      Cut(pattern, cursor, at + 1 + close + 1);
      cursor := cursor + at + 1 + close + 1;
    }
    ParsedPlain(pattern[cursor..]);
    assert segments + [] == segments;
    return Ok(segments);
  }

  // ---- parsing and printing undo each other ----

  function Unparsed(segments: seq<Segment>): string
    requires forall s :: s in segments ==> !s.Padded?
  {
    if segments == [] then ""
    else
      var head := segments[0];
      (if head.Literal? then head.text else "{" + Name(head.token) + "}") + Unparsed(segments[1..])
  }

  /** Segments as a parse leaves them: holes, and between them non-empty literals
      without braces, never two in a row. */
  ghost predicate Canonical(segments: seq<Segment>) {
    && (forall i :: 0 <= i < |segments| ==>
          !segments[i].Padded? && (segments[i].Literal? ==> segments[i].text != "" && Braceless(segments[i].text)))
    && (forall i :: 0 < i < |segments| ==> !(segments[i - 1].Literal? && segments[i].Literal?))
  }

  lemma PlainPrints(s: string)
    requires s == "" || (Braceless(s) && FindBrace(s).None?)
    ensures Canonical(LiteralBefore(s)) && Unparsed(LiteralBefore(s)) == s
    ensures Parsed(s) == Ok(LiteralBefore(s))
  {
    hide FindBrace;
    if s != "" { assert Unparsed(LiteralBefore(s)) == s + Unparsed([]); }
  }

  lemma {:induction false} ParseThenPrint(s: string)
    requires Parsed(s).Ok?
    ensures Canonical(Parsed(s).value) && Unparsed(Parsed(s).value) == s
    decreases |s|
  {
    hide TokenNamed, Name, FindClose, FindBrace, Canonical, Unparsed;
    if s == "" || FindBrace(s).None? {
      PlainPrints(s);
    } else {
      var o := FindBrace(s).value;
      var tail := s[o + 1..];
      var c := FindClose(tail).value;
      ParseThenPrint(tail[c + 1..]);
      NamesRoundTrip(TokenNamed(tail[..c]).value, tail[..c]);
      HolePrints(s, o, c, Parsed(tail[c + 1..]).value);
    }
  }

  lemma HolePrints(s: string, o: nat, c: nat, rest: seq<Segment>)
    requires o < |s| && c < |s[o + 1..]| && s[o] == '{' && s[o + 1..][c] == '}' && Braceless(s[..o])
    requires TokenNamed(s[o + 1..][..c]).Some? && Name(TokenNamed(s[o + 1..][..c]).value) == s[o + 1..][..c]
    requires Canonical(rest) && Unparsed(rest) == s[o + 1..][c + 1..]
    ensures var all := LiteralBefore(s[..o]) + [Hole(TokenNamed(s[o + 1..][..c]).value)] + rest;
            Canonical(all) && Unparsed(all) == s
  {
    hide TokenNamed, Name, FindBrace, FindClose, Parsed;
    var t := TokenNamed(s[o + 1..][..c]).value;
    var holes := [Hole(t)] + rest;
    assert s[o..] == "{" + s[o + 1..][..c] + "}" + s[o + 1..][c + 1..];
    assert holes[1..] == rest;
    assert Unparsed(holes) == "{" + Name(t) + "}" + Unparsed(rest) == s[o..];
    var all := LiteralBefore(s[..o]) + [Hole(t)] + rest;
    assert all == LiteralBefore(s[..o]) + holes;
    if o > 0 { assert all[1..] == holes; }
    assert s == s[..o] + s[o..];
  }

  lemma {:induction false} FirstBrace(s: string, at: nat)
    requires at < |s| && (s[at] == '{' || s[at] == '}') && Braceless(s[..at])
    ensures FindBrace(s) == Some(at)
  {
    if at > 0 {
      assert s[0] == s[..at][0];
      assert s[1..][..at - 1] == s[..at][1..];
      FirstBrace(s[1..], at - 1);
    }
  }

  lemma {:induction false} FirstClose(s: string, at: nat)
    requires at < |s| && s[at] == '}' && '}' !in s[..at]
    ensures FindClose(s) == Some(at)
  {
    if at > 0 {
      assert s[0] == s[..at][0];
      assert s[1..][..at - 1] == s[..at][1..];
      FirstClose(s[1..], at - 1);
    }
  }

  /** A literal (or nothing), a hole and the rest parse back to themselves. */
  lemma HoleParses(text: string, t: Token, tail: string)
    requires Braceless(text)
    ensures var s := text + ("{" + Name(t) + "}" + tail);
      Parsed(s) == After(LiteralBefore(text) + [Hole(t)], Parsed(tail))
  {
    var name := Name(t);
    var s := text + ("{" + name + "}" + tail);
    NamesRoundTrip(t, name);
    hide Name, TokenNamed;
    assert s[..|text|] == text;
    FirstBrace(s, |text|);
    var rest := s[|text| + 1..];
    assert rest == name + "}" + tail;
    assert rest[..|name|] == name;
    FirstClose(rest, |name|);
    assert rest[|name| + 1..] == tail;
    ParsedHole(s, |text|, |name|, t, []);
    assert Parsed(s).Ok? ==> [] + Parsed(s).value == Parsed(s).value;
    assert [] + LiteralBefore(text) + [Hole(t)] == LiteralBefore(text) + [Hole(t)];
  }

  lemma UnparsedHead(segments: seq<Segment>)
    requires Canonical(segments) && segments != []
    ensures Canonical(segments[1..])
    ensures segments[0].Hole? ==>
      Unparsed(segments) == "" + ("{" + Name(segments[0].token) + "}" + Unparsed(segments[1..]))
    ensures segments[0].Literal? ==>
      && Braceless(segments[0].text) && segments[0].text != ""
      && Unparsed(segments) == segments[0].text + Unparsed(segments[1..])
      && (|segments| == 1 ==> Unparsed(segments) == segments[0].text)
      && (|segments| > 1 ==> segments[1].Hole?)
    ensures !segments[0].Padded?
  {
    hide Name;
    assert segments[1..] == [] ==> segments[0].Literal? ==> segments[0].text + "" == segments[0].text;
  }

  /** How a canonical pattern is put together from its first hole on. */
  lemma Regrouped(segments: seq<Segment>)
    requires Canonical(segments) && segments != []
    ensures segments[0].Hole? ==> LiteralBefore("") + [segments[0]] + segments[1..] == segments
    ensures segments[0].Literal? && |segments| > 1 ==>
      LiteralBefore(segments[0].text) + [segments[1]] + segments[1..][1..] == segments
    ensures segments[0].Literal? && |segments| == 1 ==> segments == [Literal(segments[0].text)]
  {
  }

  lemma HoleParsesTo(text: string, t: Token, tail: string, rest: seq<Segment>)
    requires Braceless(text) && Parsed(tail) == Ok(rest)
    ensures Parsed(text + ("{" + Name(t) + "}" + tail)) == Ok(LiteralBefore(text) + [Hole(t)] + rest)
  {
    hide Parsed, Name, LiteralBefore, Braceless;
    HoleParses(text, t, tail);
  }

  /** Printing and parsing: no two canonical patterns print alike, and a parse
      finds the one that prints to its text. */
  lemma {:induction false} PrintThenParse(segments: seq<Segment>)
    requires Canonical(segments)
    ensures Parsed(Unparsed(segments)) == Ok(segments)
    decreases |segments|
  {
    if segments == [] {
    } else {
      hide Parsed, Name, FindBrace, Unparsed, Canonical, Braceless, LiteralBefore, After;
      var head, rest := segments[0], segments[1..];
      UnparsedHead(segments);
      Regrouped(segments);
      if head.Hole? {
        PrintThenParse(rest);
        NoTextBraceless();
        HoleParsesTo("", head.token, Unparsed(rest), rest);
      } else if |segments| == 1 {
        NoBrace(head.text);
        ParsedPlain(head.text);
      } else {
        UnparsedHead(rest);
        PrintThenParse(rest[1..]);
        NothingBefore("{" + Name(rest[0].token) + "}" + Unparsed(rest[1..]));
        HoleParsesTo(head.text, rest[0].token, Unparsed(rest[1..]), rest[1..]);
      }
    }
  }

  lemma NoTextBraceless()
    ensures Braceless("")
  {
  }

  lemma NothingBefore(s: string)
    ensures "" + s == s
  {
  }

  lemma {:induction false} NoBrace(s: string)
    requires Braceless(s)
    ensures FindBrace(s).None?
  {
    if s != "" { NoBrace(s[1..]); }
  }

  // ---- rendering ----

  /** What a pattern is filled with. */
  datatype Values = Values(
    timestamp: string,
    profile: string,
    channel: string,
    sampleRate: nat,
    part: nat,
    partSuffix: string,
    startFrame: nat,
    endFrame: nat)

  function Decimal(n: nat): string {
    if n < 10 then [('0' as int + n) as char] else Decimal(n / 10) + [('0' as int + n % 10) as char]
  }

  function Zeros(n: nat): string { seq(n, _ => '0') }

  function PadTo(s: string, width: nat): string { Zeros(SatSub(width, |s|)) + s }

  datatype RenderError = UnsupportedPadding

  function RenderSegment(segment: Segment, v: Values): Result<string, RenderError> {
    match segment
    case Literal(text) => Ok(text)
    case Hole(Timestamp) => Ok(v.timestamp)
    case Hole(Channel) => Ok(v.channel)
    case Hole(SampleRate) => Ok(Decimal(v.sampleRate))
    case Hole(StartFrame) => Ok(Decimal(v.startFrame))
    case Hole(EndFrame) => Ok(Decimal(v.endFrame))
    case Hole(Part) => Ok(Decimal(v.part))
    case Hole(PartSuffix) => Ok(v.partSuffix)
    case Hole(Profile) => Ok(v.profile)
    case Padded(StartFrame, width) => Ok(PadTo(Decimal(v.startFrame), width))
    case Padded(EndFrame, width) => Ok(PadTo(Decimal(v.endFrame), width))
    case Padded(Part, width) => Ok(PadTo(Decimal(v.part), width))
    case Padded(_, _) => Err(UnsupportedPadding)
  }

  // ---- what a reader gets back from a rendered token ----

  predicate Digits(s: string) { forall i :: 0 <= i < |s| ==> '0' <= s[i] <= '9' }

  /** The number a row of digits stands for. */
  function NumberOf(s: string): nat
    requires Digits(s)
  {
    if s == "" then 0 else 10 * NumberOf(s[..|s| - 1]) + (s[|s| - 1] as int - '0' as int)
  }

  predicate Reads(text: string, n: nat) { text != "" && Digits(text) && NumberOf(text) == n }

  /** A decimal numeral reads back as its number and has no leading zero. */
  lemma {:induction false} DecimalReadsBack(n: nat)
    ensures Reads(Decimal(n), n)
    ensures |Decimal(n)| > 1 ==> Decimal(n)[0] != '0'
  {
    if n >= 10 {
      DecimalReadsBack(n / 10);
      var s := Decimal(n);
      assert s[..|s| - 1] == Decimal(n / 10);
      DecimalOfOne(n / 10);
    } else {
      assert Decimal(n)[..0] == "";
    }
  }

  lemma DecimalOfOne(n: nat)
    ensures |Decimal(n)| == 1 ==> n < 10 && Decimal(n)[0] as int == '0' as int + n
  {
    assert n >= 10 ==> |Decimal(n / 10)| > 0;
  }

  /** Zeros in front change no number. */
  lemma PaddingReadsBack(s: string, width: nat)
    requires s != "" && Digits(s)
    ensures Reads(PadTo(s, width), NumberOf(s)) && |PadTo(s, width)| == Max(width, |s|)
  {
    ZerosInFront(SatSub(width, |s|), s);
  }

  lemma {:induction false} ZerosInFront(k: nat, s: string)
    requires Digits(s)
    ensures Digits(Zeros(k) + s) && NumberOf(Zeros(k) + s) == NumberOf(s)
    decreases |s|, k
  {
    var all := Zeros(k) + s;
    if s != "" {
      ZerosInFront(k, s[..|s| - 1]);
      assert all[..|all| - 1] == Zeros(k) + s[..|s| - 1];
    } else if k > 0 {
      ZerosInFront(k - 1, s);
      assert all[..|all| - 1] == Zeros(k - 1) + s;
    }
  }

  /** What the text in place of the token of this name tells. */
  predicate Shows(name: string, text: string, v: Values) {
    match name
    case "timestamp" => text == v.timestamp
    case "channel" => text == v.channel
    case "sampleRate" => Reads(text, v.sampleRate)
    case "startFrame" => Reads(text, v.startFrame)
    case "endFrame" => Reads(text, v.endFrame)
    case "part" => Reads(text, v.part)
    case "partSuffix" => text == v.partSuffix
    case "profile" => text == v.profile
    case _ => false
  }

  predicate Paddable(t: Token) { t == StartFrame || t == EndFrame || t == Part }

  /** Every token shows the value it is named after, and only the two frame
      positions and the part number can be padded. */
  lemma TokenShowsItsValue(t: Token, width: nat, v: Values)
    ensures RenderSegment(Hole(t), v).Ok? && Shows(Name(t), RenderSegment(Hole(t), v).value, v)
    ensures RenderSegment(Padded(t, width), v).Ok? <==> Paddable(t)
    ensures Paddable(t) ==>
              var plain, padded := RenderSegment(Hole(t), v).value, RenderSegment(Padded(t, width), v).value;
              Shows(Name(t), padded, v) && |padded| == Max(width, |plain|)
  {
    hide Reads, Decimal, PadTo, NumberOf, Digits;
    forall n ensures Reads(Decimal(n), n) { DecimalReadsBack(n); }
    PaddedReads(v.startFrame, width);
    PaddedReads(v.endFrame, width);
    PaddedReads(v.part, width);
  }

  lemma PaddedReads(n: nat, width: nat)
    ensures Reads(PadTo(Decimal(n), width), n) && |PadTo(Decimal(n), width)| == Max(width, |Decimal(n)|)
  {
    DecimalReadsBack(n);
    PaddingReadsBack(Decimal(n), width);
  }

  function Rendered(segments: seq<Segment>, v: Values): Result<string, RenderError> {
    if segments == [] then Ok("")
    else
      match Rendered(segments[..|segments| - 1], v)
      case Err(e) => Err(e)
      case Ok(text) =>
        match RenderSegment(segments[|segments| - 1], v)
        case Err(e) => Err(e)
        case Ok(more) => Ok(text + more)
  }

  /** The most bytes a token's text can take. */
  function TokenMax(t: Token, v: Values): nat {
    match t
    case Timestamp => |v.timestamp|
    case Channel => |v.channel|
    case SampleRate => 10
    case StartFrame => 20
    case EndFrame => 20
    case Part => 20
    case PartSuffix => 25
    case Profile => |v.profile|
  }

  function SegmentMax(segment: Segment, v: Values): nat {
    match segment
    case Literal(text) => |text|
    case Hole(t) => TokenMax(t, v)
    case Padded(t, width) => Max(TokenMax(t, v), width)
  }

  /** `maximum_rendered_bytes`; absent when the sum exceeds 64 bits. */
  function MaximumBytes(segments: seq<Segment>, v: Values): Option<u64> {
    if segments == [] then Some(0)
    else
      var last := |segments| - 1;
      var sum := MaximumBytes(segments[..last], v);
      if sum.None? || sum.value + SegmentMax(segments[last], v) > U64_MAX then None
      else Some(sum.value + SegmentMax(segments[last], v))
  }

  /** Values within their machine widths; the suffix is empty or a dash, `part` and
      a part number. */
  predicate InRange(v: Values) {
    v.sampleRate <= 0xFFFF_FFFF && v.part <= U64_MAX && v.startFrame <= U64_MAX && v.endFrame <= U64_MAX
    && |v.partSuffix| <= 25
  }

  function Pow10(k: nat): nat { if k == 0 then 1 else 10 * Pow10(k - 1) }

  lemma {:induction false} DecimalLength(n: nat, k: nat)
    requires k > 0 && n < Pow10(k)
    ensures 0 < |Decimal(n)| <= k
  {
    if n >= 10 {
      assert k > 1;
      DecimalLength(n / 10, k - 1);
    }
  }

  lemma Pow10Values()
    ensures Pow10(10) == 10_000_000_000 && Pow10(20) == 100_000_000_000_000_000_000
  {
  }

  lemma SegmentFits(segment: Segment, v: Values)
    requires InRange(v) && RenderSegment(segment, v).Ok?
    ensures |RenderSegment(segment, v).value| <= SegmentMax(segment, v)
  {
    Pow10Values();
    hide Pow10, Decimal;
    DecimalLength(v.sampleRate, 10);
    DecimalLength(v.startFrame, 20);
    DecimalLength(v.endFrame, 20);
    DecimalLength(v.part, 20);
  }

  /** Whatever a pattern renders to is no longer than its precomputed maximum. */
  lemma {:induction false} RenderedFits(segments: seq<Segment>, v: Values)
    requires InRange(v) && Rendered(segments, v).Ok? && MaximumBytes(segments, v).Some?
    ensures |Rendered(segments, v).value| <= MaximumBytes(segments, v).value
  {
    if segments != [] {
      RenderedFits(segments[..|segments| - 1], v);
      SegmentFits(segments[|segments| - 1], v);
    }
  }

  method Render(segments: seq<Segment>, v: Values) returns (r: Result<string, RenderError>)
    ensures r == Rendered(segments, v)
  {
    var output := "";
    for i := 0 to |segments|
      invariant Rendered(segments[..i], v) == Ok(output)
    {
      assert segments[..i + 1][..i] == segments[..i];
      match RenderSegment(segments[i], v) {
        case Err(e) =>
          RenderFails(segments, v, i + 1);
          return Err(e);
        case Ok(text) => output := output + text;
      }
    }
    assert segments[..|segments|] == segments;
    return Ok(output);
  }

  lemma {:induction false} RenderFails(segments: seq<Segment>, v: Values, i: nat)
    requires i <= |segments| && Rendered(segments[..i], v).Err?
    ensures Rendered(segments, v) == Err(Rendered(segments[..i], v).error)
    decreases |segments|
  {
    if i == |segments| {
      assert segments[..i] == segments;
    } else {
      assert segments[..|segments| - 1][..i] == segments[..i];
      RenderFails(segments[..|segments| - 1], v, i);
    }
  }
}
