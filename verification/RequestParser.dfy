/** The HTTP request parser (server/request_parser.cpp and server/request_parser.hpp). */
module RequestParsers {

  datatype Header = Header(name: string, value: string)

  datatype Request = Request(verb: string, uri: string, major: int, minor: int, headers: seq<Header>)

  datatype State =
    | MethodStart | Method | Uri
    | VersionH | VersionT1 | VersionT2 | VersionP | VersionSlash
    | MajorStart | Major | MinorStart | Minor
    | Newline1 | LineStart | Lws | HeaderName | SpaceBeforeValue | HeaderValue | Newline2 | Newline3

  /** The three values of boost::tribool. */
  datatype Verdict = Accepted | Rejected | Unfinished

  // ----- character classes -----

  predicate IsChar(c: char) { c as int <= 127 }

  predicate IsCtl(c: char) { c as int <= 31 || c as int == 127 }

  predicate IsTspecial(c: char) { c in "()<>@,;:\\\"/[]?={} \t" }

  predicate IsDigit(c: char) { '0' <= c <= '9' }

  predicate IsToken(c: char) { IsChar(c) && !IsCtl(c) && !IsTspecial(c) }

  predicate IsBlank(c: char) { c == ' ' || c == '\t' }

  function Digit(c: char): int { c as int - '0' as int }

  // ----- one character -----

  datatype Parser = Parser(state: State, req: Request)

  datatype Outcome = Outcome(verdict: Verdict, parser: Parser, consumed: nat)

  function Go(state: State, req: Request): Outcome { Outcome(Unfinished, Parser(state, req), 1) }

  function When(ok: bool, p: Parser, state: State, req: Request): Outcome {
    if ok then Go(state, req) else Outcome(Rejected, p, 1)
  }

  /** The headers with more characters at the end of the newest one's name and value. */
  function Appended(headers: seq<Header>, name: string, value: string): seq<Header>
    requires headers != []
  {
    var last := headers[|headers| - 1];
    headers[|headers| - 1 := Header(last.name + name, last.value + value)]
  }

  function NamePushed(req: Request, name: string): Request {
    if req.headers == [] then req else req.(headers := Appended(req.headers, name, ""))
  }

  function ValuePushed(req: Request, value: string): Request {
    if req.headers == [] then req else req.(headers := Appended(req.headers, "", value))
  }

  function Step(p: Parser, c: char): Outcome {
    var r := p.req;
    match p.state
    case MethodStart => When(IsToken(c), p, Method, r.(verb := r.verb + [c]))
    case Method => if c == ' ' then Go(Uri, r) else When(IsToken(c), p, Method, r.(verb := r.verb + [c]))
    case Uri => if c == ' ' then Go(VersionH, r) else When(!IsCtl(c), p, Uri, r.(uri := r.uri + [c]))
    case VersionH => When(c == 'H', p, VersionT1, r)
    case VersionT1 => When(c == 'T', p, VersionT2, r)
    case VersionT2 => When(c == 'T', p, VersionP, r)
    case VersionP => When(c == 'P', p, VersionSlash, r)
    case VersionSlash => When(c == '/', p, MajorStart, r.(major := 0, minor := 0))
    case MajorStart => When(IsDigit(c), p, Major, r.(major := r.major * 10 + Digit(c)))
    case Major => if c == '.' then Go(MinorStart, r)
      else When(IsDigit(c), p, Major, r.(major := r.major * 10 + Digit(c)))
    case MinorStart => When(IsDigit(c), p, Minor, r.(minor := r.minor * 10 + Digit(c)))
    case Minor => if c == '\r' then Go(Newline1, r)
      else When(IsDigit(c), p, Minor, r.(minor := r.minor * 10 + Digit(c)))
    case Newline1 => When(c == '\n', p, LineStart, r)
    case LineStart =>
      if c == '\r' then Go(Newline3, r)
      else if r.headers != [] && IsBlank(c) then Go(Lws, r)
      else When(IsToken(c), p, HeaderName, r.(headers := r.headers + [Header([c], "")]))
    case Lws =>
      if c == '\r' then Go(Newline2, r)
      else if IsBlank(c) then Go(Lws, r)
      else When(!IsCtl(c), p, HeaderValue, ValuePushed(r, [c]))
    case HeaderName => if c == ':' then Go(SpaceBeforeValue, r) else When(IsToken(c), p, HeaderName, NamePushed(r, [c]))
    case SpaceBeforeValue => When(c == ' ', p, HeaderValue, r)
    case HeaderValue => if c == '\r' then Go(Newline2, r) else When(!IsCtl(c), p, HeaderValue, ValuePushed(r, [c]))
    case Newline2 => When(c == '\n', p, LineStart, r)
    case Newline3 => if c == '\n' then Outcome(Accepted, p, 1) else Outcome(Rejected, p, 1)
  }

  /** Parsing one piece of input. */
  function Parse(p: Parser, input: string): Outcome
    decreases |input|
  {
    if input == "" then Outcome(Unfinished, p, 0)
    else
      var first := Step(p, input[0]);
      if first.verdict != Unfinished then first
      else
        var rest := Parse(first.parser, input[1..]);
        rest.(consumed := rest.consumed + 1)
  }

  // ----- splitting the input -----

  /** Two pieces of input in turn are parsed as one piece. */
  lemma {:induction false} ParseJoin(p: Parser, a: string, b: string)
    ensures Parse(p, a).verdict == Unfinished ==>
      Parse(p, a).consumed == |a| &&
      Parse(p, a + b) == (var rest := Parse(Parse(p, a).parser, b); rest.(consumed := rest.consumed + |a|))
    ensures Parse(p, a).verdict != Unfinished ==> Parse(p, a + b) == Parse(p, a) && Parse(p, a).consumed <= |a|
    decreases |a|
  {
    if a == "" {
      assert a + b == b;
    } else {
      assert (a + b)[1..] == a[1..] + b;
      if Step(p, a[0]).verdict == Unfinished {
        ParseJoin(Step(p, a[0]).parser, a[1..], b);
      }
    }
  }

  function Joined(chunks: seq<string>): string {
    if chunks == [] then "" else chunks[0] + Joined(chunks[1..])
  }

  /** Reading chunk after chunk until the request is complete or bad. */
  function ParseChunks(p: Parser, chunks: seq<string>): Outcome
    decreases |chunks|
  {
    if chunks == [] then Outcome(Unfinished, p, 0)
    else
      var first := Parse(p, chunks[0]);
      if first.verdict != Unfinished then first
      else
        var rest := ParseChunks(first.parser, chunks[1..]);
        rest.(consumed := rest.consumed + |chunks[0]|)
  }

  /** However the input is cut into chunks, the outcome is that of the whole input. */
  lemma {:induction false} ChunksChangeNothing(p: Parser, chunks: seq<string>)
    ensures ParseChunks(p, chunks) == Parse(p, Joined(chunks))
    decreases |chunks|
  {
    if chunks != [] {
      ParseJoin(p, chunks[0], Joined(chunks[1..]));
      ChunksChangeNothing(Parse(p, chunks[0]).parser, chunks[1..]);
    }
  }

  lemma ParseOne(q: Parser, s: string)
    requires s != ""
    ensures Parse(q, [s[0]]) == Step(q, s[0]) && Step(q, s[0]).consumed == 1
    ensures Step(q, s[0]).verdict != Unfinished ==> Parse(q, s) == Step(q, s[0])
  {
    assert [s[0]][1..] == "";
  }

  /** The next character after an unfinished prefix. */
  lemma ParseAt(p: Parser, input: string, i: nat, q: Parser)
    requires i < |input| && Parse(p, input[..i]) == Outcome(Unfinished, q, i)
    ensures var o := Step(q, input[i]);
      && (o.verdict == Unfinished ==> Parse(p, input[..i + 1]) == Outcome(Unfinished, o.parser, i + 1))
      && (o.verdict != Unfinished ==> Parse(p, input) == Outcome(o.verdict, o.parser, i + 1))
  {
    var rest := input[i..];
    ParseOne(q, rest);
    ParseJoin(p, input[..i], [rest[0]]);
    ParseJoin(p, input[..i], rest);
    assert input == input[..i] + rest && input[..i + 1] == input[..i] + [rest[0]];
  }

  // ----- the grammar -----

  /** A header as written: the value continues over folded lines, each starting with blanks that do not belong to it. */
  datatype Fold = Fold(blanks: string, piece: string)

  datatype Written = Written(name: string, first: string, folds: seq<Fold>)

  datatype Text = Text(verb: string, uri: string, major: string, minor: string, headers: seq<Written>)

  predicate AllTokens(s: string) { forall i :: 0 <= i < |s| ==> IsToken(s[i]) }

  predicate AllDigits(s: string) { forall i :: 0 <= i < |s| ==> IsDigit(s[i]) }

  predicate NoCtl(s: string) { forall i :: 0 <= i < |s| ==> !IsCtl(s[i]) }

  predicate FoldOk(f: Fold) {
    f.blanks != "" && (forall i :: 0 <= i < |f.blanks| ==> IsBlank(f.blanks[i])) && NoCtl(f.piece)
      && (f.piece != "" ==> f.piece[0] != ' ')
  }

  predicate WrittenOk(w: Written) {
    w.name != "" && AllTokens(w.name) && NoCtl(w.first) && forall i :: 0 <= i < |w.folds| ==> FoldOk(w.folds[i])
  }

  predicate UriOk(s: string) { NoCtl(s) && ' ' !in s }

  predicate TextOk(t: Text) {
    && t.verb != "" && AllTokens(t.verb) && UriOk(t.uri)
    && t.major != "" && AllDigits(t.major) && t.minor != "" && AllDigits(t.minor)
    && forall i :: 0 <= i < |t.headers| ==> WrittenOk(t.headers[i])
  }

  function FoldText(f: Fold): string { "\r\n" + f.blanks + f.piece }

  function FoldsText(folds: seq<Fold>): string {
    if folds == [] then "" else FoldsText(folds[..|folds| - 1]) + FoldText(folds[|folds| - 1])
  }

  function HeaderText(w: Written): string { w.name + ": " + w.first + FoldsText(w.folds) }

  function HeaderLines(w: Written): string { HeaderText(w) + "\r\n" }

  function HeadersText(headers: seq<Written>): string {
    if headers == [] then "" else HeadersText(headers[..|headers| - 1]) + HeaderLines(headers[|headers| - 1])
  }

  function LineText(t: Text): string {
    t.verb + " " + t.uri + " HTTP/" + t.major + "." + t.minor + "\r\n"
  }

  function Print(t: Text): string { LineText(t) + HeadersText(t.headers) + "\r\n" }

  // ----- what a text means -----

  function Number(digits: string): int {
    if digits == "" then 0 else Number(digits[..|digits| - 1]) * 10 + Digit(digits[|digits| - 1])
  }

  function Pieces(folds: seq<Fold>): string {
    if folds == [] then "" else Pieces(folds[..|folds| - 1]) + folds[|folds| - 1].piece
  }

  function HeaderOf(w: Written): Header { Header(w.name, w.first + Pieces(w.folds)) }

  function HeadersOf(headers: seq<Written>): (r: seq<Header>)
    ensures |r| == |headers|
  {
    seq(|headers|, i requires 0 <= i < |headers| => HeaderOf(headers[i]))
  }

  function Meaning(t: Text): Request {
    Request(t.verb, t.uri, Number(t.major), Number(t.minor), HeadersOf(t.headers))
  }

  // ----- everything in the grammar is accepted -----

  /** The characters on which a state stays as it is. */
  predicate Stays(state: State, c: char) {
    match state
    case Method => IsToken(c)
    case Uri => !IsCtl(c) && c != ' '
    case Major => IsDigit(c)
    case Minor => IsDigit(c)
    case Lws => IsBlank(c)
    case HeaderName => IsToken(c)
    case HeaderValue => !IsCtl(c)
    case _ => false
  }

  /** The request after a state has read the characters `s` on which it stays, other than digits. */
  function Pushed(state: State, req: Request, s: string): Request {
    match state
    case Method => req.(verb := req.verb + s)
    case Uri => req.(uri := req.uri + s)
    case HeaderName => NamePushed(req, s)
    case HeaderValue => ValuePushed(req, s)
    case _ => req
  }

  lemma PushedOne(p: Parser, c: char)
    requires Stays(p.state, c) && p.state != Major && p.state != Minor
    ensures Step(p, c) == Go(p.state, Pushed(p.state, p.req, [c]))
  {
  }

  lemma PushedTwice(state: State, req: Request, a: string, b: string)
    ensures Pushed(state, Pushed(state, req, a), b) == Pushed(state, req, a + b)
  {
    assert req.verb + a + b == req.verb + (a + b) && req.uri + a + b == req.uri + (a + b);
    if req.headers != [] {
      var last := req.headers[|req.headers| - 1];
      assert last.name + a + b == last.name + (a + b) && last.value + a + b == last.value + (a + b);
      assert last.name + "" == last.name && last.value + "" == last.value;
    }
  }

  lemma PushedNone(state: State, req: Request)
    ensures Pushed(state, req, "") == req
  {
    if req.headers != [] {
      var last := req.headers[|req.headers| - 1];
      assert last.name + "" == last.name && last.value + "" == last.value;
    }
  }

  lemma {:induction false} RunInState(p: Parser, s: string)
    requires p.state != Major && p.state != Minor
    requires forall i :: 0 <= i < |s| ==> Stays(p.state, s[i])
    ensures Parse(p, s) == Outcome(Unfinished, Parser(p.state, Pushed(p.state, p.req, s)), |s|)
    decreases |s|
  {
    if s == "" {
      PushedNone(p.state, p.req);
    } else {
      PushedOne(p, s[0]);
      RunInState(Step(p, s[0]).parser, s[1..]);
      PushedTwice(p.state, p.req, [s[0]], s[1..]);
      assert [s[0]] + s[1..] == s;
    }
  }

  lemma {:induction false} RunDigits(p: Parser, s: string, before: string)
    requires AllDigits(s) && (p.state == Major || p.state == Minor)
    requires p.state == Major ==> p.req.major == Number(before)
    requires p.state == Minor ==> p.req.minor == Number(before)
    ensures p.state == Major ==> 
      Parse(p, s) == Outcome(Unfinished, Parser(Major, p.req.(major := Number(before + s))), |s|)
    ensures p.state == Minor ==> 
      Parse(p, s) == Outcome(Unfinished, Parser(Minor, p.req.(minor := Number(before + s))), |s|)
    decreases |s|
  {
    if s == "" {
      assert before + s == before;
    } else {
      assert (before + [s[0]])[..|before|] == before;
      assert before + [s[0]] + s[1..] == before + s;
      RunDigits(Step(p, s[0]).parser, s[1..], before + [s[0]]);
    }
  }

  /** All of `s` is read, which leads from `p` to `q`. */
  predicate Reads(p: Parser, s: string, q: Parser) {
    Parse(p, s) == Outcome(Unfinished, q, |s|)
  }

  lemma Then(p: Parser, a: string, q: Parser, b: string, r: Parser)
    requires Reads(p, a, q) && Reads(q, b, r)
    ensures Reads(p, a + b, r)
  {
    ParseJoin(p, a, b);
  }

  lemma OneStep(p: Parser, c: char, q: Parser)
    requires Step(p, c) == Outcome(Unfinished, q, 1)
    ensures Reads(p, [c], q)
  {
    assert [c][1..] == "";
  }

  lemma FirstStep(p: Parser, s: string, q: Parser, r: Parser)
    requires s != "" && Step(p, s[0]) == Outcome(Unfinished, q, 1) && Reads(q, s[1..], r)
    ensures Reads(p, s, r)
  {
  }

  lemma LineEnd(p: Parser)
    requires p.state == HeaderValue || p.state == Lws
    ensures Reads(p, "\r\n", Parser(LineStart, p.req))
  {
    assert "\r\n"[1..] == "\n" && "\n"[1..] == "";
  }

  lemma BlanksAreRead(p: Parser, blanks: string)
    requires p.state == LineStart && p.req.headers != [] && blanks != ""
    requires forall i :: 0 <= i < |blanks| ==> IsBlank(blanks[i])
    ensures Reads(p, blanks, Parser(Lws, p.req))
  {
    RunInState(Parser(Lws, p.req), blanks[1..]);
    FirstStep(p, blanks, Parser(Lws, p.req), Parser(Lws, p.req));
  }

  /** Reading a piece after blanks is reading it as part of the value. */
  lemma PieceIsRead(p: Parser, piece: string)
    requires p.state == Lws && p.req.headers != [] && NoCtl(piece) && (piece != "" ==> piece[0] != ' ')
    ensures Reads(p, piece, Parser(if piece == "" then Lws else HeaderValue, ValuePushed(p.req, piece)))
  {
    if piece == "" {
      PushedNone(HeaderValue, p.req);
    } else {
      var q := Parser(HeaderValue, p.req);
      RunInState(q, piece);
      assert Step(p, piece[0]) == Step(q, piece[0]);
    }
  }

  /** A folded line extends the newest header's value by its piece. */
  lemma FoldIsRead(p: Parser, f: Fold)
    requires FoldOk(f) && (p.state == HeaderValue || p.state == Lws) && p.req.headers != []
    ensures Reads(p, FoldText(f), Parser(if f.piece == "" then Lws else HeaderValue, ValuePushed(p.req, f.piece)))
  {
    var started, blank := Parser(LineStart, p.req), Parser(Lws, p.req);
    LineEnd(p);
    BlanksAreRead(started, f.blanks);
    Then(p, "\r\n", started, f.blanks, blank);
    PieceIsRead(blank, f.piece);
    Then(p, "\r\n" + f.blanks, blank, f.piece,
      Parser(if f.piece == "" then Lws else HeaderValue, ValuePushed(p.req, f.piece)));
  }

  lemma {:induction false} FoldsAreRead(p: Parser, folds: seq<Fold>) returns (state: State)
    requires p.state == HeaderValue && p.req.headers != [] && forall i :: 0 <= i < |folds| ==> FoldOk(folds[i])
    ensures state == HeaderValue || state == Lws
    ensures Reads(p, FoldsText(folds), Parser(state, ValuePushed(p.req, Pieces(folds))))
    decreases |folds|
  {
    PushedNone(HeaderValue, p.req);
    state := HeaderValue;
    if folds != [] {
      var rest, f := folds[..|folds| - 1], folds[|folds| - 1];
      state := FoldsAreRead(p, rest);
      var q := Parser(state, ValuePushed(p.req, Pieces(rest)));
      FoldIsRead(q, f);
      PushedTwice(HeaderValue, p.req, Pieces(rest), f.piece);
      state := if f.piece == "" then Lws else HeaderValue;
      Then(p, FoldsText(rest), q, FoldText(f), Parser(state, ValuePushed(p.req, Pieces(folds))));
      assert FoldsText(folds) == FoldsText(rest) + (FoldText(f));
    }
  }

  function WithHeader(req: Request, h: Header): Request {
    req.(headers := req.headers + [h])
  }

  lemma NameIsRead(p: Parser, name: string)
    requires p.state == LineStart && name != "" && AllTokens(name)
    ensures Reads(p, name, Parser(HeaderName, WithHeader(p.req, Header(name, ""))))
  {
    var begun := Parser(HeaderName, WithHeader(p.req, Header([name[0]], "")));
    RunInState(begun, name[1..]);
    assert [name[0]] + name[1..] == name && "" + "" == "";
    assert NamePushed(begun.req, name[1..]) == WithHeader(p.req, Header(name, ""));
    FirstStep(p, name, begun, Parser(HeaderName, WithHeader(p.req, Header(name, ""))));
  }

  lemma ColonIsRead(p: Parser)
    requires p.state == HeaderName
    ensures Reads(p, ": ", Parser(HeaderValue, p.req))
  {
    assert ": "[1..] == " " && " "[1..] == "";
  }

  lemma PushedOnto(req: Request, name: string, value: string, more: string)
    ensures ValuePushed(WithHeader(req, Header(name, value)), more) == WithHeader(req, Header(name, value + more))
  {
    assert name + "" == name;
  }

  lemma HeaderIsRead(p: Parser, w: Written)
    requires p.state == LineStart && WrittenOk(w)
    ensures Reads(p, HeaderLines(w), Parser(LineStart, WithHeader(p.req, HeaderOf(w))))
  {
    var named, valued := WithHeader(p.req, Header(w.name, "")), WithHeader(p.req, Header(w.name, w.first));
    NameIsRead(p, w.name);
    ColonIsRead(Parser(HeaderName, named));
    Then(p, w.name, Parser(HeaderName, named), ": ", Parser(HeaderValue, named));
    RunInState(Parser(HeaderValue, named), w.first);
    assert "" + w.first == w.first;
    PushedOnto(p.req, w.name, "", w.first);
    Then(p, w.name + ": ", Parser(HeaderValue, named), w.first, Parser(HeaderValue, valued));
    FoldedHeaderIsRead(p, w);
  }

  lemma FoldedHeaderIsRead(p: Parser, w: Written)
    requires WrittenOk(w)
    requires Reads(p, w.name + ": " + w.first, Parser(HeaderValue, WithHeader(p.req, Header(w.name, w.first))))
    ensures Reads(p, HeaderLines(w), Parser(LineStart, WithHeader(p.req, HeaderOf(w))))
  {
    var valued, folded := WithHeader(p.req, Header(w.name, w.first)), WithHeader(p.req, HeaderOf(w));
    var state := FoldsAreRead(Parser(HeaderValue, valued), w.folds);
    PushedOnto(p.req, w.name, w.first, Pieces(w.folds));
    Then(p, w.name + ": " + w.first, Parser(HeaderValue, valued), FoldsText(w.folds), Parser(state, folded));
    LineEnd(Parser(state, folded));
    Then(p, HeaderText(w), Parser(state, folded), "\r\n", Parser(LineStart, folded));
  }

  lemma {:induction false} HeadersAreRead(p: Parser, headers: seq<Written>)
    requires p.state == LineStart && p.req.headers == [] && forall i :: 0 <= i < |headers| ==> WrittenOk(headers[i])
    ensures Reads(p, HeadersText(headers), Parser(LineStart, p.req.(headers := HeadersOf(headers))))
    decreases |headers|
  {
    if headers == [] {
      assert p.req.(headers := HeadersOf(headers)) == p.req;
    } else {
      var rest, w := headers[..|headers| - 1], headers[|headers| - 1];
      HeadersAreRead(p, rest);
      var q := Parser(LineStart, p.req.(headers := HeadersOf(rest)));
      HeaderIsRead(q, w);
      assert HeadersOf(headers) == HeadersOf(rest) + [HeaderOf(w)];
      Then(p, HeadersText(rest), q, HeaderLines(w), Parser(LineStart, p.req.(headers := HeadersOf(headers))));
      assert HeadersText(headers) == HeadersText(rest) + (HeaderLines(w));
    }
  }

  /** A parser that has read nothing; the version numbers of the request have no set value yet. */
  predicate IsNew(p: Parser) {
    p.state == MethodStart && p.req.verb == "" && p.req.uri == "" && p.req.headers == []
  }

  lemma VerbIsRead(p: Parser, verb: string)
    requires IsNew(p) && verb != "" && AllTokens(verb)
    ensures Reads(p, verb + " ", Parser(Uri, p.req.(verb := verb)))
  {
    var begun, named := Parser(Method, p.req.(verb := [verb[0]])), Parser(Method, p.req.(verb := verb));
    RunInState(begun, verb[1..]);
    assert [verb[0]] + verb[1..] == verb && "" + [verb[0]] == [verb[0]];
    FirstStep(p, verb, begun, named);
    OneStep(named, ' ', Parser(Uri, named.req));
    Then(p, verb, named, " ", Parser(Uri, named.req));
  }

  lemma UriIsRead(p: Parser, uri: string)
    requires p.state == Uri && p.req.uri == "" && UriOk(uri)
    ensures Reads(p, uri + " ", Parser(VersionH, p.req.(uri := uri)))
  {
    var named := Parser(Uri, p.req.(uri := uri));
    RunInState(p, uri);
    assert "" + uri == uri;
    OneStep(named, ' ', Parser(VersionH, named.req));
    Then(p, uri, named, " ", Parser(VersionH, named.req));
  }

  lemma ProtocolIsRead(p: Parser)
    requires p.state == VersionH
    ensures Reads(p, "HTTP/", Parser(MajorStart, p.req.(major := 0, minor := 0)))
  {
    var r := p.req;
    assert "HTTP/"[1..] == "TTP/" && "TTP/"[1..] == "TP/" && "TP/"[1..] == "P/" && "P/"[1..] == "/";
    OneStep(Parser(VersionSlash, r), '/', Parser(MajorStart, r.(major := 0, minor := 0)));
    FirstStep(Parser(VersionP, r), "P/", Parser(VersionSlash, r), Parser(MajorStart, r.(major := 0, minor := 0)));
    FirstStep(Parser(VersionT2, r), "TP/", Parser(VersionP, r), Parser(MajorStart, r.(major := 0, minor := 0)));
    FirstStep(Parser(VersionT1, r), "TTP/", Parser(VersionT2, r), Parser(MajorStart, r.(major := 0, minor := 0)));
    FirstStep(p, "HTTP/", Parser(VersionT1, r), Parser(MajorStart, r.(major := 0, minor := 0)));
  }

  lemma MajorIsRead(p: Parser, major: string)
    requires p.state == MajorStart && p.req.major == 0 && major != "" && AllDigits(major)
    ensures Reads(p, major + ".", Parser(MinorStart, p.req.(major := Number(major))))
  {
    var q, numbered := Parser(Major, p.req), Parser(Major, p.req.(major := Number(major)));
    RunDigits(q, major, "");
    assert "" + major == major;
    assert Step(p, major[0]) == Step(q, major[0]);
    OneStep(numbered, '.', Parser(MinorStart, numbered.req));
    Then(p, major, numbered, ".", Parser(MinorStart, numbered.req));
  }

  lemma MinorIsRead(p: Parser, minor: string)
    requires p.state == MinorStart && p.req.minor == 0 && minor != "" && AllDigits(minor)
    ensures Reads(p, minor + "\r\n", Parser(LineStart, p.req.(minor := Number(minor))))
  {
    var q, numbered := Parser(Minor, p.req), Parser(Minor, p.req.(minor := Number(minor)));
    RunDigits(q, minor, "");
    assert "" + minor == minor;
    assert Step(p, minor[0]) == Step(q, minor[0]);
    assert "\r\n"[1..] == "\n";
    OneStep(Parser(Newline1, numbered.req), '\n', Parser(LineStart, numbered.req));
    FirstStep(numbered, "\r\n", Parser(Newline1, numbered.req), Parser(LineStart, numbered.req));
    Then(p, minor, numbered, "\r\n", Parser(LineStart, numbered.req));
  }

  lemma TargetIsRead(p: Parser, verb: string, uri: string)
    requires IsNew(p) && verb != "" && AllTokens(verb) && UriOk(uri)
    ensures Reads(p, verb + " " + uri + " HTTP/",
      Parser(MajorStart, p.req.(verb := verb, uri := uri, major := 0, minor := 0)))
  {
    var p1 := Parser(Uri, p.req.(verb := verb));
    var p2 := Parser(VersionH, p.req.(verb := verb, uri := uri));
    VerbIsRead(p, verb);
    UriIsRead(p1, uri);
    Then(p, verb + " ", p1, uri + " ", p2);
    ProtocolIsRead(p2);
    Then(p, verb + " " + (uri + " "), p2, "HTTP/", Parser(MajorStart, p2.req.(major := 0, minor := 0)));
    assert verb + " " + uri + " HTTP/" == verb + " " + (uri + " ") + "HTTP/";
  }

  lemma VersionIsRead(p: Parser, major: string, minor: string)
    requires p.state == MajorStart && p.req.major == 0 && p.req.minor == 0
    requires major != "" && AllDigits(major) && minor != "" && AllDigits(minor)
    ensures Reads(p, major + "." + minor + "\r\n",
      Parser(LineStart, p.req.(major := Number(major), minor := Number(minor))))
  {
    var q := Parser(MinorStart, p.req.(major := Number(major)));
    MajorIsRead(p, major);
    MinorIsRead(q, minor);
    Then(p, major + ".", q, minor + "\r\n", Parser(LineStart, q.req.(minor := Number(minor))));
    assert major + "." + minor + "\r\n" == major + "." + (minor + "\r\n");
  }

  lemma LineIsRead(p: Parser, t: Text)
    requires IsNew(p) && TextOk(t)
    ensures Reads(p, LineText(t), Parser(LineStart, Meaning(t).(headers := [])))
  {
    var q := Parser(MajorStart, p.req.(verb := t.verb, uri := t.uri, major := 0, minor := 0));
    TargetIsRead(p, t.verb, t.uri);
    VersionIsRead(q, t.major, t.minor);
    Then(p, t.verb + " " + t.uri + " HTTP/", q, t.major + "." + t.minor + "\r\n",
      Parser(LineStart, Meaning(t).(headers := [])));
    assert LineText(t) == t.verb + " " + t.uri + " HTTP/" + (t.major + "." + t.minor + "\r\n");
  }

  lemma EndIsAccepted(p: Parser)
    requires p.state == LineStart
    ensures Parse(p, "\r\n") == Outcome(Accepted, Parser(Newline3, p.req), 2)
  {
    assert "\r\n"[1..] == "\n" && "\n"[1..] == "";
  }

  /** Every text of the grammar is accepted as what it means, and all of it is consumed, whatever follows it. */
  lemma TextIsAccepted(p: Parser, t: Text, rest: string)
    requires IsNew(p) && TextOk(t)
    ensures Parse(p, Print(t) + rest) == Outcome(Accepted, Parser(Newline3, Meaning(t)), |Print(t)|)
  {
    var lined, headed := Parser(LineStart, Meaning(t).(headers := [])), Parser(LineStart, Meaning(t));
    LineIsRead(p, t);
    HeadersAreRead(lined, t.headers);
    Then(p, LineText(t), lined, HeadersText(t.headers), headed);
    EndIsAccepted(headed);
    ParseJoin(p, LineText(t) + HeadersText(t.headers), "\r\n");
    ParseJoin(p, Print(t), rest);
  }

  // ----- the characters themselves -----

  /** The token characters of section 2.2 of RFC 2616, and the other classes the grammar uses. */
  lemma CharacterClasses(c: char)
    ensures IsToken(c) <==>
      '0' <= c <= '9' || 'A' <= c <= 'Z' || 'a' <= c <= 'z' || c in "!#$%&'*+-.^_`|~"
    ensures IsCtl(c) <==> c < ' ' || c == (127 as char)
    ensures IsBlank(c) <==> c in " \t"
    ensures IsDigit(c) <==> c in "0123456789"
    ensures IsDigit(c) ==> "0123456789"[Digit(c)] == c
  {
    PunctuationIn(c);
    TspecialsIn(c);
    DigitsIn(c);
  }

  lemma PunctuationIn(c: char)
    ensures c in "!#$%&'*+-.^_`|~" <==>
      c == '!' || ('#' <= c <= '\'') || c == '*' || c == '+' || c == '-' || c == '.' || c == '^' || c == '_' || c == '`'
      || c == '|' || c == '~'
  {
  }

  lemma TspecialsIn(c: char)
    ensures IsTspecial(c) <==>
      c == '\t' || c == ' ' || c == '"' || c == '(' || c == ')' || c == ',' || c == '/' || (':' <= c <= '@')
      || ('[' <= c <= ']') || c == '{' || c == '}'
  {
  }

  lemma DigitsIn(c: char)
    ensures c in "0123456789" <==> '0' <= c <= '9'
    ensures '0' <= c <= '9' ==> "0123456789"[c as int - '0' as int] == c
  {
  }

  const EXAMPLE_LINE := "GET /a?b HTTP/1.10\r\n"
  const EXAMPLE_HOST := "Host: x\r\n"
  const EXAMPLE_NOTE := "Note: one\r\n \ttwo\r\n\t\r\n"

  const HOST_WRITTEN := Written("Host", "x", [])
  const NOTE_WRITTEN := Written("Note", "one", [Fold(" \t", "two"), Fold("\t", "")])
  const EXAMPLE_TEXT := Text("GET", "/a?b", "1", "10", [HOST_WRITTEN, NOTE_WRITTEN])

  lemma ExampleLine()
    ensures LineText(EXAMPLE_TEXT) == EXAMPLE_LINE
  {
  }

  lemma ExampleHost()
    ensures HeaderLines(HOST_WRITTEN) == EXAMPLE_HOST && HeaderOf(HOST_WRITTEN) == Header("Host", "x")
  {
  }

  lemma ExampleFolds()
    ensures FoldsText(NOTE_WRITTEN.folds) == "\r\n \ttwo\r\n\t" && Pieces(NOTE_WRITTEN.folds) == "two"
  {
    var folds := NOTE_WRITTEN.folds;
    assert folds[..1] == [folds[0]] && folds[..1][..0] == [];
    assert FoldsText(folds[..1]) == "\r\n \ttwo";
    assert Pieces(folds[..1]) == "two";
  }

  lemma ExampleNote()
    ensures HeaderLines(NOTE_WRITTEN) == EXAMPLE_NOTE && HeaderOf(NOTE_WRITTEN) == Header("Note", "onetwo")
  {
    ExampleFolds();
  }

  lemma ExampleNumbers()
    ensures Number("1") == 1 && Number("10") == 10
  {
    assert "1"[..0] == "" && "10"[..1] == "1";
  }

  lemma ExampleHeaders()
    ensures HeadersText(EXAMPLE_TEXT.headers) == EXAMPLE_HOST + EXAMPLE_NOTE
    ensures HeadersOf(EXAMPLE_TEXT.headers) == [Header("Host", "x"), Header("Note", "onetwo")]
  {
    ExampleHost();
    ExampleNote();
    var all := EXAMPLE_TEXT.headers;
    assert all[..1] == [HOST_WRITTEN] && all[..1][..0] == [];
    assert HeadersText(all[..1]) == EXAMPLE_HOST;
    var r := HeadersOf(all);
    assert r[0] == HeaderOf(all[0]) && r[1] == HeaderOf(all[1]);
  }

  lemma LettersAreTokens(s: string)
    requires forall i :: 0 <= i < |s| ==> 'A' <= s[i] <= 'Z' || 'a' <= s[i] <= 'z'
    ensures AllTokens(s) && NoCtl(s) && ' ' !in s
  {
    forall i | 0 <= i < |s|
      ensures IsToken(s[i])
    {
      CharacterClasses(s[i]);
    }
  }

  lemma ExampleHeadersOk()
    ensures WrittenOk(HOST_WRITTEN) && WrittenOk(NOTE_WRITTEN)
  {
    LettersAreTokens("Host");
    LettersAreTokens("x");
    LettersAreTokens("Note");
    LettersAreTokens("one");
    ExampleFoldsOk();
  }

  lemma ExampleFoldsOk()
    ensures FoldOk(Fold(" \t", "two")) && FoldOk(Fold("\t", ""))
  {
    LettersAreTokens("two");
    assert IsBlank(' ') && IsBlank('\t');
  }

  lemma ExampleUriOk()
    ensures UriOk("/a?b")
  {
    assert !IsCtl('/') && !IsCtl('a') && !IsCtl('?') && !IsCtl('b');
  }

  lemma ExampleOk()
    ensures TextOk(EXAMPLE_TEXT)
  {
    LettersAreTokens("GET");
    ExampleUriOk();
    ExampleHeadersOk();
    DigitsIn('1');
    DigitsIn('0');
  }

  /** A request with two headers, the second folded twice, character by character. */
  lemma ExampleIsParsed(p: Parser, rest: string)
    requires IsNew(p)
    ensures var input := EXAMPLE_LINE + (EXAMPLE_HOST + EXAMPLE_NOTE) + "\r\n";
      Parse(p, input + rest) == Outcome(Accepted,
        Parser(Newline3, Request("GET", "/a?b", 1, 10, [Header("Host", "x"), Header("Note", "onetwo")])), |input|)
  {
    ExampleOk();
    ExampleLine();
    ExampleHeaders();
    ExampleNumbers();
    TextIsAccepted(p, EXAMPLE_TEXT, rest);
  }

  // ----- only the grammar is accepted -----

  predicate Accepts(p: Parser, s: string) { Parse(p, s).verdict == Accepted }

  /** The state and whether there is a header decide what a character leads to. */
  predicate Alike(p: Parser, q: Parser) { p.state == q.state && |p.req.headers| == |q.req.headers| }

  lemma Peel(p: Parser, s: string) returns (q: Parser)
    requires Accepts(p, s) && p.state != Newline3
    ensures s != "" && Step(p, s[0]) == Outcome(Unfinished, q, 1) && Accepts(q, s[1..])
  {
    q := Step(p, s[0]).parser;
  }

  lemma StayingIsAlike(p: Parser, c: char)
    requires Stays(p.state, c)
    ensures Step(p, c).verdict == Unfinished && Alike(Step(p, c).parser, p)
  {
  }

  /** An accepted input leaves any state: `a` is read in the state and `b` starts with the character that leaves it. */
  lemma {:induction false} Leaves(p: Parser, s: string) returns (a: string, b: string, q: Parser)
    requires Accepts(p, s) && p.state != Newline3
    ensures s == a + b && Alike(p, q) && Accepts(q, b)
    ensures (forall i :: 0 <= i < |a| ==> Stays(p.state, a[i])) && b != "" && !Stays(p.state, b[0])
    decreases |s|
  {
    q := Peel(p, s);
    if Stays(p.state, s[0]) {
      StayingIsAlike(p, s[0]);
      a, b, q := Leaves(q, s[1..]);
      a := [s[0]] + a;
    } else {
      a, b, q := "", s, p;
    }
  }

  lemma Regroup(whole: string, a: string, b: string, c: string, ab: string, bc: string)
    requires whole == ab + c && ab == a + b && bc == b + c
    ensures whole == a + bc
  {
  }

  lemma {:induction false} FoldsFromFront(f: Fold, folds: seq<Fold>)
    ensures FoldsText([f] + folds) == FoldText(f) + FoldsText(folds)
  {
    var all := [f] + folds;
    if folds == [] {
      assert all[..0] == [];
    } else {
      var rest, g := folds[..|folds| - 1], folds[|folds| - 1];
      FoldsFromFront(f, rest);
      assert all[..|all| - 1] == [f] + rest && all[|all| - 1] == g;
      Regroup(FoldsText(all), FoldText(f), FoldsText(rest), FoldText(g), FoldsText([f] + rest), FoldsText(folds));
    }
  }

  lemma {:induction false} HeadersFromFront(w: Written, headers: seq<Written>)
    ensures HeadersText([w] + headers) == HeaderLines(w) + HeadersText(headers)
  {
    var all := [w] + headers;
    if headers == [] {
      assert all[..0] == [];
    } else {
      var rest, v := headers[..|headers| - 1], headers[|headers| - 1];
      HeadersFromFront(w, rest);
      assert all[..|all| - 1] == [w] + rest && all[|all| - 1] == v;
      Regroup(HeadersText(all), HeaderLines(w), HeadersText(rest), HeaderLines(v), HeadersText([w] + rest),
        HeadersText(headers));
    }
  }

  /** A line end after a minor version or a value. */
  lemma LineEndLeaves(p: Parser, s: string) returns (b: string, q: Parser)
    requires (p.state == HeaderValue || p.state == Minor) && Accepts(p, s) && s != "" && !Stays(p.state, s[0])
    ensures s == "\r\n" + b && q == Parser(LineStart, p.req) && Accepts(q, b)
  {
    q := Peel(p, s);
    q := Peel(q, s[1..]);
    b := s[2..];
    assert s[1..][1..] == b && s[1..][0] == s[1];
    assert s == [s[0], s[1]] + b;
  }

  /** One line of a header's value and its end. */
  lemma LineRead(p: Parser, s: string) returns (piece: string, b: string, q: Parser)
    requires p.state == HeaderValue && Accepts(p, s)
    ensures s == piece + "\r\n" + b && NoCtl(piece) && q.state == LineStart && Accepts(q, b)
      && |q.req.headers| == |p.req.headers|
  {
    piece, b, q := Leaves(p, s);
    b, q := LineEndLeaves(q, b);
  }

  /** The blanks of a folded line; what follows is read as it would be in the value. */
  lemma BlanksRead(p: Parser, s: string) returns (blanks: string, b: string, q: Parser)
    requires p.state == LineStart && Accepts(p, s) && p.req.headers != [] && s != "" && IsBlank(s[0])
    ensures s == blanks + b && blanks != "" && (forall i :: 0 <= i < |blanks| ==> IsBlank(blanks[i]))
    ensures b != "" && b[0] != ' ' && q.state == HeaderValue && q.req.headers != [] && Accepts(q, b)
  {
    q := Peel(p, s);
    blanks, b, q := Leaves(q, s[1..]);
    blanks := [s[0]] + blanks;
    var _ := Peel(q, b);
    assert Step(q, b[0]) == Step(Parser(HeaderValue, q.req), b[0]);
    q := Parser(HeaderValue, q.req);
  }

  /** What is read when the lines after the first one are known. */
  lemma WithFold(s: string, piece: string, f: Fold, folds: seq<Fold>, b: string)
    requires s == piece + "\r\n" + (f.blanks + (f.piece + FoldsText(folds) + "\r\n" + b))
    ensures s == piece + FoldsText([f] + folds) + "\r\n" + b
  {
    FoldsFromFront(f, folds);
    assert s == piece + (FoldText(f) + FoldsText(folds)) + "\r\n" + b;
  }

  /** The rest of a header: its value, the folded lines and the end of the last line. */
  lemma {:induction false} ValueRead(p: Parser, s: string)
    returns (piece: string, folds: seq<Fold>, b: string, q: Parser)
    requires p.state == HeaderValue && p.req.headers != [] && Accepts(p, s)
    ensures s == piece + FoldsText(folds) + "\r\n" + b && NoCtl(piece)
    ensures forall i :: 0 <= i < |folds| ==> FoldOk(folds[i])
    ensures q.state == LineStart && Accepts(q, b) && b != "" && !IsBlank(b[0])
    decreases |s|
  {
    piece, b, q := LineRead(p, s);
    folds := [];
    var _ := Peel(q, b);
    if IsBlank(b[0]) {
      var blanks, rest, r := BlanksRead(q, b);
      var more;
      more, folds, b, q := ValueRead(r, rest);
      assert more != "" ==> more[0] == rest[0];
      WithFold(s, piece, Fold(blanks, more), folds, b);
      assert FoldOk(Fold(blanks, more));
      folds := [Fold(blanks, more)] + folds;
    } else {
      assert piece + FoldsText([]) == piece;
    }
  }

  lemma TwoOff(s: string)
    requires |s| >= 2
    ensures s[1..][0] == s[1] && s[1..][1..] == s[2..] && s == [s[0], s[1]] + s[2..]
  {
  }

  lemma ColonLeaves(p: Parser, s: string) returns (b: string, q: Parser)
    requires p.state == HeaderName && Accepts(p, s) && s != "" && !Stays(p.state, s[0])
    ensures s == ": " + b && q == Parser(HeaderValue, p.req) && Accepts(q, b)
  {
    q := Peel(p, s);
    q := Peel(q, s[1..]);
    b := s[2..];
    TwoOff(s);
  }

  lemma OneMoreInFront(s: string, name: string, colon: string, b: string)
    requires s != "" && s[1..] == name + colon && colon == ": " + b
    ensures s == ([s[0]] + name) + ": " + b
  {
    assert s == [s[0]] + s[1..];
  }

  lemma NameRead(p: Parser, s: string) returns (name: string, b: string, q: Parser)
    requires p.state == LineStart && Accepts(p, s) && s != "" && IsToken(s[0])
    ensures s == name + ": " + b && name != "" && AllTokens(name)
    ensures q.state == HeaderValue && q.req.headers != [] && Accepts(q, b)
  {
    q := Peel(p, s);
    var rest, colon;
    rest, colon, q := Leaves(q, s[1..]);
    b, q := ColonLeaves(q, colon);
    OneMoreInFront(s, rest, colon, b);
    name := [s[0]] + rest;
  }

  lemma HeaderRead(p: Parser, s: string) returns (w: Written, b: string, q: Parser)
    requires p.state == LineStart && Accepts(p, s) && s != "" && IsToken(s[0])
    ensures WrittenOk(w) && s == HeaderLines(w) + b
    ensures q.state == LineStart && Accepts(q, b) && b != "" && !IsBlank(b[0])
  {
    var name, value, r := NameRead(p, s);
    var first, folds;
    first, folds, b, q := ValueRead(r, value);
    w := Written(name, first, folds);
    assert s == name + ": " + first + FoldsText(folds) + "\r\n" + b;
  }

  lemma StartsWith(s: string, head: string, b: string, rest: string)
    requires s == head + b && rest <= b
    ensures head + rest <= s
  {
  }

  lemma EndRead(p: Parser, s: string)
    requires p.state == LineStart && Accepts(p, s) && s[0] == '\r'
    ensures HeadersText([]) + "\r\n" <= s
  {
    var q := Peel(p, s);
    assert s[1..][0] == '\n';
    assert HeadersText([]) + "\r\n" == "\r\n";
  }

  lemma HeaderInFront(s: string, w: Written, headers: seq<Written>, b: string)
    requires s == HeaderLines(w) + b && HeadersText(headers) + "\r\n" <= b
    ensures HeadersText([w] + headers) + "\r\n" <= s
  {
    StartsWith(s, HeaderLines(w), b, HeadersText(headers) + "\r\n");
    HeadersFromFront(w, headers);
    Regroup(HeadersText([w] + headers) + "\r\n", HeaderLines(w), HeadersText(headers), "\r\n",
            HeadersText([w] + headers), HeadersText(headers) + "\r\n");
  }

  lemma {:induction false} HeadersRead(p: Parser, s: string) returns (headers: seq<Written>)
    requires p.state == LineStart && Accepts(p, s) && (p.req.headers == [] || !IsBlank(s[0]))
    ensures (forall i :: 0 <= i < |headers| ==> WrittenOk(headers[i])) && HeadersText(headers) + "\r\n" <= s
    decreases |s|
  {
    if s[0] == '\r' {
      EndRead(p, s);
      headers := [];
    } else {
      var _ := Peel(p, s);
      var w, b, r := HeaderRead(p, s);
      headers := HeadersRead(r, b);
      HeaderInFront(s, w, headers, b);
      headers := [w] + headers;
    }
  }

  lemma VerbRead(p: Parser, s: string) returns (verb: string, b: string, q: Parser)
    requires p.state == MethodStart && Accepts(p, s)
    ensures s == verb + " " + b && verb != "" && AllTokens(verb) && Accepts(q, b) && q.state == Uri
      && |q.req.headers| == |p.req.headers|
  {
    q := Peel(p, s);
    verb, b, q := Leaves(q, s[1..]);
    verb := [s[0]] + verb;
    assert s == verb + b;
    q := Peel(q, b);
    assert b == " " + b[1..];
    b := b[1..];
  }

  lemma UriRead(p: Parser, s: string) returns (uri: string, b: string, q: Parser)
    requires p.state == Uri && Accepts(p, s)
    ensures s == uri + " " + b && UriOk(uri) && Accepts(q, b) && q.state == VersionH
      && |q.req.headers| == |p.req.headers|
  {
    uri, b, q := Leaves(p, s);
    q := Peel(q, b);
    assert b == " " + b[1..];
    b := b[1..];
  }

  lemma ProtocolRead(p: Parser, s: string) returns (b: string, q: Parser)
    requires p.state == VersionH && Accepts(p, s)
    ensures s == "HTTP/" + b && Accepts(q, b) && q.state == MajorStart && |q.req.headers| == |p.req.headers|
  {
    q := Peel(p, s);
    q := Peel(q, s[1..]);
    assert s[1..][1..] == s[2..];
    q := Peel(q, s[2..]);
    assert s[2..][1..] == s[3..];
    q := Peel(q, s[3..]);
    assert s[3..][1..] == s[4..];
    q := Peel(q, s[4..]);
    b := s[5..];
    assert s[4..][1..] == b;
    assert s[..5] == "HTTP/";
  }

  lemma MajorRead(p: Parser, s: string) returns (major: string, b: string, q: Parser)
    requires p.state == MajorStart && Accepts(p, s)
    ensures s == major + "." + b && major != "" && AllDigits(major) && Accepts(q, b) && q.state == MinorStart
      && |q.req.headers| == |p.req.headers|
  {
    q := Peel(p, s);
    major, b, q := Leaves(q, s[1..]);
    major := [s[0]] + major;
    assert s == major + b;
    q := Peel(q, b);
    assert b == "." + b[1..];
    b := b[1..];
  }

  lemma MinorRead(p: Parser, s: string) returns (minor: string, b: string, q: Parser)
    requires p.state == MinorStart && Accepts(p, s)
    ensures s == minor + "\r\n" + b && minor != "" && AllDigits(minor) && Accepts(q, b) && q.state == LineStart
      && |q.req.headers| == |p.req.headers|
  {
    q := Peel(p, s);
    minor, b, q := Leaves(q, s[1..]);
    minor := [s[0]] + minor;
    assert s == minor + b;
    b, q := LineEndLeaves(q, b);
  }

  /** The request line, up to the headers. */
  lemma RequestLineRead(p: Parser, s: string) returns (t: Text, b: string, q: Parser)
    requires IsNew(p) && Accepts(p, s)
    ensures TextOk(t) && t.headers == [] && s == LineText(t) + b
    ensures q.state == LineStart && q.req.headers == [] && Accepts(q, b)
  {
    var verb, b1, q1 := VerbRead(p, s);
    var uri, b2, q2 := UriRead(q1, b1);
    var b3, q3 := ProtocolRead(q2, b2);
    var major, b4, q4 := MajorRead(q3, b3);
    var minor;
    minor, b, q := MinorRead(q4, b4);
    t := Text(verb, uri, major, minor, []);
    LineJoined(t, b1, b2, b3, b4, b);
  }

  lemma LineJoined(t: Text, b1: string, b2: string, b3: string, b4: string, b5: string)
    requires b1 == t.uri + " " + b2 && b2 == "HTTP/" + b3 && b3 == t.major + "." + b4 && b4 == t.minor + "\r\n" + b5
    ensures t.verb + " " + b1 == LineText(t) + b5
  {
    assert b3 == t.major + "." + t.minor + "\r\n" + b5;
    assert b2 == "HTTP/" + t.major + "." + t.minor + "\r\n" + b5;
    assert t.uri + " " + b2 == t.uri + " HTTP/" + t.major + "." + t.minor + "\r\n" + b5;
  }

  lemma TextRead(p: Parser, s: string) returns (t: Text)
    requires IsNew(p) && Accepts(p, s)
    ensures TextOk(t) && Print(t) <= s
  {
    var b, q;
    t, b, q := RequestLineRead(p, s);
    var headers := HeadersRead(q, b);
    var end := HeadersText(headers) + "\r\n";
    assert b == end + b[|end|..];
    assert s == LineText(t) + end + b[|end|..];
    t := t.(headers := headers);
  }

  /**
   * A request is accepted exactly when the input starts with a text of the grammar; the request is what the text
   * means and the text is what is consumed.
   */
  lemma AcceptedIffInGrammar(p: Parser, input: string)
    requires IsNew(p)
    ensures Parse(p, input).verdict == Accepted <==> exists t :: TextOk(t) && Print(t) <= input
    ensures forall t :: TextOk(t) && Print(t) <= input ==>
      Parse(p, input).parser.req == Meaning(t) && Parse(p, input).consumed == |Print(t)|
  {
    if Parse(p, input).verdict == Accepted {
      var t := TextRead(p, input);
    }
    forall t | TextOk(t) && Print(t) <= input
      ensures Parse(p, input).verdict == Accepted && Parse(p, input).parser.req == Meaning(t)
        && Parse(p, input).consumed == |Print(t)|
    {
      TextIsAccepted(p, t, input[|Print(t)|..]);
      assert Print(t) + input[|Print(t)|..] == input;
    }
  }

  /** No text of the grammar starts with another, and no text has two meanings. */
  lemma GrammarIsUnambiguous(t: Text, u: Text)
    requires TextOk(t) && TextOk(u) && Print(t) <= Print(u)
    ensures Print(t) == Print(u) && Meaning(t) == Meaning(u)
  {
    AcceptedIffInGrammar(Parser(MethodStart, Request("", "", 0, 0, [])), Print(u));
  }

  // ----- printing a request -----

  function Decimal(n: nat): (r: string)
    ensures r != "" && AllDigits(r)
  {
    if n < 10 then [(n as char) + '0'] else Decimal(n / 10) + [((n % 10) as char) + '0']
  }

  lemma {:induction false} NumberOfDecimal(n: nat)
    ensures Number(Decimal(n)) == n
  {
    if n >= 10 {
      NumberOfDecimal(n / 10);
      assert Decimal(n)[..|Decimal(n)| - 1] == Decimal(n / 10);
    } else {
      assert Decimal(n)[..0] == "";
    }
  }

  predicate RequestOk(r: Request) {
    && r.verb != "" && AllTokens(r.verb) && UriOk(r.uri) && r.major >= 0 && r.minor >= 0
    && forall i :: 0 <= i < |r.headers| ==>
      r.headers[i].name != "" && AllTokens(r.headers[i].name) && NoCtl(r.headers[i].value)
  }

  function TextOf(r: Request): Text
    requires RequestOk(r)
  {
    Text(r.verb, r.uri, Decimal(r.major), Decimal(r.minor),
         seq(|r.headers|, i requires 0 <= i < |r.headers| => Written(r.headers[i].name, r.headers[i].value, [])))
  }

  /** Printing a well-formed request and parsing it gives it back and consumes it all. */
  lemma PrintThenParse(p: Parser, r: Request, rest: string)
    requires IsNew(p) && RequestOk(r)
    ensures TextOk(TextOf(r))
    ensures Parse(p, Print(TextOf(r)) + rest) == Outcome(Accepted, Parser(Newline3, r), |Print(TextOf(r))|)
  {
    var t := TextOf(r);
    NumberOfDecimal(r.major);
    NumberOfDecimal(r.minor);
    forall i | 0 <= i < |r.headers|
      ensures HeadersOf(t.headers)[i] == r.headers[i]
    {
      assert r.headers[i].value + "" == r.headers[i].value;
    }
    assert HeadersOf(t.headers) == r.headers;
    TextIsAccepted(p, t, rest);
  }

  lemma {:induction false} PiecesAreClean(folds: seq<Fold>)
    requires forall i :: 0 <= i < |folds| ==> FoldOk(folds[i])
    ensures NoCtl(Pieces(folds))
  {
    if folds != [] {
      PiecesAreClean(folds[..|folds| - 1]);
    }
  }

  lemma {:induction false} NumberIsNatural(digits: string)
    requires AllDigits(digits)
    ensures Number(digits) >= 0
  {
    if digits != "" {
      NumberIsNatural(digits[..|digits| - 1]);
    }
  }

  lemma MeaningIsWellFormed(t: Text, r: Request)
    requires TextOk(t) && r == Meaning(t)
    ensures RequestOk(r)
  {
    NumberIsNatural(t.major);
    NumberIsNatural(t.minor);
    forall i | 0 <= i < |t.headers|
      ensures NoCtl(r.headers[i].value)
    {
      PiecesAreClean(t.headers[i].folds);
      assert WrittenOk(t.headers[i]);
    }
  }

  /** A request can come out of the parser exactly when it is well-formed. */
  lemma ParsableIffWellFormed(p: Parser, r: Request)
    requires IsNew(p)
    ensures RequestOk(r) <==> exists input :: Parse(p, input).verdict == Accepted && Parse(p, input).parser.req == r
  {
    if RequestOk(r) {
      PrintThenParse(p, r, "");
      assert Parse(p, Print(TextOf(r)) + "").verdict == Accepted;
    }
    forall input | Parse(p, input).verdict == Accepted && Parse(p, input).parser.req == r
      ensures RequestOk(r)
    {
      AcceptedIffInGrammar(p, input);
      var t :| TextOk(t) && Print(t) <= input;
      MeaningIsWellFormed(t, r);
    }
  }

  // ----- the objects -----

  predicate InLine(state: State) {
    !(state == LineStart || state == Lws || state == HeaderName || state == SpaceBeforeValue || state == HeaderValue
      || state == Newline2 || state == Newline3)
  }

  class RequestObject {
    var verb: string
    var uri: string
    var major: int
    var minor: int
    var headers: seq<Header>

    function Value(): Request
      reads this
    {
      Request(verb, uri, major, minor, headers)
    }

    constructor ()
      ensures verb == "" && uri == "" && headers == []
    {
      verb, uri, headers := "", "", [];
    }

    method PushToNewestValue(c: char)
      requires headers != []
      modifies this`headers
      ensures Value() == ValuePushed(old(Value()), [c])
    {
      var last := headers[|headers| - 1];
      headers := headers[|headers| - 1 := last.(value := last.value + [c])];
      assert last.name + "" == last.name;
    }

    method PushToNewestName(c: char)
      requires headers != []
      modifies this`headers
      ensures Value() == NamePushed(old(Value()), [c])
    {
      var last := headers[|headers| - 1];
      headers := headers[|headers| - 1 := last.(name := last.name + [c])];
      assert last.value + "" == last.value;
    }
  }

  class RequestParser {
    var state: State

    constructor ()
      ensures state == MethodStart
    {
      state := MethodStart;
    }

    method Reset()
      modifies this
      ensures state == MethodStart
    {
      state := MethodStart;
    }

    /** Inside a header there is a newest header to add to. */
    predicate HasHeader(req: RequestObject)
      reads this, req
    {
      InLine(state) || state == LineStart || state == Newline3 || req.headers != []
    }

    function Value(req: RequestObject): Parser
      reads this, req
    {
      Parser(state, req.Value())
    }

    method ConsumeInLine(req: RequestObject, input: char) returns (verdict: Verdict)
      requires InLine(state)
      modifies this, req
      ensures verdict == Step(old(Value(req)), input).verdict && Value(req) == Step(old(Value(req)), input).parser
    {
      verdict := Unfinished;
      match state {
        case MethodStart =>
          if !IsToken(input) {
            verdict := Rejected;
          } else {
            state := Method;
            req.verb := req.verb + [input];
          }
        case Method =>
          if input == ' ' {
            state := Uri;
          } else if !IsToken(input) {
            verdict := Rejected;
          } else {
            req.verb := req.verb + [input];
          }
        case Uri =>
          if input == ' ' {
            state := VersionH;
          } else if IsCtl(input) {
            verdict := Rejected;
          } else {
            req.uri := req.uri + [input];
          }
        case VersionH =>
          if input == 'H' { state := VersionT1; } else { verdict := Rejected; }
        case VersionT1 =>
          if input == 'T' { state := VersionT2; } else { verdict := Rejected; }
        case VersionT2 =>
          if input == 'T' { state := VersionP; } else { verdict := Rejected; }
        case VersionP =>
          if input == 'P' { state := VersionSlash; } else { verdict := Rejected; }
        case VersionSlash =>
          if input == '/' {
            req.major, req.minor := 0, 0;
            state := MajorStart;
          } else {
            verdict := Rejected;
          }
        case MajorStart =>
          if IsDigit(input) {
            req.major := req.major * 10 + Digit(input);
            state := Major;
          } else {
            verdict := Rejected;
          }
        case Major =>
          if input == '.' {
            state := MinorStart;
          } else if IsDigit(input) {
            req.major := req.major * 10 + Digit(input);
          } else {
            verdict := Rejected;
          }
        case MinorStart =>
          if IsDigit(input) {
            req.minor := req.minor * 10 + Digit(input);
            state := Minor;
          } else {
            verdict := Rejected;
          }
        case Minor =>
          if input == '\r' {
            state := Newline1;
          } else if IsDigit(input) {
            req.minor := req.minor * 10 + Digit(input);
          } else {
            verdict := Rejected;
          }
        case Newline1 =>
          if input == '\n' { state := LineStart; } else { verdict := Rejected; }
      }
    }

    method ConsumeInHeaders(req: RequestObject, input: char) returns (verdict: Verdict)
      requires !InLine(state) && HasHeader(req)
      modifies this, req
      ensures verdict == Step(old(Value(req)), input).verdict && Value(req) == Step(old(Value(req)), input).parser
      ensures verdict == Unfinished ==> HasHeader(req)
    {
      verdict := Unfinished;
      match state {
        case LineStart =>
          if input == '\r' {
            state := Newline3;
          } else if req.headers != [] && IsBlank(input) {
            state := Lws;
          } else if !IsToken(input) {
            verdict := Rejected;
          } else {
            req.headers := req.headers + [Header([input], "")];
            state := HeaderName;
          }
        case Lws =>
          if input == '\r' {
            state := Newline2;
          } else if IsBlank(input) {
          } else if IsCtl(input) {
            verdict := Rejected;
          } else {
            state := HeaderValue;
            req.PushToNewestValue(input);
          }
        case HeaderName =>
          if input == ':' {
            state := SpaceBeforeValue;
          } else if !IsToken(input) {
            verdict := Rejected;
          } else {
            req.PushToNewestName(input);
          }
        case SpaceBeforeValue =>
          if input == ' ' { state := HeaderValue; } else { verdict := Rejected; }
        case HeaderValue =>
          if input == '\r' {
            state := Newline2;
          } else if IsCtl(input) {
            verdict := Rejected;
          } else {
            req.PushToNewestValue(input);
          }
        case Newline2 =>
          if input == '\n' { state := LineStart; } else { verdict := Rejected; }
        case Newline3 =>
          verdict := if input == '\n' then Accepted else Rejected;
      }
    }

    method Consume(req: RequestObject, input: char) returns (verdict: Verdict)
      requires HasHeader(req)
      modifies this, req
      ensures verdict == Step(old(Value(req)), input).verdict && Value(req) == Step(old(Value(req)), input).parser
      ensures verdict == Unfinished ==> HasHeader(req)
    {
      if InLine(state) {
        verdict := ConsumeInLine(req, input);
      } else {
        verdict := ConsumeInHeaders(req, input);
      }
    }

    /** Parses one chunk of input. */
    method ParseChunk(req: RequestObject, input: string) returns (verdict: Verdict, consumed: nat)
      requires HasHeader(req)
      modifies this, req
      ensures Outcome(verdict, Value(req), consumed) == Parse(old(Value(req)), input)
      ensures verdict == Unfinished ==> HasHeader(req)
    {
      ghost var p := Value(req);
      consumed := 0;
      while consumed < |input|
        invariant consumed <= |input| && HasHeader(req)
        invariant Parse(p, input[..consumed]) == Outcome(Unfinished, Value(req), consumed)
      {
        ParseAt(p, input, consumed, Value(req));
        verdict := Consume(req, input[consumed]);
        consumed := consumed + 1;
        if verdict != Unfinished {
          return;
        }
      }
      assert input[..consumed] == input;
      verdict := Unfinished;
    }
  }
}
