/** The asinfo command gate: one frame, one whitelisted command. */
module InfoGate {
  import opened Prelude
  import opened PyText
  import opened Splitting

  const READ_ONLY_VERBS: set<string> := {
    "version", "build", "build-os", "build-time", "node", "service", "services", "services-alumni",
    "nodes", "cluster-name", "cluster-stable", "cluster-generation", "cluster-info", "health-outliers", "health-stats",
    "namespaces", "namespace", "sets", "sindex",
    "statistics", "latencies", "udf-list",
    "roster", "racks" }

  const WRITE_VERBS: set<string> := { "set-config", "recluster", "log-set", "jobs" }

  /** What the comments name as kept off both lists. */
  const DESTRUCTIVE_VERBS: set<string> := {
    "truncate-namespace", "truncate", "sindex-delete", "set-drop", "roster-set", "quiesce", "quiesce-undo", "dun", "undun" }

  /** Verbs with `/`-separated arguments, and how many they take at most. */
  const PATH_STYLE_VERBS: map<string, nat> := map["namespace" := 1, "sets" := 2, "sindex" := 2, "bins" := 1]

  datatype Reason =
    | EmbeddedWhitespace | NoPathArguments | TooManySegments | ColonInPath | BadSegment
    | EarlySemicolon | SecondColon | BareArgument

  datatype Rejection = NotSingle(reason: Reason) | VerbNotAllowed(verb: string) | WriteVerbNotAllowed(verb: string)

  // ----- the recogniser ------------------------------------------------------

  predicate HasSpace(s: string) { exists i :: 0 <= i < |s| && IsSpace(s[i]) }

  predicate IdentChar(c: char) {
    'A' <= c <= 'Z' || 'a' <= c <= 'z' || '0' <= c <= '9' || c == '_' || c == '.' || c == '$' || c == '-'
  }

  /** The segment pattern, on text without whitespace. */
  predicate Identifier(s: string) { s != "" && forall i :: 0 <= i < |s| ==> IdentChar(s[i]) }

  /** The frame without its one trailing terminator. */
  function Body(cmd: string): string { if cmd != "" && cmd[|cmd| - 1] == ';' then cmd[..|cmd| - 1] else cmd }

  function CheckSegments(segments: seq<string>): Option<Reason> {
    if segments == [] then None
    else if !Identifier(segments[0]) then Some(if ':' in segments[0] then ColonInPath else BadSegment)
    else CheckSegments(segments[1..])
  }

  function CheckPath(parts: seq<string>): Option<Reason>
    requires parts != []
  {
    if parts[0] !in PATH_STYLE_VERBS then Some(NoPathArguments)
    else if |parts| - 1 > PATH_STYLE_VERBS[parts[0]] then Some(TooManySegments)
    else CheckSegments(parts[1..])
  }

  predicate AllKeyValue(segments: seq<string>) { forall i :: 0 <= i < |segments| ==> '=' in segments[i] }

  /** The checks on a frame with no slash: `head` before the first colon, `args` after it. */
  function CheckColon(body: string): Option<Reason> {
    var head := Head(body, ':');
    if ';' in head then Some(EarlySemicolon)
    else if |head| == |body| then None
    else
      var args := body[|head| + 1..];
      var segments := Split(args, ';');
      if ':' in args then Some(SecondColon)
      else if |segments| > 1 && !AllKeyValue(segments) then Some(BareArgument)
      else None
  }

  /** Why a stripped frame is refused, or None. */
  function Defect(cmd: string): Option<Reason> {
    if HasSpace(cmd) then Some(EmbeddedWhitespace)
    else if '/' in Body(cmd) then CheckPath(Split(Body(cmd), '/'))
    else CheckColon(Body(cmd))
  }

  /** `assert_single_command` */
  function SingleCommand(command: string): Result<string, Rejection> {
    var cmd := Strip(command);
    if cmd == "" then Err(VerbNotAllowed(""))
    else match Defect(cmd) case Some(reason) => Err(NotSingle(reason)) case None => Ok(cmd)
  }

  const TERMINATORS: seq<char> := [':', '/', ';', '\n', ' ', '\t']

  function Stops(n: nat): set<char>
    requires n <= |TERMINATORS|
  {
    set i | 0 <= i < n :: TERMINATORS[i]
  }

  /** The text before the first terminator of any kind. */
  function VerbPrefix(s: string): string { Until(s, Stops(|TERMINATORS|)) }

  // ----- the grammar ---------------------------------------------------------

  datatype Frame =
    | Bare(word: string)
    | Path(verb: string, segments: seq<string>)
    | Colon(head: string, args: seq<string>)

  /** No separator and no whitespace. */
  predicate Word(s: string) { forall i :: 0 <= i < |s| ==> !IsSpace(s[i]) && s[i] !in {':', '/', ';'} }

  predicate WellFormed(f: Frame) {
    match f
    case Bare(word) => Word(word)
    case Path(verb, segments) =>
      && verb in PATH_STYLE_VERBS && 1 <= |segments| <= PATH_STYLE_VERBS[verb]
      && forall i :: 0 <= i < |segments| ==> Identifier(segments[i])
    case Colon(head, args) =>
      && Word(head) && args != []
      && (forall i :: 0 <= i < |args| ==> Word(args[i]))
      && (|args| > 1 ==> AllKeyValue(args))
  }

  function Render(f: Frame): string
    requires WellFormed(f)
  {
    match f
    case Bare(word) => word
    case Path(verb, segments) => verb + ['/'] + Join(segments, '/')
    case Colon(head, args) => head + [':'] + Join(args, ';')
  }

  function FrameVerb(f: Frame): string {
    match f
    case Bare(word) => word
    case Path(verb, _) => verb
    case Colon(head, _) => head
  }

  /** The frame a spelling stands for. */
  function FrameOf(body: string): Frame {
    if '/' in body then var parts := Split(body, '/'); Path(parts[0], parts[1..])
    else if ':' in body then
      var head := Head(body, ':');
      if |head| < |body| then Colon(head, Split(body[|head| + 1..], ';')) else Bare(body)
    else Bare(body)
  }

  // ----- the recogniser accepts exactly the grammar ---------------------------

  lemma {:induction false} SegmentsIff(segments: seq<string>)
    ensures CheckSegments(segments).None? <==> forall i :: 0 <= i < |segments| ==> Identifier(segments[i])
  {
    if segments != [] {
      SegmentsIff(segments[1..]);
      assert forall i :: 1 <= i < |segments| ==> segments[i] == segments[1..][i - 1];
    }
  }

  lemma IdentifierIsWord(s: string)
    requires Identifier(s)
    ensures Word(s) && Free(s, '/') && Free(s, ':') && Free(s, ';')
  {
  }

  lemma PathVerbsAreWords(verb: string)
    requires verb in PATH_STYLE_VERBS
    ensures Word(verb) && Free(verb, '/') && Free(verb, ':') && Free(verb, ';') && verb != ""
  {
    assert Identifier("namespace") && Identifier("sets") && Identifier("sindex") && Identifier("bins");
    IdentifierIsWord(verb);
  }

  lemma PathFrame(body: string)
    requires '/' in body && CheckPath(Split(body, '/')).None?
    ensures WellFormed(FrameOf(body)) && Render(FrameOf(body)) == body
  {
    var parts := Split(body, '/');
    SplitJoins(body, '/');
    SegmentsIff(parts[1..]);
    assert |parts| == 1 ==> Free(body, '/');
  }

  lemma {:induction false} PartsAreWords(parts: seq<string>, sep: char)
    requires parts != [] && AllFree(parts, sep) && sep == ';'
    requires !HasSpace(Join(parts, sep)) && Free(Join(parts, sep), ':') && Free(Join(parts, sep), '/')
    ensures forall i :: 0 <= i < |parts| ==> Word(parts[i])
  {
    JoinFree(parts, sep, ':');
    JoinFree(parts, sep, '/');
    forall i | 0 <= i < |parts| ensures Word(parts[i]) {
      forall j | 0 <= j < |parts[i]| ensures !IsSpace(parts[i][j]) {
        JoinFree(parts, sep, parts[i][j]);
        assert !AllFree(parts, parts[i][j]);
      }
    }
  }

  lemma ColonFrame(body: string)
    requires !HasSpace(body) && '/' !in body && CheckColon(body).None?
    ensures WellFormed(FrameOf(body)) && Render(FrameOf(body)) == body
  {
    var head := Head(body, ':');
    HeadCuts(body, ':');
    assert Word(head) by {
      forall i | 0 <= i < |head| ensures !IsSpace(head[i]) && head[i] !in {':', '/', ';'} {
        assert head[i] == body[i];
      }
    }
    if |head| < |body| {
      var args := body[|head| + 1..];
      SplitJoins(args, ';');
      forall i | 0 <= i < |args| ensures !IsSpace(args[i]) && args[i] != '/' { assert args[i] == body[|head| + 1 + i]; }
      PartsAreWords(Split(args, ';'), ';');
      assert body[|head|] == ':';
    }
  }

  /** An accepted frame is the rendering of a frame of the grammar. */
  lemma AcceptedIsFrame(cmd: string)
    requires Defect(cmd).None?
    ensures WellFormed(FrameOf(Body(cmd))) && Render(FrameOf(Body(cmd))) == Body(cmd)
  {
    var body := Body(cmd);
    assert !HasSpace(body) by {
      forall i | 0 <= i < |body| ensures !IsSpace(body[i]) { assert body[i] == cmd[i]; }
    }
    if '/' in body {
      PathFrame(body);
    } else {
      ColonFrame(body);
    }
  }

  lemma {:induction false} JoinSpaceless(parts: seq<string>, sep: char)
    requires parts != [] && !IsSpace(sep) && forall i :: 0 <= i < |parts| ==> !HasSpace(parts[i])
    ensures !HasSpace(Join(parts, sep))
  {
    if |parts| > 1 {
      JoinSpaceless(parts[1..], sep);
    }
  }

  lemma {:induction false} JoinEnd(parts: seq<string>, sep: char)
    requires parts != [] && parts[|parts| - 1] != ""
    ensures Join(parts, sep) != ""
    ensures Join(parts, sep)[|Join(parts, sep)| - 1] == parts[|parts| - 1][|parts[|parts| - 1]| - 1]
  {
    if |parts| > 1 {
      JoinEnd(parts[1..], sep);
    }
  }

  /** A rendered frame holds no whitespace and does not end in a semicolon. */
  lemma RenderEnds(f: Frame)
    requires WellFormed(f)
    ensures !HasSpace(Render(f)) && (Render(f) == "" || Render(f)[|Render(f)| - 1] != ';')
  {
    match f
    case Bare(word) =>
    case Path(verb, segments) =>
      PathVerbsAreWords(verb);
      forall i | 0 <= i < |segments| ensures !HasSpace(segments[i]) { IdentifierIsWord(segments[i]); }
      JoinSpaceless(segments, '/');
      JoinEnd(segments, '/');
    case Colon(head, args) =>
      JoinSpaceless(args, ';');
      if |args| > 1 || args[0] != "" {
        JoinEnd(args, ';');
      }
  }

  lemma PathAccepted(verb: string, segments: seq<string>)
    requires WellFormed(Path(verb, segments))
    ensures var body := Render(Path(verb, segments)); '/' in body && CheckPath(Split(body, '/')).None?
  {
    var body := Render(Path(verb, segments));
    PathVerbsAreWords(verb);
    forall i | 0 <= i < |segments| ensures Free(segments[i], '/') { IdentifierIsWord(segments[i]); }
    JoinSplits(segments, '/');
    SplitCons(verb, '/', Join(segments, '/'));
    assert body[|verb|] == '/';
    SegmentsIff(segments);
    assert ([verb] + segments)[1..] == segments;
  }

  lemma ColonAccepted(head: string, args: seq<string>)
    requires WellFormed(Colon(head, args))
    ensures var body := Render(Colon(head, args)); '/' !in body && CheckColon(body).None?
  {
    var body, rest := Render(Colon(head, args)), Join(args, ';');
    HeadOf(head, ':', rest);
    assert body[|head| + 1..] == rest;
    JoinSplits(args, ';');
    JoinFree(args, ';', ':');
    JoinFree(args, ';', '/');
    assert Free(body, '/');
  }

  lemma BareAccepted(word: string)
    requires Word(word)
    ensures '/' !in word && CheckColon(word).None?
  {
    HeadOf(word, ':', "");
  }

  lemma RenderAccepted(f: Frame, semi: bool)
    requires WellFormed(f)
    ensures var cmd := Render(f) + (if semi then ";" else "");
            Defect(cmd).None? && Body(cmd) == Render(f)
  {
    var body := Render(f);
    RenderEnds(f);
    assert Body(body + (if semi then ";" else "")) == body;
    assert if '/' in body then CheckPath(Split(body, '/')).None? else CheckColon(body).None? by {
      match f
      case Bare(word) => BareAccepted(word);
      case Path(verb, segments) => PathAccepted(verb, segments);
      case Colon(head, args) => ColonAccepted(head, args);
    }
    hide CheckPath, CheckColon, Split, Render, WellFormed;
  }

  predicate Spells(cmd: string, f: Frame, semi: bool) {
    WellFormed(f) && cmd == Render(f) + (if semi then ";" else "")
  }

  /** The recogniser accepts exactly the grammar: a bare word, a bounded path, or a colon frame
      with one argument segment or several key=value ones, with at most one trailing `;` and
      surrounding padding; what it returns is the stripped frame, and it accepts that again. */
  lemma AcceptsExactlyTheGrammar(command: string)
    ensures SingleCommand(command).Ok? <==> Strip(command) != "" && exists f, semi :: Spells(Strip(command), f, semi)
    ensures SingleCommand(command).Ok? ==> SingleCommand(command).value == Strip(command)
    ensures SingleCommand(command).Ok? ==> SingleCommand(SingleCommand(command).value) == SingleCommand(command)
  {
    var cmd := Strip(command);
    StripIdempotent(command);
    if SingleCommand(command).Ok? {
      AcceptedIsFrame(cmd);
      assert Spells(cmd, FrameOf(Body(cmd)), |Body(cmd)| < |cmd|);
    } else if cmd != "" {
      forall f, semi | Spells(cmd, f, semi) ensures false {
        RenderAccepted(f, semi);
      }
    }
  }

  // ----- the same on text ------------------------------------------------------

  /** The characters of a path segment, by their ASCII codes: letters, digits, `$`, `-`, `.` and `_`. */
  lemma SegmentAlphabet(s: string)
    ensures Identifier(s) <==>
            s != "" && forall i :: 0 <= i < |s| ==>
                         65 <= s[i] as int <= 90 || 97 <= s[i] as int <= 122 || 48 <= s[i] as int <= 57 || s[i] as int in {36, 45, 46, 95}
  {
  }

  lemma PathText(verb: string, segments: seq<string>)
    requires Word(verb) && segments != [] && forall i :: 0 <= i < |segments| ==> Identifier(segments[i])
    ensures var cmd := verb + ['/'] + Join(segments, '/');
            && Split(cmd, '/') == [verb] + segments && '/' in cmd
            && !HasSpace(cmd) && Trim(cmd) && cmd[|cmd| - 1] != ';'
  {
    var tail := Join(segments, '/');
    var cmd := verb + ['/'] + tail;
    forall i | 0 <= i < |segments| ensures Free(segments[i], '/') && !HasSpace(segments[i]) { IdentifierIsWord(segments[i]); }
    IdentifierIsWord(segments[|segments| - 1]);
    assert Free(verb, '/');
    hide Identifier;
    JoinSplits(segments, '/');
    SplitCons(verb, '/', tail);
    JoinSpaceless(segments, '/');
    JoinEnd(segments, '/');
    assert cmd[|verb|] == '/' && cmd[|cmd| - 1] == tail[|tail| - 1];
    SpacelessTrims(cmd);
  }

  lemma SpacelessTrims(s: string)
    requires !HasSpace(s)
    ensures Trim(s)
  {
  }

  lemma PathLimit(verb: string, n: nat)
    ensures verb in PATH_STYLE_VERBS && n <= PATH_STYLE_VERBS[verb] && n >= 1 <==>
            (verb in {"namespace", "bins"} && n == 1) || (verb in {"sets", "sindex"} && 1 <= n <= 2)
  {
  }

  lemma PathDefect(cmd: string, verb: string, segments: seq<string>)
    requires Split(cmd, '/') == [verb] + segments && '/' in cmd && !HasSpace(cmd) && Trim(cmd) && cmd[|cmd| - 1] != ';'
    ensures SingleCommand(cmd).Ok? <==>
            verb in PATH_STYLE_VERBS && |segments| <= PATH_STYLE_VERBS[verb] && CheckSegments(segments).None?
  {
    hide HasSpace, Trim, Strip, Split, CheckSegments, PATH_STYLE_VERBS;
    TrimStrips(cmd);
    assert Body(cmd) == cmd && ([verb] + segments)[1..] == segments;
  }

  /** Which verbs take path arguments, and how many. */
  lemma PathArgumentsIff(verb: string, segments: seq<string>)
    requires Word(verb) && segments != [] && forall i :: 0 <= i < |segments| ==> Identifier(segments[i])
    ensures SingleCommand(verb + ['/'] + Join(segments, '/')).Ok? <==>
            (verb in {"namespace", "bins"} && |segments| == 1) || (verb in {"sets", "sindex"} && |segments| <= 2)
  {
    hide Word, Identifier, HasSpace, Trim, Join, Split, CheckSegments, SingleCommand, PATH_STYLE_VERBS;
    PathText(verb, segments);
    SegmentsIff(segments);
    PathDefect(verb + ['/'] + Join(segments, '/'), verb, segments);
    PathLimit(verb, |segments|);
  }

  lemma ColonText(head: string, args: seq<string>)
    requires Word(head) && args != [] && forall i :: 0 <= i < |args| ==> Word(args[i])
    requires args[|args| - 1] != ""
    ensures var tail := Join(args, ';');
            var cmd := head + [':'] + tail;
            && !HasSpace(cmd) && Trim(cmd) && '/' !in cmd && cmd[|cmd| - 1] != ';'
            && Head(cmd, ':') == head && cmd[|head| + 1..] == tail && Split(tail, ';') == args && ':' !in tail && ';' !in head
  {
    var tail := Join(args, ';');
    var cmd := head + [':'] + tail;
    forall i | 0 <= i < |args|
      ensures Free(args[i], ':') && Free(args[i], '/') && Free(args[i], ';') && !HasSpace(args[i])
    {
      WordsFree(args[i]);
    }
    WordsFree(head);
    WordsFree(args[|args| - 1]);
    hide Word;
    JoinSplits(args, ';');
    JoinFree(args, ';', ':');
    JoinFree(args, ';', '/');
    JoinSpaceless(args, ';');
    JoinEnd(args, ';');
    HeadOf(head, ':', tail);
    assert cmd[|cmd| - 1] == tail[|tail| - 1];
    SpacelessTrims(cmd);
  }

  lemma WordsFree(s: string)
    requires Word(s)
    ensures Free(s, ':') && Free(s, '/') && Free(s, ';') && !HasSpace(s)
    ensures s != "" ==> s[|s| - 1] != ';'
  {
  }

  lemma ColonDefect(cmd: string, head: string, args: seq<string>)
    requires !HasSpace(cmd) && Trim(cmd) && cmd != "" && '/' !in cmd && cmd[|cmd| - 1] != ';'
    requires Head(cmd, ':') == head && |head| < |cmd| && ';' !in head
    requires Split(cmd[|head| + 1..], ';') == args && ':' !in cmd[|head| + 1..]
    ensures SingleCommand(cmd).Ok? <==> |args| <= 1 || AllKeyValue(args)
  {
    hide HasSpace, Trim, Strip, Split, Head, AllKeyValue;
    TrimStrips(cmd);
    assert Body(cmd) == cmd;
  }

  lemma KeyValueIff(args: seq<string>)
    ensures AllKeyValue(args) <==> forall a :: a in args ==> '=' in a
  {
  }

  /** A colon frame takes one argument of any shape, or several that all are key=value. */
  lemma ColonArgumentsIff(head: string, args: seq<string>)
    requires Word(head) && args != [] && forall i :: 0 <= i < |args| ==> Word(args[i])
    requires args[|args| - 1] != ""
    ensures SingleCommand(head + [':'] + Join(args, ';')).Ok? <==> |args| == 1 || forall a :: a in args ==> '=' in a
  {
    hide Word, HasSpace, Trim, Join, Split, Head, SingleCommand, AllKeyValue;
    ColonText(head, args);
    ColonDefect(head + [':'] + Join(args, ';'), head, args);
    KeyValueIff(args);
  }

  // ----- the verb ------------------------------------------------------------

  lemma StopsAre()
    ensures Stops(|TERMINATORS|) == {':', '/', ';', '\n', ' ', '\t'}
  {
    var all := Stops(|TERMINATORS|);
    assert TERMINATORS[0] in all && TERMINATORS[1] in all && TERMINATORS[2] in all;
    assert TERMINATORS[3] in all && TERMINATORS[4] in all && TERMINATORS[5] in all;
  }

  lemma VerbBefore(word: string, rest: string)
    requires Word(word) && (rest == "" || rest[0] in {':', '/', ';'})
    ensures VerbPrefix(word + rest) == word
  {
    StopsAre();
    UntilOf(word, Stops(|TERMINATORS|), rest);
  }

  /** What follows the verb in a rendered frame. */
  function AfterVerb(f: Frame): string
    requires WellFormed(f)
  {
    match f
    case Bare(_) => ""
    case Path(_, segments) => ['/'] + Join(segments, '/')
    case Colon(_, args) => [':'] + Join(args, ';')
  }

  lemma FrameStart(f: Frame)
    requires WellFormed(f)
    ensures Render(f) == FrameVerb(f) + AfterVerb(f) && Word(FrameVerb(f))
    ensures AfterVerb(f) == "" || AfterVerb(f)[0] in {':', '/', ';'}
  {
    if f.Path? {
      PathVerbsAreWords(f.verb);
    }
  }

  /** The verb the splits find is the verb of the grammar. */
  lemma VerbOfFrame(f: Frame, semi: bool)
    requires WellFormed(f)
    ensures VerbPrefix(Render(f) + (if semi then ";" else "")) == FrameVerb(f)
  {
    var tail := if semi then ";" else "";
    FrameStart(f);
    VerbBefore(FrameVerb(f), AfterVerb(f) + tail);
    hide Render, AfterVerb, FrameVerb, WellFormed, VerbPrefix;
    assert FrameVerb(f) + AfterVerb(f) + tail == FrameVerb(f) + (AfterVerb(f) + tail);
  }

  // ----- an independent reading of the wire ----------------------------------

  /** The text after the last slash. */
  function LastSegment(s: string): string { var parts := Split(s, '/'); parts[|parts| - 1] }

  /** The verbs of the commands in text without `;`: the leading one, and one for every further
      word that stands before a colon. */
  function PieceVerbs(piece: string): seq<string> {
    var parts := Split(piece, ':');
    [VerbPrefix(piece)]
    + (if |parts| > 1 && '/' in parts[0] then [LastSegment(parts[0])] else [])
    + (if |parts| > 2 then seq(|parts| - 2, i requires 0 <= i < |parts| - 2 => LastSegment(parts[i + 1])) else [])
  }

  /** The verbs of `;`-separated pieces: a key=value piece inside an argument section is one more
      argument, an empty piece is nothing, anything else starts a command. */
  function PiecesVerbs(pieces: seq<string>, inArguments: bool): seq<string> {
    if pieces == [] then []
    else
      var p := pieces[0];
      if p == "" || (inArguments && '=' in p && ':' !in p) then PiecesVerbs(pieces[1..], inArguments)
      else PieceVerbs(p) + PiecesVerbs(pieces[1..], ':' in p)
  }

  /** Maximal stretches without whitespace. */
  function Tokens(s: string): seq<string> {
    if s == "" then [""]
    else
      var rest := Tokens(s[1..]);
      if IsSpace(s[0]) || rest == [] then [""] + rest else [[s[0]] + rest[0]] + rest[1..]
  }

  function TokensVerbs(tokens: seq<string>): seq<string> {
    if tokens == [] then [] else PiecesVerbs(Split(tokens[0], ';'), false) + TokensVerbs(tokens[1..])
  }

  /** Every command a reader that knows nothing of the gate could find in a frame. */
  function WireVerbs(frame: string): seq<string> { TokensVerbs(Tokens(frame)) }

  lemma {:induction false} OneToken(s: string)
    requires !HasSpace(s)
    ensures Tokens(s) == [s]
  {
    if s != "" {
      assert !HasSpace(s[1..]) by {
        forall i | 0 <= i < |s| - 1 ensures !IsSpace(s[1..][i]) { assert s[1..][i] == s[i + 1]; }
      }
      OneToken(s[1..]);
      assert [s[0]] + s[1..] == s;
    }
  }

  lemma {:induction false} MoreArguments(pieces: seq<string>)
    requires forall i :: 0 <= i < |pieces| ==> pieces[i] == "" || ('=' in pieces[i] && ':' !in pieces[i])
    ensures PiecesVerbs(pieces, true) == []
  {
    if pieces != [] {
      MoreArguments(pieces[1..]);
    }
  }

  /** The pieces of a rendered frame: its first one, and the further arguments. */
  function Pieces(f: Frame): seq<string>
    requires WellFormed(f)
  {
    if f.Colon? then [f.head + [':'] + f.args[0]] + f.args[1..] else [Render(f)]
  }

  lemma PathFreeOfSemicolon(verb: string, segments: seq<string>)
    requires WellFormed(Path(verb, segments))
    ensures Free(Render(Path(verb, segments)), ';')
  {
    PathVerbsAreWords(verb);
    forall i | 0 <= i < |segments| ensures Free(segments[i], ';') { IdentifierIsWord(segments[i]); }
    JoinFree(segments, '/', ';');
  }

  lemma ColonPieces(head: string, args: seq<string>)
    requires WellFormed(Colon(head, args))
    ensures var pieces := Pieces(Colon(head, args));
            AllFree(pieces, ';') && Join(pieces, ';') == Render(Colon(head, args))
  {
    var pieces := Pieces(Colon(head, args));
    assert pieces[1..] == args[1..];
    if |args| > 1 {
      assert Join(args, ';') == args[0] + [';'] + Join(args[1..], ';');
      hide Join;
      Associate(head + [':'], args[0], [';'] + Join(args[1..], ';'));
    }
  }

  lemma WordFree(word: string)
    requires Word(word)
    ensures Free(word, ';')
  {
  }

  lemma OnePiece(piece: string)
    requires Free(piece, ';')
    ensures AllFree([piece], ';') && Join([piece], ';') == piece
  {
  }

  lemma PiecesJoin(f: Frame)
    requires WellFormed(f)
    ensures AllFree(Pieces(f), ';') && Join(Pieces(f), ';') == Render(f)
  {
    hide Free, AllFree, Join, AllKeyValue, Identifier, Word;
    match f
    case Bare(word) =>
      WordFree(word);
      OnePiece(word);
    case Path(verb, segments) =>
      PathFreeOfSemicolon(verb, segments);
      OnePiece(Render(f));
    case Colon(head, args) => ColonPieces(head, args);
  }

  lemma FirstPieceVerb(f: Frame)
    requires WellFormed(f)
    ensures PieceVerbs(Pieces(f)[0]) == [FrameVerb(f)]
  {
    match f
    case Bare(word) =>
      VerbOfFrame(f, false);
      assert word + "" == word;
      SplitFree(word, ':');
    case Path(verb, segments) =>
      VerbOfFrame(f, false);
      assert Render(f) + "" == Render(f);
      PathVerbsAreWords(verb);
      forall i | 0 <= i < |segments| ensures Free(segments[i], ':') { IdentifierIsWord(segments[i]); }
      JoinFree(segments, '/', ':');
      SplitFree(Render(f), ':');
    case Colon(head, args) =>
      var single := Colon(head, args[..1]);
      VerbOfFrame(single, false);
      assert Render(single) + "" == Pieces(f)[0];
      SplitFree(args[0], ':');
      SplitCons(head, ':', args[0]);
  }

  lemma SpacelessVerbs(cmd: string)
    requires !HasSpace(cmd)
    ensures WireVerbs(cmd) == PiecesVerbs(Split(cmd, ';'), false)
  {
    OneToken(cmd);
    assert [cmd][1..] == [];
    assert TokensVerbs([]) == [];
  }

  lemma OnePieceVerbs(piece: string, verb: string, semi: bool)
    requires piece != "" && PieceVerbs(piece) == [verb]
    ensures PiecesVerbs([piece] + (if semi then [""] else []), false) == [verb]
  {
    hide PieceVerbs;
    var pieces := [piece] + (if semi then [""] else []);
    assert pieces[1..] == if semi then [""] else [];
    assert [""][1..] == [];
    assert forall flag :: PiecesVerbs(pieces[1..], flag) == [];
  }

  lemma ArgumentPieces(first: string, rest: seq<string>, verb: string)
    requires ':' in first && PieceVerbs(first) == [verb]
    requires forall i :: 0 <= i < |rest| ==> rest[i] == "" || ('=' in rest[i] && ':' !in rest[i])
    ensures PiecesVerbs([first] + rest, false) == [verb]
  {
    hide PieceVerbs;
    MoreArguments(rest);
    assert ([first] + rest)[1..] == rest;
  }

  lemma PiecesAreOneCommand(f: Frame, semi: bool)
    requires WellFormed(f) && Render(f) != ""
    ensures PiecesVerbs(Pieces(f) + (if semi then [""] else []), false) == [FrameVerb(f)]
  {
    hide PieceVerbs, PiecesVerbs, Render, FrameVerb, Identifier, IsSpace;
    FirstPieceVerb(f);
    if f.Colon? {
      var rest := Pieces(f)[1..] + (if semi then [""] else []);
      assert Pieces(f)[0][|f.head|] == ':';
      Associate([Pieces(f)[0]], Pieces(f)[1..], if semi then [""] else []);
      assert Pieces(f) == [Pieces(f)[0]] + Pieces(f)[1..];
      ArgumentPieces(Pieces(f)[0], rest, FrameVerb(f));
    } else {
      OnePieceVerbs(Render(f), FrameVerb(f), semi);
    }
  }

  lemma PiecesOfCommand(f: Frame, semi: bool)
    requires WellFormed(f)
    ensures var pieces := Pieces(f) + (if semi then [""] else []);
            AllFree(pieces, ';') && Join(pieces, ';') == Render(f) + (if semi then ";" else "")
  {
    PiecesJoin(f);
    hide Join, Render, WellFormed, Pieces, Free;
    if semi {
      JoinSnoc(Pieces(f), ';', "");
      assert Free("", ';') by { NothingHeldBack(); }
    } else {
      assert Pieces(f) + [] == Pieces(f) && Render(f) + "" == Render(f);
    }
  }

  lemma NothingHeldBack()
    ensures Free("", ';')
  {
  }

  /** Read by the independent splitter, a frame of the grammar holds exactly one command, its own. */
  lemma FrameIsOneCommand(f: Frame, semi: bool)
    requires WellFormed(f) && Render(f) != ""
    ensures WireVerbs(Render(f) + (if semi then ";" else "")) == [FrameVerb(f)]
  {
    var cmd := Render(f) + (if semi then ";" else "");
    var pieces := Pieces(f) + (if semi then [""] else []);
    assert !HasSpace(cmd) by { RenderEnds(f); }
    hide Join, Split, Render, WellFormed, Pieces, AllFree, HasSpace, WireVerbs, PiecesVerbs, FrameVerb;
    SpacelessVerbs(cmd);
    PiecesOfCommand(f, semi);
    JoinSplits(pieces, ';');
    PiecesAreOneCommand(f, semi);
  }

  // ----- the gates -----------------------------------------------------------

  datatype ValidatedInfoCommand = ValidatedInfoCommand(command: string, verb: string)

  function VerbOf(command: string): Result<string, Rejection> {
    if Strip(command) == "" then Err(VerbNotAllowed("")) else Ok(VerbPrefix(Strip(command)))
  }

  function AllowedVerbs(write: bool): set<string> { if write then READ_ONLY_VERBS + WRITE_VERBS else READ_ONLY_VERBS }

  /** `assert_read_only` and, with `write`, `assert_write_allowed`. */
  function Gate(command: string, write: bool): Result<ValidatedInfoCommand, Rejection> {
    match SingleCommand(command)
    case Err(e) => Err(e)
    case Ok(validated) =>
      match VerbOf(validated)
      case Err(e) => Err(e)
      case Ok(verb) =>
        if verb in AllowedVerbs(write) then Ok(ValidatedInfoCommand(validated, verb))
        else Err(if write then WriteVerbNotAllowed(verb) else VerbNotAllowed(verb))
  }

  lemma AllowedNotEmpty(verb: string, write: bool)
    requires verb in AllowedVerbs(write)
    ensures verb != ""
  {
  }

  lemma SpelledFrame(cmd: string, f: Frame, semi: bool)
    requires Spells(cmd, f, semi)
    ensures VerbPrefix(cmd) == FrameVerb(f)
    ensures FrameVerb(f) != "" ==> cmd != "" && WireVerbs(cmd) == [FrameVerb(f)]
  {
    VerbOfFrame(f, semi);
    if FrameVerb(f) != "" {
      FrameStart(f);
      FrameIsOneCommand(f, semi);
    }
  }

  /** A command passes exactly when it spells a frame of the grammar with a whitelisted verb;
      what is put on the wire is then the stripped frame, in which an independent splitter finds
      that one verb and no other command. */
  lemma GatePassesOneWhitelistedCommand(command: string, write: bool)
    ensures Gate(command, write).Ok? <==>
            exists f, semi :: Spells(Strip(command), f, semi) && FrameVerb(f) in AllowedVerbs(write)
    ensures Gate(command, write).Ok? ==>
              var v := Gate(command, write).value;
              v.command == Strip(command) && v.verb in AllowedVerbs(write) && WireVerbs(v.command) == [v.verb]
  {
    hide AllowedVerbs, VerbPrefix, WireVerbs, Spells, FrameVerb, Strip, SingleCommand;
    var cmd := Strip(command);
    AcceptsExactlyTheGrammar(command);
    StripIdempotent(command);
    forall f, semi | Spells(cmd, f, semi)
      ensures VerbPrefix(cmd) == FrameVerb(f)
      ensures FrameVerb(f) in AllowedVerbs(write) ==> cmd != "" && WireVerbs(cmd) == [FrameVerb(f)]
    {
      SpelledFrame(cmd, f, semi);
      if FrameVerb(f) in AllowedVerbs(write) {
        AllowedNotEmpty(FrameVerb(f), write);
      }
    }
  }

  /** The two lists share no verb, and none of the verbs that destroy data or change membership is on
      either. */
  lemma ListsApart(verb: string)
    ensures verb in READ_ONLY_VERBS ==> verb !in WRITE_VERBS
    ensures verb in DESTRUCTIVE_VERBS ==> verb !in READ_ONLY_VERBS && verb !in WRITE_VERBS
  {
  }

  /** The read gate passes exactly the single commands with a verb of the read list, the write gate
      those with a verb of either; so no write verb passes the read gate, and whatever the read gate
      passes the write gate passes as the same command.  A destructive verb passes neither. */
  lemma GatesIff(command: string)
    ensures Gate(command, false).Ok? <==>
            exists f, semi :: Spells(Strip(command), f, semi) && FrameVerb(f) in READ_ONLY_VERBS
    ensures Gate(command, true).Ok? <==>
            exists f, semi :: Spells(Strip(command), f, semi) && (FrameVerb(f) in READ_ONLY_VERBS || FrameVerb(f) in WRITE_VERBS)
    ensures Gate(command, false).Ok? ==>
              && Gate(command, false).value.verb !in WRITE_VERBS
              && Gate(command, true) == Gate(command, false)
    ensures Gate(command, true).Ok? ==> Gate(command, true).value.verb !in DESTRUCTIVE_VERBS
  {
    GatePassesOneWhitelistedCommand(command, false);
    GatePassesOneWhitelistedCommand(command, true);
    assert AllowedVerbs(false) == READ_ONLY_VERBS && AllowedVerbs(true) == READ_ONLY_VERBS + WRITE_VERBS;
    if Gate(command, false).Ok? {
      ListsApart(Gate(command, false).value.verb);
    }
    if Gate(command, true).Ok? {
      ListsApart(Gate(command, true).value.verb);
    }
    hide READ_ONLY_VERBS, WRITE_VERBS, DESTRUCTIVE_VERBS, AllowedVerbs, Spells, FrameVerb, Strip, SingleCommand, VerbOf, WireVerbs;
  }

  lemma BareSpells(verb: string)
    requires Word(verb)
    ensures Strip(verb) == verb && Spells(verb, Bare(verb), false)
    ensures forall f, semi :: Spells(verb, f, semi) ==> FrameVerb(f) == verb
  {
    SpacelessTrims(verb);
    TrimStrips(verb);
    assert verb + "" == verb;
    assert Spells(verb, Bare(verb), false);
    hide Spells, FrameVerb, Strip, VerbPrefix;
    SpelledFrame(verb, Bare(verb), false);
    assert FrameVerb(Bare(verb)) == verb by { BareVerb(verb); }
    forall f, semi | Spells(verb, f, semi) ensures FrameVerb(f) == verb { SpelledFrame(verb, f, semi); }
  }

  lemma BareVerb(word: string)
    ensures FrameVerb(Bare(word)) == word
  {
  }

  /** The verbs each gate passes when they stand alone, as the repository pins them. */
  lemma BareVerbsPass(verb: string)
    requires Word(verb)
    ensures Gate(verb, false).Ok? <==>
            verb in {"version", "build", "build-os", "build-time", "node", "service", "services", "services-alumni",
                     "nodes", "cluster-name", "cluster-stable", "cluster-generation", "cluster-info", "health-outliers",
                     "health-stats", "namespaces", "namespace", "sets", "sindex", "statistics", "latencies", "udf-list", "roster", "racks"}
    ensures Gate(verb, true).Ok? <==> Gate(verb, false).Ok? || verb in {"set-config", "recluster", "log-set", "jobs"}
  {
    hide Gate, Spells, FrameVerb, Strip, Word;
    GatesIff(verb);
    BareSpells(verb);
  }

  /** An empty command is refused for its empty verb, by the verb check and by both gates. */
  lemma EmptyRefused(command: string, write: bool)
    ensures VerbOf(command).Err? <==> Strip(command) == ""
    ensures Strip(command) == "" ==>
              VerbOf(command) == Err(VerbNotAllowed("")) && SingleCommand(command) == Err(VerbNotAllowed(""))
              && Gate(command, write) == Err(VerbNotAllowed(""))
  {
    hide VerbPrefix, Defect, Strip;
  }

  /** Of a path's segments the first bad one decides: a colon in it, or another character, or none. */
  lemma {:induction false} SegmentReason(segments: seq<string>)
    ensures CheckSegments(segments) == Some(ColonInPath) <==>
            exists k :: 0 <= k < |segments| && !Identifier(segments[k]) && ':' in segments[k]
                        && forall j :: 0 <= j < k ==> Identifier(segments[j])
    ensures CheckSegments(segments) in {None, Some(ColonInPath), Some(BadSegment)}
  {
    hide Identifier;
    if segments != [] {
      var rest := segments[1..];
      SegmentReason(rest);
      assert forall k :: 1 <= k < |segments| ==> segments[k] == rest[k - 1];
      if Identifier(segments[0]) && CheckSegments(rest) == Some(ColonInPath) {
        var k :| 0 <= k < |rest| && !Identifier(rest[k]) && ':' in rest[k] && forall j :: 0 <= j < k ==> Identifier(rest[j]);
        assert segments[k + 1] == rest[k];
      }
      if k :| 0 <= k < |segments| && !Identifier(segments[k]) && ':' in segments[k] && forall j :: 0 <= j < k ==> Identifier(segments[j]) {
        if k > 0 {
          assert rest[k - 1] == segments[k];
          assert forall j :: 0 <= j < k - 1 ==> rest[j] == segments[j + 1];
        }
      }
    }
  }

  /** What a refused command is told: why it is not one command, or which verb its own gate refuses. */
  lemma RefusedBecause(command: string, write: bool)
    requires Gate(command, write).Err?
    ensures var e := Gate(command, write).error;
            if SingleCommand(command).Err? then e == SingleCommand(command).error
            else
              var verb := VerbPrefix(Strip(command));
              verb !in READ_ONLY_VERBS && (write ==> verb !in WRITE_VERBS)
              && e == (if write then WriteVerbNotAllowed(verb) else VerbNotAllowed(verb))
  {
    hide VerbPrefix, Defect, Strip;
    StripIdempotent(command);
    if SingleCommand(command).Ok? {
      assert SingleCommand(command).value == Strip(command) != "";
    }
  }

  /** `extract_verb`: one split after the other. */
  method ExtractVerb(command: string) returns (r: Result<string, Rejection>)
    ensures r == VerbOf(command)
  {
    var cmd := Strip(command);
    if cmd == "" {
      return Err(VerbNotAllowed(""));
    }
    var head := cmd;
    assert Stops(0) == {};
    NoStops(cmd);
    for i := 0 to |TERMINATORS|
      invariant head == Until(cmd, Stops(i))
    {
      HeadOfUntil(cmd, Stops(i), TERMINATORS[i]);
      assert Stops(i + 1) == Stops(i) + {TERMINATORS[i]};
      head := Head(head, TERMINATORS[i]);
    }
    return Ok(head);
  }

  lemma {:induction false} NoStops(s: string)
    ensures Until(s, {}) == s
  {
    if s != "" {
      NoStops(s[1..]);
      assert [s[0]] + s[1..] == s;
    }
  }

  /** `assert_single_command`: the scans with their early exits. */
  method AssertSingleCommand(command: string) returns (r: Result<string, Rejection>)
    ensures r == SingleCommand(command)
  {
    var cmd := Strip(command);
    if cmd == "" {
      return Err(VerbNotAllowed(""));
    }
    for i := 0 to |cmd|
      invariant !HasSpace(cmd[..i])
    {
      if IsSpace(cmd[i]) {
        return Err(NotSingle(EmbeddedWhitespace));
      }
      assert forall j :: 0 <= j < i ==> cmd[..i][j] == cmd[j];
    }
    assert cmd[..|cmd|] == cmd;
    var body := if cmd[|cmd| - 1] == ';' then cmd[..|cmd| - 1] else cmd;
    if '/' in body {
      var parts := Split(body, '/');
      var verb, segments := parts[0], parts[1..];
      if verb !in PATH_STYLE_VERBS {
        return Err(NotSingle(NoPathArguments));
      }
      if |segments| > PATH_STYLE_VERBS[verb] {
        return Err(NotSingle(TooManySegments));
      }
      for i := 0 to |segments|
        invariant CheckSegments(segments) == CheckSegments(segments[i..])
      {
        if !Identifier(segments[i]) {
          return Err(NotSingle(if ':' in segments[i] then ColonInPath else BadSegment));
        }
      }
      return Ok(cmd);
    }
    var head := Head(body, ':');
    if ';' in head {
      return Err(NotSingle(EarlySemicolon));
    }
    if |head| == |body| {
      return Ok(cmd);
    }
    var args := body[|head| + 1..];
    if ':' in args {
      return Err(NotSingle(SecondColon));
    }
    var segments := Split(args, ';');
    if |segments| > 1 && !AllKeyValue(segments) {
      return Err(NotSingle(BareArgument));
    }
    return Ok(cmd);
  }
}
