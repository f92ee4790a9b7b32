/** The inline renderer: `code`, **bold**, *italic* and [text](url) inside one block's text. */
module GuideInline {
  import opened Prelude

  datatype Node =
    | Plain(text: string)
    | Code(text: string)
    | Strong(text: string)
    | Em(text: string)
    | Anchor(text: string, href: string)

  /** The length of the leading run without the given characters. */
  function RunWithout(s: string, stops: set<char>): (n: nat)
    ensures n <= |s| && (forall i :: 0 <= i < n ==> s[i] !in stops) && (n < |s| ==> s[n] in stops)
  {
    if s == "" || s[0] in stops then 0 else 1 + RunWithout(s[1..], stops)
  }

  // ----- the four alternatives of the pattern, each matched at the start of `s` --------
  // (0 stands for no match)

  function CodeLen(s: string): (n: nat)
    ensures n <= |s|
  {
    if s == "" || s[0] != '`' then 0
    else
      var n := RunWithout(s[1..], {'`'});
      if n > 0 && 1 + n < |s| then n + 2 else 0
  }

  function StrongLen(s: string): (n: nat)
    ensures n <= |s|
  {
    if !("**" <= s) then 0
    else
      var n := RunWithout(s[2..], {'*'});
      if n > 0 && "**" <= s[2 + n..] then n + 4 else 0
  }

  function EmLen(s: string): (n: nat)
    ensures n <= |s|
  {
    if s == "" || s[0] != '*' then 0
    else
      var n := RunWithout(s[1..], {'*', '\n'});
      if n > 0 && 1 + n < |s| && s[1 + n] == '*' then n + 2 else 0
  }

  /** The length of a link's text, and of its target. */
  function LinkParts(s: string): (p: (nat, nat))
    ensures p.0 > 0 ==> p.1 > 0 && p.0 + p.1 + 4 <= |s|
  {
    if s == "" || s[0] != '[' then (0, 0)
    else
      var n := RunWithout(s[1..], {']'});
      if n == 0 || !("](" <= s[1 + n..]) then (0, 0)
      else
        var m := RunWithout(s[n + 3..], {')'});
        if m > 0 && n + 3 + m < |s| then (n, m) else (0, 0)
  }

  function LinkLen(s: string): (n: nat)
    ensures n <= |s|
  {
    var p := LinkParts(s);
    if p.0 > 0 then p.0 + p.1 + 4 else 0
  }

  /** The first alternative that matches at the start. */
  function TokenLen(s: string): (n: nat)
    ensures n <= |s|
  {
    if CodeLen(s) > 0 then CodeLen(s)
    else if StrongLen(s) > 0 then StrongLen(s)
    else if EmLen(s) > 0 then EmLen(s)
    else LinkLen(s)
  }

  /** Where the leftmost match starts; the length of the text if there is none. */
  function MatchIndex(s: string): (i: nat)
    ensures i <= |s|
  {
    if s == "" || TokenLen(s) > 0 then 0 else 1 + MatchIndex(s[1..])
  }

  lemma {:induction false} MatchIsLeftmost(s: string)
    ensures var i := MatchIndex(s);
            && (i < |s| ==> TokenLen(s[i..]) > 0)
            && forall j :: 0 <= j < i ==> TokenLen(s[j..]) == 0
  {
    hide TokenLen;
    if s == "" || TokenLen(s) > 0 {
      assert s[0..] == s;
    } else {
      MatchIsLeftmost(s[1..]);
      var i := MatchIndex(s);
      assert i < |s| ==> s[i..] == s[1..][i - 1..];
      forall j | 0 <= j < i ensures TokenLen(s[j..]) == 0 {
        if j == 0 {
          assert s[0..] == s;
        } else {
          assert s[j..] == s[1..][j - 1..];
        }
      }
    }
  }

  // ----- one token ------------------------------------------------------------------

  predicate StartsLower(url: string, prefix: string) {
    |prefix| <= |url| && forall i :: 0 <= i < |prefix| ==> LowerChar(url[i]) == prefix[i]
  }

  /** `isSafeHref` */
  predicate IsSafeHref(url: string) {
    || StartsLower(url, "http://") || StartsLower(url, "https://")
    || ("/" <= url && !("//" <= url))
    || "#" <= url
  }

  function Lowered(s: string): string { seq(|s|, i requires 0 <= i < |s| => LowerChar(s[i])) }

  lemma StartsIff(url: string, prefix: string)
    ensures StartsLower(url, prefix) <==> |url| >= |prefix| && Lowered(url[..|prefix|]) == prefix
  {
    hide LowerChar;
    if |url| >= |prefix| {
      var head := Lowered(url[..|prefix|]);
      assert forall i :: 0 <= i < |prefix| ==> head[i] == LowerChar(url[i]);
    }
  }

  /** The targets that become anchors: http and https in any case, a path from the root that is not
      protocol-relative, and an anchor of the page; so never another scheme. */
  lemma SafeHrefIff(url: string)
    ensures IsSafeHref(url) <==>
            || (|url| >= 7 && Lowered(url[..7]) == "http://") || (|url| >= 8 && Lowered(url[..8]) == "https://")
            || (url != "" && url[0] == '#') || (url != "" && url[0] == '/' && (|url| >= 2 ==> url[1] != '/'))
    ensures IsSafeHref(url) ==> url[0] in {'h', 'H', '/', '#'} && !("javascript:" <= url) && !("data:" <= url) && !("//" <= url)
  {
    StartsIff(url, "http://");
    StartsIff(url, "https://");
    hide Lowered;
    if StartsLower(url, "http://") || StartsLower(url, "https://") {
      assert LowerChar(url[0]) == 'h';
    }
  }

  /** A text that is one whole token of the pattern. */
  predicate IsToken(token: string) { token != "" && TokenLen(token) == |token| }

  /** The node made of a token, told apart by its first characters. */
  function NodeOf(token: string): Node
    requires IsToken(token)
  {
    if "`" <= token then Code(token[1..|token| - 1])
    else if "**" <= token then (TokenKind(token); Strong(token[2..|token| - 2]))
    else if "*" <= token then Em(token[1..|token| - 1])
    else
      TokenKind(token);
      var p := LinkParts(token);
      var text, href := token[1..1 + p.0], token[3 + p.0..3 + p.0 + p.1];
      if IsSafeHref(href) then Anchor(text, href) else Plain(text)
  }

  predicate Without(s: string, stops: set<char>) { s != "" && forall i :: 0 <= i < |s| ==> s[i] !in stops }

  predicate LinkText(token: string, text: string, href: string) {
    token == "[" + text + "](" + href + ")" && Without(text, {']'}) && Without(href, {')'})
  }

  /** The first characters of a token decide which alternative it matched, so no branch meets a
      token of another kind; the last branch always finds a link. */
  lemma TokenKind(token: string)
    requires IsToken(token)
    ensures "`" <= token ==> |token| >= 3 && CodeLen(token) == |token|
    ensures "**" <= token ==> |token| >= 5 && StrongLen(token) == |token|
    ensures "*" <= token && !("**" <= token) ==> |token| >= 3 && EmLen(token) == |token|
    ensures !("`" <= token) && !("*" <= token) ==> LinkLen(token) == |token| && LinkParts(token).0 > 0
  {
    if "**" <= token {
      assert token[1..][0] == '*';
    }
  }

  /** What a node shows of the token it came from. */
  ghost predicate Shows(node: Node, raw: string) {
    match node
    case Plain(text) => raw == text || exists href :: LinkText(raw, text, href) && !IsSafeHref(href)
    case Code(text) => raw == "`" + text + "`" && Without(text, {'`'})
    case Strong(text) => raw == "**" + text + "**" && Without(text, {'*'})
    case Em(text) => raw == "*" + text + "*" && Without(text, {'*', '\n'})
    case Anchor(text, href) => LinkText(raw, text, href) && IsSafeHref(href)
  }

  lemma {:induction false} RunEnds(s: string, stops: set<char>, n: nat)
    requires n <= |s| && (forall i :: 0 <= i < n ==> s[i] !in stops) && (n < |s| ==> s[n] in stops)
    ensures RunWithout(s, stops) == n
  {
    if n > 0 {
      RunEnds(s[1..], stops, n - 1);
    }
  }

  lemma PrintedCode(text: string, rest: string)
    requires Without(text, {'`'})
    ensures TokenLen("`" + text + "`" + rest) == CodeLen("`" + text + "`" + rest) == |text| + 2
  {
    var s := "`" + text + "`" + rest;
    RunEnds(s[1..], {'`'}, |text|);
  }

  lemma PrintedStrong(text: string, rest: string)
    requires Without(text, {'*'})
    ensures TokenLen("**" + text + "**" + rest) == StrongLen("**" + text + "**" + rest) == |text| + 4
  {
    var s := "**" + text + "**" + rest;
    RunEnds(s[2..], {'*'}, |text|);
    assert s[2 + |text|..] == "**" + rest;
  }

  lemma PrintedEm(text: string, rest: string)
    requires Without(text, {'*', '\n'})
    ensures TokenLen("*" + text + "*" + rest) == EmLen("*" + text + "*" + rest) == |text| + 2
  {
    var s := "*" + text + "*" + rest;
    RunEnds(s[1..], {'*', '\n'}, |text|);
    assert s[1] == text[0];
  }

  function PrintLink(text: string, href: string): string { "[" + text + "](" + href + ")" }

  lemma LinkTails(text: string, href: string, rest: string)
    ensures var s := PrintLink(text, href) + rest;
            && |s| == |text| + |href| + 4 + |rest| && s[0] == '['
            && s[1..] == text + ("](" + href + ")" + rest)
            && s[1 + |text|..] == "](" + href + ")" + rest
            && s[3 + |text|..] == href + (")" + rest)
  {
  }

  lemma {:induction false} RunOfPrefix(a: string, b: string, stops: set<char>)
    requires (forall i :: 0 <= i < |a| ==> a[i] !in stops) && (b == "" || b[0] in stops)
    ensures RunWithout(a + b, stops) == |a|
  {
    RunEnds(a + b, stops, |a|);
  }

  lemma PrintedLink(text: string, href: string, rest: string)
    requires Without(text, {']'}) && Without(href, {')'})
    ensures var s := PrintLink(text, href) + rest;
            LinkParts(s) == (|text|, |href|) && TokenLen(s) == LinkLen(s) == |text| + |href| + 4
  {
    hide PrintLink, RunWithout;
    LinkTails(text, href, rest);
    RunOfPrefix(text, "](" + href + ")" + rest, {']'});
    RunOfPrefix(href, ")" + rest, {')'});
    assert "](" <= "](" + href + ")" + rest;
  }

  /** The text between the ends of a token of each kind. */
  lemma CodeSplits(s: string) returns (text: string, rest: string)
    requires CodeLen(s) > 0
    ensures s == "`" + text + "`" + rest && Without(text, {'`'}) && CodeLen(s) == |text| + 2
  {
    var n := RunWithout(s[1..], {'`'});
    text, rest := s[1..1 + n], s[n + 2..];
    forall i | 0 <= i < n ensures text[i] != '`' { assert text[i] == s[1..][i]; }
    assert s[1 + n] == s[1..][n];
  }

  lemma StrongSplits(s: string) returns (text: string, rest: string)
    requires StrongLen(s) > 0
    ensures s == "**" + text + "**" + rest && Without(text, {'*'}) && StrongLen(s) == |text| + 4
  {
    var n := RunWithout(s[2..], {'*'});
    text, rest := s[2..2 + n], s[n + 4..];
    forall i | 0 <= i < n ensures text[i] != '*' { assert text[i] == s[2..][i]; }
    assert s[2 + n..][..2] == "**" && s[2 + n..] == s[2 + n..][..2] + rest;
    assert s == s[..2] + text + s[2 + n..];
  }

  lemma EmSplits(s: string) returns (text: string, rest: string)
    requires EmLen(s) > 0
    ensures s == "*" + text + "*" + rest && Without(text, {'*', '\n'}) && EmLen(s) == |text| + 2
  {
    var n := RunWithout(s[1..], {'*', '\n'});
    text, rest := s[1..1 + n], s[n + 2..];
    forall i | 0 <= i < n ensures text[i] !in {'*', '\n'} { assert text[i] == s[1..][i]; }
  }

  lemma LinkSplits(s: string) returns (text: string, href: string, rest: string)
    requires LinkLen(s) > 0
    ensures s == PrintLink(text, href) + rest && Without(text, {']'}) && Without(href, {')'})
    ensures LinkParts(s) == (|text|, |href|)
  {
    var n, m := LinkParts(s).0, LinkParts(s).1;
    LinkShape(s, n, m);
    LinkRebuilt(s, n, m);
    text, href, rest := s[1..1 + n], s[3 + n..3 + n + m], s[4 + n + m..];
    hide *;
    assert |text| == n && |href| == m;
  }

  lemma LinkRebuilt(s: string, n: nat, m: nat)
    requires n + m + 4 <= |s| && s[..1] == "[" && s[1 + n..3 + n] == "](" && s[3 + n + m..4 + n + m] == ")"
    ensures s == PrintLink(s[1..1 + n], s[3 + n..3 + n + m]) + s[4 + n + m..]
  {
    CutFive(s, 1, 1 + n, 3 + n, 3 + n + m, 4 + n + m);
  }

  lemma CutFive(s: string, a: nat, b: nat, c: nat, d: nat, e: nat)
    requires a <= b <= c <= d <= e <= |s|
    ensures s == s[..a] + s[a..b] + s[b..c] + s[c..d] + s[d..e] + s[e..]
  {
    assert s[..b] == s[..a] + s[a..b];
    assert s[..c] == s[..b] + s[b..c];
    assert s[..d] == s[..c] + s[c..d];
    assert s[..e] == s[..d] + s[d..e];
    assert s == s[..e] + s[e..];
  }

  lemma LinkShape(s: string, n: nat, m: nat)
    requires LinkParts(s) == (n, m) && n > 0
    ensures m > 0 && n + m + 4 <= |s| && s[..1] == "[" && s[1 + n..3 + n] == "](" && s[3 + n + m..4 + n + m] == ")"
    ensures Without(s[1..1 + n], {']'}) && Without(s[3 + n..3 + n + m], {')'})
  {
    assert s[1..1 + n] == s[1..][..n] && s[3 + n..3 + n + m] == s[n + 3..][..m];
    assert s[3 + n + m] == s[n + 3..][m];
    assert s[1 + n..3 + n] == s[1 + n..][..2];
  }

  /** A token matches the same way whatever follows it. */
  lemma TokenLocal(s: string)
    requires TokenLen(s) > 0
    ensures IsToken(s[..TokenLen(s)])
  {
    hide CodeLen, StrongLen, EmLen, LinkParts, PrintLink;
    var token := s[..TokenLen(s)];
    if CodeLen(s) > 0 {
      var text, rest := CodeSplits(s);
      PrintedCode(text, "");
      assert token == "`" + text + "`" + "";
    } else if StrongLen(s) > 0 {
      var text, rest := StrongSplits(s);
      PrintedStrong(text, "");
      assert token == "**" + text + "**" + "";
    } else if EmLen(s) > 0 {
      var text, rest := EmSplits(s);
      PrintedEm(text, "");
      assert token == "*" + text + "*" + "";
    } else {
      var text, href, rest := LinkSplits(s);
      PrintedLink(text, href, "");
      LinkSize(text, href);
      assert token == PrintLink(text, href) + "";
    }
  }

  lemma LinkPieces(text: string, href: string)
    ensures var s := PrintLink(text, href);
            |s| == |text| + |href| + 4 && s[1..1 + |text|] == text && s[3 + |text|..3 + |text| + |href|] == href
  {
  }

  lemma LinkSize(text: string, href: string)
    ensures |PrintLink(text, href)| == |text| + |href| + 4
  {
  }

  lemma TokenExtends(token: string, rest: string)
    requires IsToken(token)
    ensures TokenLen(token + rest) == |token|
  {
    hide CodeLen, StrongLen, EmLen, LinkParts, PrintLink;
    if CodeLen(token) > 0 {
      var text, tail := CodeSplits(token);
      PrintedCode(text, rest);
      assert tail == "" && token + rest == "`" + text + "`" + rest;
    } else if StrongLen(token) > 0 {
      var text, tail := StrongSplits(token);
      PrintedStrong(text, rest);
      assert tail == "" && token + rest == "**" + text + "**" + rest;
    } else if EmLen(token) > 0 {
      var text, tail := EmSplits(token);
      PrintedEm(text, rest);
      assert tail == "" && token + rest == "*" + text + "*" + rest;
    } else {
      var text, href, tail := LinkSplits(token);
      PrintedLink(text, href, rest);
      LinkSize(text, href);
      assert tail == "" && token + rest == PrintLink(text, href) + rest;
    }
  }

  lemma CodeShows(token: string)
    requires CodeLen(token) == |token| > 0
    ensures |token| >= 2 && Shows(Code(token[1..|token| - 1]), token)
  {
    hide CodeLen;
    var text, rest := CodeSplits(token);
    assert token[1..|token| - 1] == text;
  }

  lemma StrongShows(token: string)
    requires StrongLen(token) == |token| > 0
    ensures |token| >= 4 && Shows(Strong(token[2..|token| - 2]), token)
  {
    hide StrongLen;
    var text, rest := StrongSplits(token);
    assert token[2..|token| - 2] == text;
  }

  lemma EmShows(token: string)
    requires EmLen(token) == |token| > 0
    ensures |token| >= 2 && Shows(Em(token[1..|token| - 1]), token)
  {
    hide EmLen;
    var text, rest := EmSplits(token);
    assert token[1..|token| - 1] == text;
  }

  lemma LinkShows(token: string)
    requires LinkLen(token) == |token| > 0
    ensures var p := LinkParts(token);
            && p.0 > 0
            && LinkText(token, token[1..1 + p.0], token[3 + p.0..3 + p.0 + p.1])
  {
    var text, href, rest := LinkSplits(token);
    hide LinkParts, PrintLink, Without;
    LinkPieces(text, href);
    LinkSize(text, href);
    assert rest == "" && token == PrintLink(text, href);
    assert PrintLink(text, href) == "[" + text + "](" + href + ")" by { LinkPrinted(text, href); }
  }

  lemma LinkPrinted(text: string, href: string)
    ensures PrintLink(text, href) == "[" + text + "](" + href + ")"
  {
  }

  lemma NodeShows(token: string)
    requires IsToken(token)
    ensures Shows(NodeOf(token), token)
  {
    hide CodeLen, StrongLen, EmLen, LinkParts, LinkText, IsSafeHref, TokenLen;
    TokenKind(token);
    if "`" <= token {
      CodeShows(token);
    } else if "**" <= token {
      StrongShows(token);
    } else if "*" <= token {
      EmShows(token);
    } else {
      LinkShows(token);
    }
  }

  // ----- a whole text -----------------------------------------------------------------

  /** A node together with the text it came from. */
  datatype Piece = Piece(raw: string, node: Node)

  function PlainPiece(s: string): seq<Piece> { if s == "" then [] else [Piece(s, Plain(s))] }

  function Inline(s: string): seq<Piece>
    decreases |s|
  {
    var i := MatchIndex(s);
    if i == |s| then PlainPiece(s)
    else
      MatchIsLeftmost(s);
      TokenLocal(s[i..]);
      var token := TokenAt(s, i);
      PlainPiece(s[..i]) + [Piece(token, NodeOf(token))] + Inline(s[i + |token|..])
  }

  function TokenAt(s: string, i: nat): string
    requires i <= |s|
  {
    s[i..][..TokenLen(s[i..])]
  }

  lemma TokenCuts(s: string, i: nat, n: nat)
    requires i + n <= |s|
    ensures s == s[..i] + s[i..][..n] + s[i + n..]
  {
  }

  lemma TokenIsToken(s: string)
    requires MatchIndex(s) < |s|
    ensures var i := MatchIndex(s);
            IsToken(TokenAt(s, i)) && i + |TokenAt(s, i)| <= |s| && s == s[..i] + TokenAt(s, i) + s[i + |TokenAt(s, i)|..]
  {
    var i := MatchIndex(s);
    MatchIsLeftmost(s);
    TokenLocal(s[i..]);
    TokenCuts(s, i, TokenLen(s[i..]));
    hide TokenLen, MatchIndex;
  }

  /** One round: the text up to the leftmost match, the match, and the rest. */
  lemma InlineStep(s: string)
    requires MatchIndex(s) < |s|
    ensures var i := MatchIndex(s);
            var token := TokenAt(s, i);
            && IsToken(token) && i + |token| <= |s| && s == s[..i] + token + s[i + |token|..]
            && Inline(s) == PlainPiece(s[..i]) + [Piece(token, NodeOf(token))] + Inline(s[i + |token|..])
  {
    hide TokenLen, NodeOf, PlainPiece, MatchIndex, TokenAt;
    TokenIsToken(s);
  }

  function Nodes(ps: seq<Piece>): seq<Node> { seq(|ps|, i requires 0 <= i < |ps| => ps[i].node) }

  function Raw(ps: seq<Piece>): string { if ps == [] then "" else ps[0].raw + Raw(ps[1..]) }

  lemma {:induction false} RawConcat(a: seq<Piece>, b: seq<Piece>)
    ensures Raw(a + b) == Raw(a) + Raw(b)
  {
    if a == [] {
      assert a + b == b;
    } else {
      RawConcat(a[1..], b);
      assert (a + b)[1..] == a[1..] + b;
      Associate(a[0].raw, Raw(a[1..]), Raw(b));
    }
  }

  lemma RawOne(p: Piece)
    ensures Raw([p]) == p.raw
  {
    assert Raw([p][1..]) == "";
  }

  /** Every piece is some of the text, and its node shows it. */
  ghost predicate AllShow(ps: seq<Piece>) { forall k :: 0 <= k < |ps| ==> ps[k].raw != "" && Shows(ps[k].node, ps[k].raw) }

  /** No text is lost or repeated: the pieces spell the text, none is empty, and each node shows
      its piece; an anchor is made only of a link whose target is safe. */
  lemma {:induction false} InlineConserves(s: string)
    ensures Raw(Inline(s)) == s && AllShow(Inline(s))
    decreases |s|
  {
    hide MatchIndex, TokenAt, TokenLen, NodeOf, Shows, PlainPiece, Raw;
    var i := MatchIndex(s);
    PlainConserves(s[..i]);
    if i == |s| {
      assert s[..i] == s;
    } else {
      var token := TokenAt(s, i);
      InlineStep(s);
      NodeShows(token);
      var rest := s[i + |token|..];
      assert token != "";
      InlineConserves(rest);
      RawOfStep(PlainPiece(s[..i]), Piece(token, NodeOf(token)), Inline(rest));
    }
  }

  lemma RawOfStep(before: seq<Piece>, p: Piece, after: seq<Piece>)
    ensures Raw(before + [p] + after) == Raw(before) + p.raw + Raw(after)
  {
    RawOne(p);
    RawConcat(before, [p]);
    RawConcat(before + [p], after);
  }

  lemma PlainConserves(s: string)
    ensures Raw(PlainPiece(s)) == s && AllShow(PlainPiece(s))
  {
    if s != "" {
      RawOne(Piece(s, Plain(s)));
    }
  }

  /** Characters that can start a token. */
  predicate NoOpener(s: string) { forall i :: 0 <= i < |s| ==> s[i] !in {'`', '*', '['} }

  lemma PlainStartsNothing(s: string)
    requires s != "" && s[0] !in {'`', '*', '['}
    ensures TokenLen(s) == 0
  {
  }

  lemma {:induction false} SkipsPlain(plain: string, rest: string)
    requires NoOpener(plain) && (rest == "" || TokenLen(rest) > 0)
    ensures MatchIndex(plain + rest) == |plain|
  {
    hide TokenLen;
    if plain == "" {
      assert plain + rest == rest;
    } else {
      SkipsPlain(plain[1..], rest);
      var s := plain + rest;
      assert s[1..] == plain[1..] + rest && s[0] == plain[0];
      PlainStartsNothing(s);
    }
  }

  /** Plain text, then a token, then anything: exactly the token becomes a node, and the rest is
      rendered as if it stood alone. */
  lemma TokenThenRest(plain: string, token: string, rest: string)
    requires NoOpener(plain) && IsToken(token)
    ensures Inline(plain + token + rest) == PlainPiece(plain) + [Piece(token, NodeOf(token))] + Inline(rest)
  {
    var s := plain + token + rest;
    TokenExtends(token, rest);
    hide TokenLen, NodeOf, MatchIndex, Inline, PlainPiece;
    SkipsPlain(plain, token + rest);
    assert s == plain + (token + rest);
    assert s[..|plain|] == plain && s[|plain|..] == token + rest && (token + rest)[..|token|] == token;
    assert s[|plain| + |token|..] == rest;
    InlineStep(s);
  }

  lemma PlainAlone(plain: string)
    requires NoOpener(plain)
    ensures Inline(plain) == PlainPiece(plain)
  {
    SkipsPlain(plain, "");
    assert plain + "" == plain;
  }

  lemma PlainLeft(s: string)
    requires MatchIndex(s) == |s|
    ensures Inline(s) == PlainPiece(s)
  {
    hide PlainPiece;
  }

  lemma NodesConcat(a: seq<Piece>, before: string, p: Piece)
    ensures Nodes(a + PlainPiece(before)) == Nodes(a) + if before == "" then [] else [Plain(before)]
    ensures Nodes(a + PlainPiece(before) + [p]) == Nodes(a + PlainPiece(before)) + [p.node]
  {
  }

  /** `renderInline`; `rest` shrinks by a match each round, so the loop ends. */
  method RenderInline(text: string) returns (nodes: seq<Node>)
    ensures nodes == Nodes(Inline(text))
  {
    hide TokenLen, NodeOf, MatchIndex, Inline, TokenAt, PlainPiece, Nodes;
    nodes := [];
    var rest := text;
    ghost var done: seq<Piece> := [];
    assert done + Inline(rest) == Inline(text);
    assert nodes == Nodes(done) by { NoNodes(); }
    while |rest| > 0
      invariant nodes == Nodes(done) && done + Inline(rest) == Inline(text)
      decreases |rest|
    {
      var at := MatchIndex(rest);
      if at == |rest| {
        PlainLeft(rest);
        NodesConcat(done, rest, Piece(rest, Plain(rest)));
        nodes := nodes + [Plain(rest)];
        return;
      }
      if at > 0 {
        nodes := nodes + [Plain(rest[..at])];
      }
      var token := TokenAt(rest, at);
      InlineStep(rest);
      var node := NodeOf(token);
      nodes := nodes + [node];
      NodesConcat(done, rest[..at], Piece(token, node));
      Associate(done, PlainPiece(rest[..at]), [Piece(token, node)]);
      Associate(done, PlainPiece(rest[..at]) + [Piece(token, node)], Inline(rest[at + |token|..]));
      done := done + PlainPiece(rest[..at]) + [Piece(token, node)];
      rest := rest[at + |token|..];
    }
    NothingLeft();
    assert done + [] == done;
  }

  lemma NoNodes()
    ensures Nodes([]) == []
  {
  }

  lemma NothingLeft()
    ensures Inline("") == []
  {
  }
}
