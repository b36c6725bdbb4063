/** Reading and writing configuration strings `leader=token token ... # comment` (src/xtokens.h). */
module Tokens {
  import opened Base

  const BLANKS := " \t"

  predicate Free(s: string, chars: string) {
    forall i | 0 <= i < |s| :: s[i] !in chars
  }

  // ------------------------------------------------------------------ separating

  /** The number of characters before the first separator. */
  function Reach(s: string, seps: string): (n: nat)
    ensures n <= |s| && Free(s[..n], seps)
    ensures n < |s| ==> s[n] in seps
  {
    if s == "" || s[0] in seps then 0
    else
      var n := 1 + Reach(s[1..], seps);
      assert s[..n] == [s[0]] + s[1..][..n - 1];
      n
  }

  /** The runs of characters between separators; empty ones are left out. */
  function Separate(s: string, seps: string): seq<string>
    decreases |s|
  {
    if s == "" then []
    else if s[0] in seps then Separate(s[1..], seps)
    else [s[..Reach(s, seps)]] + Separate(s[Reach(s, seps)..], seps)
  }

  function Without(s: string, seps: string): string {
    if s == "" then "" else (if s[0] in seps then "" else [s[0]]) + Without(s[1..], seps)
  }

  function Flatten(ts: seq<string>): string {
    if ts == [] then "" else ts[0] + Flatten(ts[1..])
  }

  predicate AreTokens(ts: seq<string>, seps: string) {
    forall i | 0 <= i < |ts| :: ts[i] != "" && Free(ts[i], seps)
  }

  /** Separating yields tokens, and keeps all characters but the separators, in order. */
  lemma {:induction false} SeparateKeeps(s: string, seps: string)
    ensures AreTokens(Separate(s, seps), seps)
    ensures Flatten(Separate(s, seps)) == Without(s, seps)
    decreases |s|
  {
    if s != "" {
      if s[0] in seps {
        SeparateKeeps(s[1..], seps);
      } else {
        var n := Reach(s, seps);
        SeparateKeeps(s[n..], seps);
        WithoutPrefix(s, n, seps);
      }
    }
  }

  lemma {:induction false} WithoutPrefix(s: string, n: nat, seps: string)
    requires n <= |s| && Free(s[..n], seps)
    ensures Without(s, seps) == s[..n] + Without(s[n..], seps)
  {
    if n > 0 {
      assert s[..n][0] == s[0];
      assert s[1..][..n - 1] == s[..n][1..];
      WithoutPrefix(s[1..], n - 1, seps);
      assert s[..n] == [s[0]] + s[1..][..n - 1] && s[1..][n - 1..] == s[n..];
    }
  }

  lemma {:induction false} ReachToken(t: string, rest: string, seps: string)
    requires Free(t, seps) && (rest == "" || rest[0] in seps)
    ensures Reach(t + rest, seps) == |t|
  {
    if t != "" {
      assert (t + rest)[1..] == t[1..] + rest;
      ReachToken(t[1..], rest, seps);
    }
  }

  /** A token that a separator ends is separated from what follows. */
  lemma {:induction false} SeparateToken(t: string, rest: string, seps: string)
    requires t != "" && Free(t, seps) && (rest == "" || rest[0] in seps)
    ensures Separate(t + rest, seps) == [t] + Separate(rest, seps)
  {
    ReachToken(t, rest, seps);
    assert (t + rest)[0] == t[0];
    assert (t + rest)[..|t|] == t && (t + rest)[|t|..] == rest;
  }

  /**
   What separating is, without its definition: a string without separators is one token, or none if it is empty, and a separator
   anywhere in a string parts what is before it from what is after it.
   */
  lemma {:induction false} SeparateExact(a: string, c: char, b: string, seps: string)
    requires c in seps
    ensures Separate("", seps) == []
    ensures a != "" && Free(a, seps) ==> Separate(a, seps) == [a]
    ensures Separate(a + [c] + b, seps) == Separate(a, seps) + Separate(b, seps)
    decreases |a|
  {
    var s := a + [c] + b;
    if a == "" {
      assert s == [c] + b && s[1..] == b;
    } else if a[0] in seps {
      SeparateExact(a[1..], c, b, seps);
      assert s[1..] == a[1..] + [c] + b;
    } else {
      var n := Reach(a, seps);
      var t, rest := a[..n], a[n..];
      assert a == t + rest && s == t + (rest + [c] + b);
      SeparateToken(t, rest, seps);
      SeparateToken(t, rest + [c] + b, seps);
      SeparateExact(rest, c, b, seps);
      if Free(a, seps) {
        assert n == |a|;
        assert t == a && rest == "";
      }
    }
  }

  // ------------------------------------------------------------------ assembling

  function Assemble(ts: seq<string>, sep: string): string
    decreases |ts|
  {
    if ts == [] then "" else if |ts| == 1 then ts[0] else Assemble(Front(ts), sep) + sep + Last(ts)
  }

  lemma {:induction false} AssembleFromFront(ts: seq<string>, sep: string)
    requires |ts| > 1
    ensures Assemble(ts, sep) == ts[0] + (sep + Assemble(ts[1..], sep))
    decreases |ts|
  {
    if |ts| > 2 {
      AssembleFromFront(Front(ts), sep);
      assert Front(ts[1..]) == Front(ts)[1..];
    } else {
      assert Front(ts) == [ts[0]] && ts[1..] == [ts[1]];
    }
  }

  /** Separating undoes assembling exactly for lists of tokens. */
  lemma {:induction false} SeparateAssembleIff(ts: seq<string>, seps: string)
    requires ' ' in seps
    ensures Separate(Assemble(ts, " "), seps) == ts <==> AreTokens(ts, seps)
  {
    if AreTokens(ts, seps) {
      SeparateAssemble(ts, seps);
    } else {
      SeparateKeeps(Assemble(ts, " "), seps);
    }
  }

  lemma {:induction false} SeparateAssemble(ts: seq<string>, seps: string)
    requires ' ' in seps && AreTokens(ts, seps)
    ensures Separate(Assemble(ts, " "), seps) == ts
    decreases |ts|
  {
    if |ts| == 1 {
      SeparateToken(ts[0], "", seps);
      assert ts[0] + "" == ts[0] && ts == [ts[0]];
    } else if |ts| > 1 {
      SeparateAssemble(ts[1..], seps);
      AssembleFromFront(ts, " ");
      var rest := " " + Assemble(ts[1..], " ");
      SeparateToken(ts[0], rest, seps);
      assert rest[1..] == Assemble(ts[1..], " ");
    }
  }

  // ------------------------------------------------------------------ configuration strings

  predicate IsComment(t: string) {
    t != "" && t[0] == '#'
  }

  /** The tokens before the first that starts a comment. */
  function UpToComment(ts: seq<string>): seq<string> {
    if ts == [] || IsComment(ts[0]) then [] else [ts[0]] + UpToComment(ts[1..])
  }

  datatype Parsed = Parsed(ok: bool, leader: string, tokens: seq<string>)

  const FAILED := Parsed(false, "", [])

  function Parse(s: string): Parsed {
    var tokens := Separate(s, BLANKS);
    if tokens == [] then FAILED
    else
      var tk := Separate(tokens[0], "=");
      if |tk| == 2 then Parsed(true, tk[0], UpToComment(tokens[0 := tk[1]])) else FAILED
  }

  function AssembleConfig(leader: string, tokens: seq<string>): string {
    leader + "=" + Assemble(tokens, " ")
  }

  predicate WellFormed(leader: string, tokens: seq<string>) {
    && leader != "" && Free(leader, " \t=")
    && tokens != [] && AreTokens(tokens, BLANKS) && Free(tokens[0], "=")
    && forall i | 0 <= i < |tokens| :: !IsComment(tokens[i])
  }

  lemma {:induction false} UpToCommentIs(ts: seq<string>)
    ensures UpToComment(ts) <= ts
    ensures forall i | 0 <= i < |UpToComment(ts)| :: !IsComment(UpToComment(ts)[i])
    ensures |UpToComment(ts)| < |ts| ==> IsComment(ts[|UpToComment(ts)|])
  {
    if ts != [] && !IsComment(ts[0]) {
      UpToCommentIs(ts[1..]);
    }
  }

  lemma {:induction false} NoComment(ts: seq<string>)
    requires forall i | 0 <= i < |ts| :: !IsComment(ts[i])
    ensures UpToComment(ts) == ts
  {
    if ts != [] {
      NoComment(ts[1..]);
    }
  }

  /** A separated part of a string without certain characters has none of them either. */
  lemma {:induction false} PartsFree(s: string, seps: string, chars: string)
    requires Free(s, chars)
    ensures forall i | 0 <= i < |Separate(s, seps)| :: Free(Separate(s, seps)[i], chars)
    decreases |s|
  {
    if s != "" {
      if s[0] in seps {
        PartsFree(s[1..], seps, chars);
      } else {
        PartsFree(s[Reach(s, seps)..], seps, chars);
      }
    }
  }

  /** Whatever a successful parse returns is well formed, unless the first value starts a comment. */
  lemma {:induction false} ParseYields(s: string)
    requires Parse(s).ok
    ensures var p := Parse(s);
            && p.leader != "" && Free(p.leader, " \t=")
            && (p.tokens != [] ==> WellFormed(p.leader, p.tokens))
  {
    var tokens := Separate(s, BLANKS);
    var tk := Separate(tokens[0], "=");
    SeparateKeeps(s, BLANKS);
    SeparateKeeps(tokens[0], "=");
    PartsFree(tokens[0], "=", BLANKS);
    assert Free(tk[0], BLANKS) && Free(tk[0], "=") && Free(tk[1], BLANKS);
    UpToCommentIs(tokens[0 := tk[1]]);
  }

  predicate Only(s: string, c: char) {
    forall i | 0 <= i < |s| :: s[i] == c
  }

  /** t is two parts u and v with '=' between them, and possibly more '=' before, between and after. */
  predicate TwoParts(t: string, p: string, u: string, q: string, v: string, r: string) {
    && t == p + (u + (q + (v + r)))
    && Only(p, '=') && Only(q, '=') && Only(r, '=') && q != ""
    && u != "" && v != "" && Free(u, "=") && Free(v, "=")
  }

  lemma {:induction false} OnlySeparators(p: string, s: string)
    requires Only(p, '=')
    ensures Separate(p + s, "=") == Separate(s, "=")
    decreases |p|
  {
    if p == "" {
      assert p + s == s;
    } else {
      OnlySeparators(p[1..], s);
      assert (p + s)[0] == '=' && (p + s)[1..] == p[1..] + s;
    }
  }

  lemma {:induction false} TwoPartsSeparate(t: string, p: string, u: string, q: string, v: string, r: string)
    requires TwoParts(t, p, u, q, v, r)
    ensures Separate(t, "=") == [u, v]
  {
    OnlySeparators(p, u + (q + (v + r)));
    assert (q + (v + r))[0] == q[0];
    SeparateToken(u, q + (v + r), "=");
    OnlySeparators(q, v + r);
    assert r != "" ==> r[0] == '=';
    SeparateToken(v, r, "=");
    OnlySeparators(r, "");
    assert r + "" == r;
  }

  /** Leading separators off. */
  lemma {:induction false} Strip(s: string) returns (p: string, rest: string)
    ensures s == p + rest && Only(p, '=') && (rest == "" || rest[0] != '=')
    ensures Separate(rest, "=") == Separate(s, "=")
    decreases |s|
  {
    if s == "" || s[0] != '=' {
      p, rest := "", s;
    } else {
      p, rest := Strip(s[1..]);
      p := ['='] + p;
    }
  }

  lemma {:induction false} FirstPart(s: string) returns (u: string, rest: string)
    requires s != "" && s[0] != '='
    ensures s == u + rest && u != "" && Free(u, "=") && (rest == "" || rest[0] == '=')
    ensures Separate(s, "=") == [u] + Separate(rest, "=")
  {
    var n := Reach(s, "=");
    u, rest := s[..n], s[n..];
    assert s == u + rest;
    SeparateToken(u, rest, "=");
  }

  lemma {:induction false} SeparateTwoParts(t: string)
    requires |Separate(t, "=")| == 2
    ensures exists p, u, q, v, r :: TwoParts(t, p, u, q, v, r)
  {
    var p, s1 := Strip(t);
    var u, s2 := FirstPart(s1);
    var q, s3 := Strip(s2);
    assert s3 != "";
    var v, s4 := FirstPart(s3);
    var r, s5 := Strip(s4);
    if s5 != "" {
      var w, s6 := FirstPart(s5);
      assert false;
    }
    assert s4 == r + s5 && r + "" == r;
    assert q != "";
    assert TwoParts(t, p, u, q, v, r);
  }

  /** The tokens of the list are those before the first comment. */
  predicate BeforeComment(ts: seq<string>, all: seq<string>) {
    && ts <= all && (forall i | 0 <= i < |ts| :: !IsComment(ts[i]))
    && (|ts| < |all| ==> IsComment(all[|ts|]))
  }

  /**
   When a parse succeeds and with what: the first blank-separated token is two parts joined by '='. They are the leader and the
   first token of the list, which goes on up to the first comment. A failed parse returns nothing.
   */
  lemma {:induction false} ParseExact(s: string)
    ensures var tokens := Separate(s, " \t");
            && (Parse(s).ok <==> tokens != [] && exists p, u, q, v, r :: TwoParts(tokens[0], p, u, q, v, r))
            && (forall p, u, q, v, r :: tokens != [] && TwoParts(tokens[0], p, u, q, v, r) ==>
                  Parse(s).leader == u && BeforeComment(Parse(s).tokens, [v] + tokens[1..]))
            && (!Parse(s).ok ==> Parse(s).leader == "" && Parse(s).tokens == [])
  {
    var tokens := Separate(s, " \t");
    if tokens != [] {
      forall p, u, q, v, r | TwoParts(tokens[0], p, u, q, v, r) ensures Separate(tokens[0], "=") == [u, v] {
        TwoPartsSeparate(tokens[0], p, u, q, v, r);
      }
      if |Separate(tokens[0], "=")| == 2 {
        SeparateTwoParts(tokens[0]);
        var v := Separate(tokens[0], "=")[1];
        assert tokens[0 := v] == [v] + tokens[1..];
        UpToCommentIs([v] + tokens[1..]);
      }
    }
    hide Separate, UpToComment, TwoParts;
  }

  lemma {:induction false} SeparatePair(a: string, b: string)
    requires a != "" && Free(a, "=") && b != "" && Free(b, "=")
    ensures Separate(a + "=" + b, "=") == [a, b]
  {
    var rest := "=" + b;
    assert a + "=" + b == a + rest && rest[1..] == b && b + "" == b;
    SeparateToken(a, rest, "=");
    SeparateToken(b, "", "=");
  }

  lemma {:induction false} ParseAssembled(leader: string, tokens: seq<string>)
    requires WellFormed(leader, tokens)
    ensures Parse(AssembleConfig(leader, tokens)) == Parsed(true, leader, tokens)
  {
    var first := leader + "=" + tokens[0];
    var all := tokens[0 := first];
    AssembleWithFirst(leader + "=", tokens);
    SeparateAssemble(all, BLANKS);
    SeparatePair(leader, tokens[0]);
    assert all[0 := tokens[0]] == tokens;
    NoComment(tokens);
  }

  lemma {:induction false} AssembleWithFirst(before: string, tokens: seq<string>)
    requires tokens != []
    ensures before + Assemble(tokens, " ") == Assemble(tokens[0 := before + tokens[0]], " ")
  {
    if |tokens| > 1 {
      var all := tokens[0 := before + tokens[0]];
      AssembleFromFront(tokens, " ");
      AssembleFromFront(all, " ");
      assert all[1..] == tokens[1..];
    }
  }

  lemma {:induction false} ParseEmptyList(leader: string)
    requires leader != "" && Free(leader, " \t=")
    ensures !Parse(AssembleConfig(leader, [])).ok
  {
    var s := leader + "=";
    assert s + "" == s && s == AssembleConfig(leader, []);
    SeparateToken(s, "", BLANKS);
    SeparateToken(leader, "=", "=");
    assert "="[1..] == "";
  }

  /** The round trip: parsing returns what was assembled exactly for well-formed leaders and lists. */
  lemma {:induction false} RoundTripIff(leader: string, tokens: seq<string>)
    ensures Parse(AssembleConfig(leader, tokens)) == Parsed(true, leader, tokens) <==> WellFormed(leader, tokens)
  {
    var s := AssembleConfig(leader, tokens);
    if WellFormed(leader, tokens) {
      ParseAssembled(leader, tokens);
    } else if Parse(s) == Parsed(true, leader, tokens) {
      ParseYields(s);
      ParseEmptyList(leader);
    }
  }

  /** What a successful parse returns survives assembling and parsing again exactly if its list is not empty. */
  lemma {:induction false} FixedPointIff(s: string)
    requires Parse(s).ok
    ensures Parse(AssembleConfig(Parse(s).leader, Parse(s).tokens)) == Parse(s) <==> Parse(s).tokens != []
  {
    ParseYields(s);
    RoundTripIff(Parse(s).leader, Parse(s).tokens);
  }

  // ------------------------------------------------------------------ the program's loops

  /** Clears the list and appends token after token. */
  method SeparateTokens(wholestr: string, sepchars: string) returns (tokens: seq<string>)
    ensures tokens == Separate(wholestr, sepchars)
  {
    tokens := [];
    var i := 0;
    while i < |wholestr|
      invariant i <= |wholestr| && tokens + Separate(wholestr[i..], sepchars) == Separate(wholestr, sepchars)
    {
      var rest := wholestr[i..];
      if wholestr[i] in sepchars {
        assert rest[1..] == wholestr[i + 1..];
        i := i + 1;
      } else {
        var start := i;
        i := TokenEnd(wholestr, sepchars, start);
        assert rest == wholestr[start..i] + wholestr[i..];
        hide Separate;
        SeparateToken(wholestr[start..i], wholestr[i..], sepchars);
        tokens := tokens + [wholestr[start..i]];
      }
    }
  }

  method TokenEnd(wholestr: string, sepchars: string, start: nat) returns (i: nat)
    requires start < |wholestr| && wholestr[start] !in sepchars
    ensures start < i <= |wholestr| && Free(wholestr[start..i], sepchars)
    ensures i < |wholestr| ==> wholestr[i] in sepchars
  {
    i := start + 1;
    while i < |wholestr| && wholestr[i] !in sepchars
      invariant start < i <= |wholestr|
      invariant forall j | start <= j < i :: wholestr[j] !in sepchars
    {
      i := i + 1;
    }
  }

  method AssembleTokens(tokens: seq<string>, sepchars: string) returns (str: string)
    ensures str == Assemble(tokens, sepchars)
  {
    if |tokens| == 0 {
      return "";
    }
    str := tokens[0];
    for i := 1 to |tokens|
      invariant str == Assemble(tokens[..i], sepchars)
    {
      assert Front(tokens[..i + 1]) == tokens[..i];
      str := str + sepchars + tokens[i];
    }
    assert tokens[..|tokens|] == tokens;
  }

  method ParseConfigstring(wholestr: string) returns (ok: bool, leader: string, tokens: seq<string>)
    ensures Parsed(ok, leader, tokens) == Parse(wholestr)
  {
    tokens := SeparateTokens(wholestr, BLANKS);
    if |tokens| >= 1 {
      var tk := SeparateTokens(tokens[0], "=");
      if |tk| == 2 {
        leader := tk[0];
        tokens := tokens[0 := tk[1]];
        ghost var all := tokens;
        var i := 0;
        while i < |tokens|
          invariant i <= |all| && tokens == all && forall j | 0 <= j < i :: !IsComment(all[j])
        {
          if |tokens[i]| > 0 && tokens[i][0] == '#' {
            tokens := tokens[..i];
            break;
          }
          i := i + 1;
        }
        CommentAt(all, tokens);
        return true, leader, tokens;
      }
    }
    return false, "", [];
  }

  lemma {:induction false} CommentAt(all: seq<string>, cut: seq<string>)
    requires cut <= all && (forall j | 0 <= j < |cut| :: !IsComment(all[j]))
    requires |cut| < |all| ==> IsComment(all[|cut|])
    ensures UpToComment(all) == cut
  {
    UpToCommentIs(all);
    assert |UpToComment(all)| == |cut|;
  }
}
